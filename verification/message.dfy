/** The message record of `AbstractMessage`: five data properties, the reconstitution from a
    keyed data array (`recreate`), its inverse (`getMessageData`), versioned cloning and the
    null-guarded initialisation of identifier and creation time. */
module Messages {
  import opened Wrappers

  /** Concrete PHP class name of a message; it decides which handler the router picks. */
  type ClassName = string

  /** Key of the message data array. */
  type Key = string

  /** A creation time with microsecond precision; reading the clock is outside the model. */
  datatype DateTime = DateTime(seconds: int, micros: nat)

  /** The PHP values a message datum can hold. `null` is not a `Value`: it is `None`. */
  datatype Value =
    | Text(s: string)
    | Integer(i: int)
    | Instant(at: DateTime)
    | Array(entries: seq<Entry>)

  /** One key/value pair of an ordered PHP array; the value may be `null`. */
  datatype Entry = Entry(key: Key, value: Option<Value>)

  /** An ordered PHP array, as payload and metadata are. */
  type PhpArray = seq<Entry>

  /** The keyed data array that `recreate` consumes and `getMessageData` produces. */
  type MessageData = map<Key, Option<Value>>

  const IdentifierKey: Key := "messageIdentifier"
  const CreationDateTimeKey: Key := "messageCreationDateTime"
  const VersionKey: Key := "messageVersion"
  const PayloadKey: Key := "messagePayload"
  const MetadataKey: Key := "messageMetadata"

  /** The data property names, in the order `recreate` checks them. */
  const MessageDataPropertyNames: seq<Key> :=
    [IdentifierKey, CreationDateTimeKey, VersionKey, PayloadKey, MetadataKey]

  /** Code of the `InvalidArgumentException` thrown for missing message data. */
  const MissingDataCode: int := 1469565781338

  /** Default of the version property of a new instance. */
  const DefaultVersion: Value := Integer(0)

  datatype RecreateError =
    /** `InvalidArgumentException`: the data lacks `key` or holds `null` under it. */
    | MissingMessageData(key: Key, code: int)
    /** The array-typed setter for `key` was handed a value that is not an array. */
    | NotAnArray(key: Key)

  /** A message object: its concrete class and its five data properties, each possibly `null`. */
  datatype Message = Message(
    cls: ClassName,
    identifier: Option<Value>,
    creationDateTime: Option<Value>,
    version: Option<Value>,
    payload: Option<PhpArray>,
    metadata: Option<PhpArray>)

  /** PHP `isset($data[$key])`: the key is present and its value is not `null`. */
  predicate IsSet(data: MessageData, key: Key)
  {
    key in data && data[key].Some?
  }

  /** Every data property name is set in `data`. */
  predicate HasAllData(data: MessageData)
  {
    && IsSet(data, IdentifierKey)
    && IsSet(data, CreationDateTimeKey)
    && IsSet(data, VersionKey)
    && IsSet(data, PayloadKey)
    && IsSet(data, MetadataKey)
  }

  /** `HasAllData` is "every name of `MessageDataPropertyNames` is set". */
  lemma HasAllDataByNames(data: MessageData)
    ensures HasAllData(data) <==>
      forall i :: 0 <= i < |MessageDataPropertyNames| ==> IsSet(data, MessageDataPropertyNames[i])
  {
    assert MessageDataPropertyNames[0] == IdentifierKey;
    assert MessageDataPropertyNames[1] == CreationDateTimeKey;
    assert MessageDataPropertyNames[2] == VersionKey;
    assert MessageDataPropertyNames[3] == PayloadKey;
    assert MessageDataPropertyNames[4] == MetadataKey;
  }

  /** Data that `recreate` accepts: every name set, payload and metadata arrays. */
  predicate ValidData(data: MessageData)
  {
    && HasAllData(data)
    && data[PayloadKey].value.Array?
    && data[MetadataKey].value.Array?
  }

  /** All five data properties of `m` are non-null. */
  predicate Complete(m: Message)
  {
    && m.identifier.Some?
    && m.creationDateTime.Some?
    && m.version.Some?
    && m.payload.Some?
    && m.metadata.Some?
  }

  /** The first of `keys` that is not set in `data`, scanning in order, if there is one. */
  function FirstUnset(data: MessageData, keys: seq<Key>): (r: Option<Key>)
    ensures r.None? <==> forall i :: 0 <= i < |keys| ==> IsSet(data, keys[i])
    ensures r.Some? ==>
      exists i :: 0 <= i < |keys| && keys[i] == r.value && !IsSet(data, keys[i])
        && forall j :: 0 <= j < i ==> IsSet(data, keys[j])
  {
    if keys == [] then None
    else if !IsSet(data, keys[0]) then Some(keys[0])
    else
      assert forall i :: 1 <= i < |keys| ==> keys[i] == keys[1..][i - 1];
      FirstUnset(data, keys[1..])
  }

  /** A PHP array value as stored by the data array, `null` staying `null`. */
  function ArrayValue(a: Option<PhpArray>): (v: Option<Value>)
  {
    match a
    case None => None
    case Some(entries) => Some(Array(entries))
  }

  /** `recreate`: an instance of class `cls` whose five properties are taken from `data`,
      without running a constructor. */
  function Recreate(cls: ClassName, data: MessageData): (r: Result<Message, RecreateError>)
    ensures r.Success? <==> ValidData(data)
    ensures r.Failure? && r.error.MissingMessageData? <==> !HasAllData(data)
    ensures r.Failure? && r.error.MissingMessageData? ==>
      && r.error.code == MissingDataCode
      && exists i :: 0 <= i < |MessageDataPropertyNames|
           && MessageDataPropertyNames[i] == r.error.key
           && !IsSet(data, r.error.key)
           && forall j :: 0 <= j < i ==> IsSet(data, MessageDataPropertyNames[j])
    ensures r.Failure? && r.error.NotAnArray? ==>
      r.error.key == (if !data[PayloadKey].value.Array? then PayloadKey else MetadataKey)
    ensures r.Success? ==>
      && r.value.cls == cls
      && r.value.identifier == data[IdentifierKey]
      && r.value.creationDateTime == data[CreationDateTimeKey]
      && r.value.version == data[VersionKey]
      && ArrayValue(r.value.payload) == data[PayloadKey]
      && ArrayValue(r.value.metadata) == data[MetadataKey]
  {
    HasAllDataByNames(data);
    match FirstUnset(data, MessageDataPropertyNames)
    case Some(key) => Failure(MissingMessageData(key, MissingDataCode))
    case None =>
      var payload := data[PayloadKey].value;
      var metadata := data[MetadataKey].value;
      if !payload.Array? then Failure(NotAnArray(PayloadKey))
      else if !metadata.Array? then Failure(NotAnArray(MetadataKey))
      else Success(Message(cls, data[IdentifierKey], data[CreationDateTimeKey],
                           data[VersionKey], Some(payload.entries), Some(metadata.entries)))
  }

  /** `getMessageData`: the five data properties of `m` under their names. */
  function GetMessageData(m: Message): (data: MessageData)
    ensures data.Keys == set k | k in MessageDataPropertyNames
    ensures HasAllData(data) <==> Complete(m)
  {
    map[IdentifierKey := m.identifier,
        CreationDateTimeKey := m.creationDateTime,
        VersionKey := m.version,
        PayloadKey := ArrayValue(m.payload),
        MetadataKey := ArrayValue(m.metadata)]
  }

  /** `data` cut down to the five data property names. */
  function Restrict(data: MessageData): MessageData
  {
    map k | k in data && k in MessageDataPropertyNames :: data[k]
  }

  /** Reconstituting from valid data and reading the data back gives the input, minus any
      keys besides the five names. */
  lemma RecreateThenGetData(cls: ClassName, data: MessageData)
    ensures Recreate(cls, data).Success? ==>
      GetMessageData(Recreate(cls, data).value) == Restrict(data)
  {
    var r := Recreate(cls, data);
    if r.Success? {
      assert GetMessageData(r.value).Keys == Restrict(data).Keys;
    }
  }

  /** Reading a message's data and reconstituting it gives back the same message exactly when
      none of its five properties is `null`. */
  lemma GetDataThenRecreate(m: Message)
    ensures Recreate(m.cls, GetMessageData(m)).Success? <==> Complete(m)
    ensures Complete(m) ==> Recreate(m.cls, GetMessageData(m)) == Success(m)
  {
  }

  /** `cloneWithNewVersion`: the message's data with the version replaced, reconstituted as an
      instance of the same class. The original value is left as it is. */
  function CloneWithNewVersion(m: Message, newVersion: Option<Value>): (r: Result<Message, RecreateError>)
    ensures Complete(m) && newVersion.Some? ==> r == Success(m.(version := newVersion))
    ensures r.Success? ==>
      && r.value.cls == m.cls
      && r.value.identifier == m.identifier
      && r.value.creationDateTime == m.creationDateTime
      && r.value.version == newVersion
      && r.value.payload == m.payload
      && r.value.metadata == m.metadata
    ensures r.Success? <==> Complete(m.(version := newVersion))
    ensures newVersion.None? && m.identifier.Some? && m.creationDateTime.Some? ==>
      r == Failure(MissingMessageData(VersionKey, MissingDataCode))
  {
    var data := GetMessageData(m)[VersionKey := newVersion];
    CloneData(m, newVersion);
    Recreate(m.cls, data)
  }

  /** The data `cloneWithNewVersion` reconstitutes from is that of the message with the new
      version. */
  lemma CloneData(m: Message, newVersion: Option<Value>)
    ensures GetMessageData(m)[VersionKey := newVersion] == GetMessageData(m.(version := newVersion))
    ensures Complete(m.(version := newVersion)) ==>
      Recreate(m.cls, GetMessageData(m)[VersionKey := newVersion]) == Success(m.(version := newVersion))
    ensures newVersion.None? && m.identifier.Some? && m.creationDateTime.Some? ==>
      Recreate(m.cls, GetMessageData(m)[VersionKey := newVersion])
        == Failure(MissingMessageData(VersionKey, MissingDataCode))
  {
    var data := GetMessageData(m)[VersionKey := newVersion];
    assert data == GetMessageData(m.(version := newVersion));
    if Complete(m.(version := newVersion)) {
      GetDataThenRecreate(m.(version := newVersion));
    }
    if newVersion.None? && m.identifier.Some? && m.creationDateTime.Some? {
      MissingVersionFound(m.cls, data);
    }
  }

  /** With identifier and creation time set, a missing version is the first thing reported. */
  lemma MissingVersionFound(cls: ClassName, data: MessageData)
    requires IsSet(data, IdentifierKey) && IsSet(data, CreationDateTimeKey) && !IsSet(data, VersionKey)
    ensures Recreate(cls, data) == Failure(MissingMessageData(VersionKey, MissingDataCode))
  {
    var names := MessageDataPropertyNames;
    assert names[1..][1..] == [VersionKey, PayloadKey, MetadataKey];
    assert FirstUnset(data, names[1..][1..]) == Some(VersionKey);
    assert names[1..][0] == CreationDateTimeKey;
    assert FirstUnset(data, names) == Some(VersionKey);
  }

  /** Cloning with a `null` version fails exactly as reconstituting the message's data with
      the version missing does. */
  lemma CloneWithNullVersionIsMissingVersion(m: Message)
    ensures CloneWithNewVersion(m, None) == Recreate(m.cls, GetMessageData(m) - {VersionKey})
  {
    var withNull := GetMessageData(m)[VersionKey := None];
    var without := GetMessageData(m) - {VersionKey};
    assert forall k :: k in MessageDataPropertyNames ==> (IsSet(withNull, k) <==> IsSet(without, k));
    FirstUnsetAgrees(withNull, without, MessageDataPropertyNames);
  }

  /** `FirstUnset` only looks at which keys are set. */
  lemma {:induction false} FirstUnsetAgrees(a: MessageData, b: MessageData, keys: seq<Key>)
    requires forall k :: k in keys ==> (IsSet(a, k) <==> IsSet(b, k))
    ensures FirstUnset(a, keys) == FirstUnset(b, keys)
  {
    if keys != [] {
      assert keys[0] in keys;
      FirstUnsetAgrees(a, b, keys[1..]);
    }
  }

  /** A fresh instance built without its constructor: only the version has its default. */
  function Instantiate(cls: ClassName): (m: Message)
    ensures m.cls == cls
    ensures m.version == Some(DefaultVersion)
    ensures m.identifier.None? && m.creationDateTime.None?
    ensures m.payload.None? && m.metadata.None?
    ensures !Complete(m)
  {
    Message(cls, None, None, Some(DefaultVersion), None, None)
  }

  /** `initialize`: give the message the fresh identifier `uuid` and creation time `now`, but
      only where the property is still `null`. */
  function Initialize(m: Message, uuid: string, now: DateTime): (r: Message)
    ensures r.identifier.Some? && r.creationDateTime.Some?
    ensures m.identifier.Some? ==> r.identifier == m.identifier
    ensures m.identifier.None? ==> r.identifier == Some(Text(uuid))
    ensures m.creationDateTime.Some? ==> r.creationDateTime == m.creationDateTime
    ensures m.creationDateTime.None? ==> r.creationDateTime == Some(Instant(now))
    ensures r.cls == m.cls && r.version == m.version
    ensures r.payload == m.payload && r.metadata == m.metadata
  {
    var withIdentifier := if m.identifier.None? then m.(identifier := Some(Text(uuid))) else m;
    if withIdentifier.creationDateTime.None? then
      withIdentifier.(creationDateTime := Some(Instant(now)))
    else
      withIdentifier
  }

  /** A second `initialize`, with whatever fresh values, changes nothing. */
  lemma InitializeIdempotent(m: Message, uuid: string, now: DateTime, uuid2: string, now2: DateTime)
    ensures Initialize(Initialize(m, uuid, now), uuid2, now2) == Initialize(m, uuid, now)
  {
  }

  /** A reconstituted message keeps its identity under `initialize`. */
  lemma InitializeKeepsRecreated(cls: ClassName, data: MessageData, uuid: string, now: DateTime)
    requires Recreate(cls, data).Success?
    ensures Initialize(Recreate(cls, data).value, uuid, now) == Recreate(cls, data).value
  {
  }

  /** How a concrete message class builds a new message: instantiate, set payload and metadata
      through their setters, then `initialize`. */
  function Construct(cls: ClassName, payload: PhpArray, metadata: PhpArray, uuid: string, now: DateTime): (m: Message)
    ensures Complete(m)
    ensures m.cls == cls && m.version == Some(DefaultVersion)
    ensures m.identifier == Some(Text(uuid)) && m.creationDateTime == Some(Instant(now))
    ensures m.payload == Some(payload) && m.metadata == Some(metadata)
  {
    Initialize(Instantiate(cls).(payload := Some(payload), metadata := Some(metadata)), uuid, now)
  }
}
