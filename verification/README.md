# Flownative.Messaging in Dafny

A model of the in-process message bus of the Flownative.Messaging Flow package, with proofs
about it. It covers the three classes that hold the package's logic:

- `AbstractMessage` (`message.dfy`, module `Messages`): a message is five data properties
  (identifier, creation date/time, version, payload, metadata) plus its concrete class.
  `recreate` rebuilds a message from a keyed data array. It rejects the array when a required
  key is missing or `null`, and it checks the keys in a fixed order. `getMessageData` is its
  inverse. `cloneWithNewVersion` reconstitutes the message's own data with a new version.
  `initialize` fills identifier and creation time only where they are still `null`.
- `MessageRouter` (`router.dfy`, module `Router`): a table from concrete message class to
  handler object name. `mapToMessageHandler` overwrites the entry. `route` calls the mapped
  handler once with the message, or does nothing when the class is not mapped.
- `AbstractMessageBus` (`bus.dfy`, module `Bus`): the queue plus the `dispatching` flag.
  `dispatch` always appends. Only a call made while the flag is clear drains the queue: it
  routes the head until the queue is empty. A `dispatch` made by a handler during the drain
  only appends.

`scenarios.dfy` (module `Scenarios`) works through concrete dispatch scenarios: an order
command whose handler dispatches three events, one of which dispatches a further message; three
separate top-level dispatches; and a handler that throws.

How things are represented:

- PHP `null` is `None`. The data array is `map<Key, Option<Value>>`, and `isset` is "the key is
  present and its value is not `None`".
- Payload and metadata are ordered PHP arrays (`seq<Entry>`). The identifier and the creation
  time are ordinary values and are never interpreted.
- The concrete class, which the source reads by reflection (`get_called_class`, `get_class`),
  is an explicit `cls` field of the message and an explicit parameter of `Recreate`.
- Exceptions are the `Failure` side of a `Result`. `MissingMessageData(key, 1469565781338)` is
  the `InvalidArgumentException`. `NotAnArray(key)` is the type error that the array-typed
  setters raise.
- Resolving a handler by name and calling `handle` are one abstract function,
  `(HandlerName, Message) -> HandlerRun`. It gives the messages the handler dispatched, in
  order, and whether it then threw. A handler that cannot be resolved is a run that throws.
- The bus is a value `MessageBus(queue, dispatching)`. `Dispatch` returns the new state, the
  messages it routed, the messages the handlers dispatched meanwhile, and how the call ended.
  A handler's own `dispatch` calls go through `Dispatch` itself, via `RedispatchAll`, while
  the flag is set. Nothing bounds how many messages handlers dispatch, so `Dispatch` takes a
  `fuel` bound on the number of messages it routes.
- FIFO order is stated by `FifoRun`: each routed message is the next one ever enqueued, and it
  was already in the queue when it was routed. `CompleteRunIsUnique` shows that this fixes the
  routing order of a completed drain completely.

The drain loop has no `try`/`finally` (Classes/Bus/AbstractMessageBus.php:54-58). So when a
handler throws, the flag stays set, the unrouted messages stay queued, and every later
`dispatch` on that bus only appends. The `Raised` outcome of `Dispatch` and
`FailingHandlerScenario` state this.

## Model

| member | source | states |
|---|---|---|
| Messages.Recreate | Classes/Message/AbstractMessage.php:70-88 | fails with code 1469565781338 exactly when one of the five keys is missing or null, naming the first such key in the order of `$messageDataPropertyNames`; with all five set, fails with a type error when payload (checked first) or metadata is not an array; otherwise succeeds exactly on valid data, with the five properties equal to the five entries, the class as given, and extra keys ignored |
| Messages.FirstUnset | Classes/Message/AbstractMessage.php:72-76 | finds no key exactly when every key is set; a key it finds is not set and every key before it is |
| Messages.HasAllDataByNames | Classes/Message/AbstractMessage.php:57 | the five keys checked by name are exactly the entries of `$messageDataPropertyNames` |
| Messages.GetMessageData | Classes/Message/AbstractMessage.php:163-172 | the result has exactly the five keys, and all five are set exactly when the message's five properties are non-null |
| Messages.RecreateThenGetData | Classes/Message/AbstractMessage.php:70-88 | when `recreate` accepts data, `getMessageData` of the result is the input cut down to the five keys |
| Messages.GetDataThenRecreate | Classes/Message/AbstractMessage.php:163-172 | `recreate` of a message's own data succeeds exactly when its five properties are non-null, and then gives back the same message, class included |
| Messages.CloneWithNewVersion | Classes/Message/AbstractMessage.php:96-101 | for a complete message and a non-null version, the clone is the message with only the version replaced; any successful clone keeps class, identifier, creation time, payload and metadata; it succeeds exactly when the message with the new version is complete; a null version with identifier and creation time set fails as a missing `messageVersion` |
| Messages.CloneData | Classes/Message/AbstractMessage.php:98-100 | the data with the version replaced is the data of the message with the new version, and its reconstitution succeeds or fails as the clone's contract says |
| Messages.MissingVersionFound | Classes/Message/AbstractMessage.php:72-74 | with identifier and creation time set and the version missing or null, `recreate` fails on `messageVersion` with code 1469565781338 |
| Messages.CloneWithNullVersionIsMissingVersion | Classes/Message/AbstractMessage.php:99-100 | cloning with a null version gives the same result as `recreate` of the message's data with the version key removed |
| Messages.FirstUnsetAgrees | Classes/Message/AbstractMessage.php:73 | the order check depends only on which keys are set, so a null value and an absent key are the same to it |
| Messages.Instantiate | Classes/Message/AbstractMessage.php:36 | an instance made without its constructor has version 0, the given class, and every other property `null`, so it is not complete |
| Messages.Initialize | Classes/Message/AbstractMessage.php:181-194 | identifier and creation time are non-null afterwards; each keeps its old value when it was set, and takes the fresh value only when it was null; nothing else changes |
| Messages.InitializeIdempotent | Classes/Message/AbstractMessage.php:181-194 | a second `initialize`, with any fresh values, changes nothing |
| Messages.InitializeKeepsRecreated | Classes/Message/AbstractMessage.php:183-187 | `initialize` leaves a reconstituted message unchanged |
| Messages.Construct | Classes/Message/AbstractMessage.php:177-220 | a message built by a subclass (instantiate, set payload and metadata, initialize) is complete, with version 0 and the fresh identifier and creation time |
| Router.EmptyRouter | Classes/Router/MessageRouter.php:43 | a new router maps no class |
| Router.MapToMessageHandler | Classes/Router/MessageRouter.php:66-68 | afterwards the class maps to the given handler name (or to null); every other class keeps its entry, and no other class is added |
| Router.Route | Classes/Router/MessageRouter.php:51-57 | no handler is called exactly when the class has no non-null entry; otherwise one call, of the mapped handler, with the same message |
| Router.RouteRun | Classes/Router/MessageRouter.php:53-56 | routing an unmapped message dispatches nothing and throws nothing; routing a mapped one has exactly the effect of the mapped handler on that message |
| Router.MapThenRoute | Classes/Router/MessageRouter.php:53-55 | after mapping class `c` to `h`, a message of class `c` is handed to `h` |
| Router.LastWriteWins | Classes/Router/MessageRouter.php:67 | after mapping `c` to `a` and then to `b`, a `c` message goes to `b` and not to `a` |
| Router.RouteIgnoresOtherClasses | Classes/Router/MessageRouter.php:53 | mapping any class other than the message's exact class, such as a parent class, does not change where it is routed |
| Bus.NewBus | Classes/Bus/AbstractMessageBus.php:30-35 | a new bus has an empty queue and is not dispatching |
| Bus.Dispatch | Classes/Bus/AbstractMessageBus.php:49-60 | the messages routed, followed by the final queue, are the old queue, then the new message, then everything the handlers dispatched, in order; routing is FIFO; a call made while dispatching only appends, routes nothing and leaves the flag set; a drained call ends with an empty queue and the flag clear; on every other ending the flag stays set; a throwing handler ends the call right after its message is routed |
| Bus.Drain | Classes/Bus/AbstractMessageBus.php:54-58 | the drain loop routes FIFO and keeps routed-then-queued equal to initial queue plus handler dispatches; it clears the flag only when the queue is empty, and it stops at the first handler that throws with the flag still set |
| Bus.RedispatchAll | Classes/Bus/AbstractMessageBus.php:51-53 | any number of `dispatch` calls on a bus whose flag is set only append their messages, in order, and keep the flag set; this covers handlers dispatching mid-drain and every dispatch after a handler threw |
| Bus.RouteHeadStep | Classes/Bus/AbstractMessageBus.php:55-56 | popping and routing the head, then appending what its handler dispatched, keeps the drain invariant |
| Bus.FifoRunExtends | Classes/Bus/AbstractMessageBus.php:55 | routing the head of the current queue extends a FIFO run |
| Bus.FifoRunPrefix | Classes/Bus/AbstractMessageBus.php:55 | every prefix of a FIFO run is a FIFO run |
| Bus.FifoRunRoutesEnqueued | Classes/Bus/AbstractMessageBus.php:51-55 | in a FIFO run, the k-th routed message is the k-th message enqueued, and it was enqueued before the k-th routing |
| Bus.FifoRunsAgree | Classes/Bus/AbstractMessageBus.php:55 | of two FIFO runs from the same queue, the shorter is a prefix of the longer |
| Bus.CompleteRunIsMaximal | Classes/Bus/AbstractMessageBus.php:55 | once a FIFO run has routed everything enqueued, no FIFO run is longer and every one is a prefix of it |
| Bus.CompleteRunIsUnique | Classes/Bus/AbstractMessageBus.php:53-58 | the routing order of a completed drain depends only on the starting queue and the handlers |
| Bus.SpawnedBySnoc | Classes/Bus/AbstractMessageBus.php:51 | routing one more message adds exactly what its handler dispatched, at the end |
| Scenarios.RunOnIdleBus | Classes/Bus/AbstractMessageBus.php:49-60 | a top-level dispatch of any of the shop events on a new bus routes each message, then what its handler dispatched, breadth first, and leaves the bus idle |
| Scenarios.PlaceOrdersScenario | Classes/Bus/AbstractMessageBus.php:51-57 | a command whose handler dispatches three events, the first of which dispatches an invoice request, routes command, events in order, then the invoice request |
| Scenarios.SeparateCallsScenario | Classes/Bus/AbstractMessageBus.php:53-59 | three separate top-level dispatches each drain before returning, so the invoice request is routed right after the first event and ahead of the later two; the `OrderPlaced` event with `orderId` 42 reaches `OrderPlacedHandler` exactly once |
| Scenarios.FailingHandlerScenario | Classes/Bus/AbstractMessageBus.php:54-58 | when the command's handler throws, only the command has been routed, its three events stay queued, the flag stays set, and a later top-level dispatch only appends |

## Left out

- Generating the identifier (a UUID library) and reading the clock in `initialize`
  (Classes/Message/AbstractMessage.php:184, 188-192): the fresh identifier and time are
  parameters of `Initialize`. The float-to-string formatting of the time, and a failing
  `createFromFormat`, are not modelled.
- Reflection (`ReflectionClass`, `newInstanceWithoutConstructor`, `get_called_class`,
  `get_class`): the concrete class is carried explicitly as a message field.
- The getters (Classes/Message/AbstractMessage.php:109-155) are the fields of the `Message`
  datatype. The setters (lines 204-220) appear only as the array type check in `Recreate` and
  the field updates in `Construct`.
- The object manager and the system logger of the router: handler resolution and `handle` are
  one abstract function. Resolution happens afresh on every routed message, so nothing is
  cached.
- The three interface files: they declare signatures only.
- Concurrency: the package assumes one request thread per bus and has no locking.
- What handlers do besides dispatching messages or throwing.
- Object identity: messages are compared as values, so "the same message" means an equal
  message. "The original is not modified" by `cloneWithNewVersion` holds because values are
  immutable.
- Bus.Dispatch: the `fuel` bound is not in the source. A call that runs out of fuel ends with
  `OutOfFuel`, the flag set and messages still queued. The source would keep draining, and it
  would not return at all when handlers keep dispatching forever.
- Messages.Recreate: the version is stored as given, without a type check, as in the source. A
  payload or metadata that is not an array is a `NotAnArray` error. The exact PHP error class
  of that case is not modelled.
