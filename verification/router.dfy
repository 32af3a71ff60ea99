/** The `MessageRouter`: a table from concrete message class to handler object name, and the
    decision which handler (if any) a routed message is handed to. */
module Router {
  import opened Wrappers
  import opened Messages

  /** Object name of a message handler, resolved to an instance at route time. */
  type HandlerName = string

  /** `$messageHandlerMap`. The registering call has no type hint, so an entry may be `null`;
      routing treats such an entry as absent (`isset`). */
  datatype MessageRouter = MessageRouter(handlerMap: map<ClassName, Option<HandlerName>>)

  /** The single call `route` makes: `handle(message)` on the handler resolved from `handler`. */
  datatype Invocation = Invocation(handler: HandlerName, message: Message)

  /** What running a handler on a message amounts to for the bus: the messages it dispatched
      while it ran, in order, and whether it then threw (resolution failures included). */
  datatype HandlerRun = HandlerRun(dispatched: seq<Message>, raised: bool)

  /** Handler resolution followed by `handle`, as seen from outside. */
  type Handlers = (HandlerName, Message) -> HandlerRun

  /** A router with no entries. */
  function EmptyRouter(): (router: MessageRouter)
    ensures forall cls :: !Mapped(router, cls)
  {
    MessageRouter(map[])
  }

  /** `isset($this->messageHandlerMap[$cls])`. */
  predicate Mapped(router: MessageRouter, cls: ClassName)
  {
    cls in router.handlerMap && router.handlerMap[cls].Some?
  }

  /** `mapToMessageHandler`: store `handler` for `cls`, replacing any earlier entry. */
  function MapToMessageHandler(router: MessageRouter, cls: ClassName, handler: Option<HandlerName>): (r: MessageRouter)
    ensures r.handlerMap.Keys == router.handlerMap.Keys + {cls}
    ensures r.handlerMap[cls] == handler
    ensures Mapped(r, cls) <==> handler.Some?
    ensures forall c :: c != cls ==> (c in r.handlerMap <==> c in router.handlerMap)
    ensures forall c :: c != cls && c in router.handlerMap ==> r.handlerMap[c] == router.handlerMap[c]
  {
    MessageRouter(router.handlerMap[cls := handler])
  }

  /** `route`: which handler is called with `m`, looked up by `m`'s exact class; `None` when
      the class is not mapped, which is not an error. */
  function Route(router: MessageRouter, m: Message): (call: Option<Invocation>)
    ensures call.None? <==> !Mapped(router, m.cls)
    ensures call.Some? ==> call.value.message == m
    ensures call.Some? ==> Some(call.value.handler) == router.handlerMap[m.cls]
  {
    if Mapped(router, m.cls) then Some(Invocation(router.handlerMap[m.cls].value, m)) else None
  }

  /** The effect of routing `m`: nothing for an unmapped class, otherwise the run of the
      mapped handler on `m`. */
  function RouteRun(router: MessageRouter, handlers: Handlers, m: Message): (run: HandlerRun)
    ensures !Mapped(router, m.cls) ==> run == HandlerRun([], false)
    ensures Mapped(router, m.cls) ==> run == handlers(router.handlerMap[m.cls].value, m)
  {
    match Route(router, m)
    case None => HandlerRun([], false)
    case Some(call) => handlers(call.handler, call.message)
  }

  /** After mapping `cls` to `h`, a message of class `cls` goes to `h`. */
  lemma MapThenRoute(router: MessageRouter, cls: ClassName, h: HandlerName, m: Message)
    requires m.cls == cls
    ensures Route(MapToMessageHandler(router, cls, Some(h)), m) == Some(Invocation(h, m))
  {
  }

  /** Last write wins: of two mappings for one class, only the later one is ever called. */
  lemma LastWriteWins(router: MessageRouter, cls: ClassName, a: HandlerName, b: HandlerName, m: Message)
    requires m.cls == cls
    ensures Route(MapToMessageHandler(MapToMessageHandler(router, cls, Some(a)), cls, Some(b)), m)
      == Some(Invocation(b, m))
    ensures a != b ==>
      Route(MapToMessageHandler(MapToMessageHandler(router, cls, Some(a)), cls, Some(b)), m).value.handler != a
  {
  }

  /** Lookup is by exact class: mapping any other class, such as a parent class of `m`'s,
      does not change where `m` goes. */
  lemma RouteIgnoresOtherClasses(router: MessageRouter, cls: ClassName, h: Option<HandlerName>, m: Message)
    requires m.cls != cls
    ensures Route(MapToMessageHandler(router, cls, h), m) == Route(router, m)
  {
  }
}
