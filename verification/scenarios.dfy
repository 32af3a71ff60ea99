/** Worked dispatch scenarios: an order-placing command whose handler dispatches three
    `OrderPlaced` events, the first of which dispatches an invoice request in turn. */
module Scenarios {
  import opened Wrappers
  import opened Messages
  import opened Router
  import opened Bus

  /** A message of class `cls` carrying the payload `{orderId: id}`, minted with the fresh
      identifier `uuid`. */
  function OrderMessage(cls: ClassName, id: string, uuid: string): (m: Message)
    ensures m.cls == cls && m.identifier == Some(Text(uuid))
    ensures m.payload == Some([Entry("orderId", Some(Text(id)))])
  {
    Construct(cls, [Entry("orderId", Some(Text(id)))], [], uuid, DateTime(0, 0))
  }

  const PlaceOrders: Message := OrderMessage("PlaceOrders", "0", "uuid-1")
  const Placed42: Message := OrderMessage("OrderPlaced", "42", "uuid-2")
  const Placed43: Message := OrderMessage("OrderPlaced", "43", "uuid-3")
  const Placed44: Message := OrderMessage("OrderPlaced", "44", "uuid-4")
  const Invoice42: Message := OrderMessage("InvoiceRequested", "42", "uuid-5")

  /** `PlaceOrders` and `OrderPlaced` are mapped; `InvoiceRequested` is not. */
  function ShopRouter(): (router: MessageRouter)
    ensures Mapped(router, "PlaceOrders") && Mapped(router, "OrderPlaced")
    ensures !Mapped(router, "InvoiceRequested")
  {
    MapToMessageHandler(MapToMessageHandler(EmptyRouter(), "PlaceOrders", Some("PlaceOrdersHandler")),
                        "OrderPlaced", Some("OrderPlacedHandler"))
  }

  /** The handlers: placing orders dispatches three events; the event for order 42 asks for
      an invoice. No handler throws. */
  function ShopHandlers(): Handlers
  {
    (h: HandlerName, m: Message) =>
      if h == "PlaceOrdersHandler" then HandlerRun([Placed42, Placed43, Placed44], false)
      else if h == "OrderPlacedHandler" && m == Placed42 then HandlerRun([Invoice42], false)
      else HandlerRun([], false)
  }

  /** The order in which a top-level dispatch of one of the scenario's events routes messages:
      each event, then what its handler dispatched, breadth first. */
  function ExpectedRun(event: Message): (r: seq<Message>)
    ensures |r| > 0 && r[0] == event
  {
    if event == PlaceOrders then [PlaceOrders, Placed42, Placed43, Placed44, Invoice42]
    else if event == Placed42 then [Placed42, Invoice42]
    else [event]
  }

  /** A top-level dispatch of one of the scenario's events on a new bus routes exactly
      `ExpectedRun(event)` and leaves the bus idle, that is, as new again. */
  method RunOnIdleBus(event: Message) returns (routed: seq<Message>, bus': MessageBus)
    requires event == PlaceOrders || event == Placed42 || event == Placed43 || event == Placed44
    ensures routed == ExpectedRun(event)
    ensures bus' == NewBus()
  {
    var router := ShopRouter();
    var handlers := ShopHandlers();
    var bus := NewBus();
    var expected := ExpectedRun(event);
    ExpectedIsCompleteRun(event);
    var spawned, outcome;
    bus', routed, spawned, outcome := Dispatch(bus, router, handlers, event, 10);
    assert bus.queue + [event] == [event];
    CompleteRunIsMaximal(router, handlers, [event], expected, routed);
    assert outcome != OutOfFuel;
    assert outcome != Raised;
    CompleteRunIsUnique(router, handlers, [event], expected, routed);
  }

  /** One top-level dispatch of `PlaceOrders` routes it, then the three events in the order the
      handler dispatched them, then the invoice request that the first event's handler queued
      behind them; the bus ends idle. */
  method PlaceOrdersScenario() returns (routed: seq<Message>, bus': MessageBus)
    ensures routed == [PlaceOrders, Placed42, Placed43, Placed44, Invoice42]
    ensures bus' == NewBus()
  {
    routed, bus' := RunOnIdleBus(PlaceOrders);
  }

  /** Three separate top-level dispatches of the three events: each call drains the queue
      before it returns, so the invoice request is routed right after the event for order 42,
      ahead of the two later events; that event reaches `OrderPlacedHandler` exactly once. */
  method SeparateCallsScenario() returns (first: seq<Message>, second: seq<Message>, third: seq<Message>)
    ensures first == [Placed42, Invoice42] && second == [Placed43] && third == [Placed44]
    ensures multiset(first + second + third)[Placed42] == 1
    ensures Route(ShopRouter(), first[0]) == Some(Invocation("OrderPlacedHandler", Placed42))
    ensures first[0].payload == Some([Entry("orderId", Some(Text("42")))])
  {
    ShopRuns();
    // `RunOnIdleBus` dispatches on a new bus and leaves the bus as new, so three calls made one
    // after another on the same bus are three calls of `RunOnIdleBus`.
    var bus;
    first, bus := RunOnIdleBus(Placed42);
    assert bus == NewBus();
    second, bus := RunOnIdleBus(Placed43);
    assert bus == NewBus();
    third, bus := RunOnIdleBus(Placed44);
    assert first + second + third == [Placed42, Invoice42, Placed43, Placed44];
    assert Placed43 != Placed42 && Placed44 != Placed42 && Invoice42 != Placed42 by {
      assert Placed43.identifier != Placed42.identifier;
      assert Placed44.identifier != Placed42.identifier;
      assert Invoice42.identifier != Placed42.identifier;
    }
  }

  /** The handlers of `ShopHandlers`, except that placing orders throws after dispatching
      the three events. */
  function FailingShopHandlers(): Handlers
  {
    (h: HandlerName, m: Message) =>
      if h == "PlaceOrdersHandler" then HandlerRun([Placed42, Placed43, Placed44], true)
      else ShopHandlers()(h, m)
  }

  /** A handler that throws leaves the bus marked as dispatching, with the events it queued
      still waiting; a later top-level dispatch then only appends and routes nothing. */
  method FailingHandlerScenario() returns (routed: seq<Message>, bus': MessageBus, later: seq<Message>, bus'': MessageBus)
    ensures routed == [PlaceOrders]
    ensures bus' == MessageBus([Placed42, Placed43, Placed44], true)
    ensures later == []
    ensures bus'' == MessageBus([Placed42, Placed43, Placed44, Invoice42], true)
  {
    var router := ShopRouter();
    var handlers := FailingShopHandlers();
    var spawned, outcome;
    bus', routed, spawned, outcome := Dispatch(NewBus(), router, handlers, PlaceOrders, 10);
    assert NewBus().queue + [PlaceOrders] == [PlaceOrders];
    assert |routed| > 0;
    FifoRunRoutesEnqueued(router, handlers, [PlaceOrders], routed, 0);
    assert routed[..0] == [];
    assert Raises(router, handlers, routed[0]);
    assert routed == [PlaceOrders];
    LeftQueued(bus'.queue);
    var outcome2;
    bus'', later, spawned, outcome2 := Dispatch(bus', router, handlers, Invoice42, 10);
  }

  /** After routing only `PlaceOrders` with the failing handlers, the three events it
      dispatched are what is left queued. */
  lemma LeftQueued(queue: seq<Message>)
    requires [PlaceOrders] + queue
      == [PlaceOrders] + SpawnedBy(ShopRouter(), FailingShopHandlers(), [PlaceOrders])
    ensures queue == [Placed42, Placed43, Placed44]
  {
    var router, handlers := ShopRouter(), FailingShopHandlers();
    assert RouteRun(router, handlers, PlaceOrders).dispatched == [Placed42, Placed43, Placed44];
    SpawnedBySnoc(router, handlers, [], PlaceOrders);
    assert [] + [PlaceOrders] == [PlaceOrders];
    assert queue == ([PlaceOrders] + queue)[1..];
  }

  /** An event whose handler dispatches nothing is routed alone. */
  lemma LoneEventRun(event: Message)
    requires RouteRun(ShopRouter(), ShopHandlers(), event).dispatched == []
    ensures FifoRun(ShopRouter(), ShopHandlers(), [event], [event])
    ensures [event] == [event] + SpawnedBy(ShopRouter(), ShopHandlers(), [event])
  {
    var e0: seq<Message> := [];
    SpawnedBySnoc(ShopRouter(), ShopHandlers(), e0, event);
    FifoRunExtends(ShopRouter(), ShopHandlers(), [event], e0, event);
    assert e0 + [event] == [event];
  }

  /** The event for order 42 is followed by the invoice request its handler queues. */
  lemma Placed42Run()
    ensures FifoRun(ShopRouter(), ShopHandlers(), [Placed42], [Placed42, Invoice42])
    ensures [Placed42, Invoice42] == [Placed42] + SpawnedBy(ShopRouter(), ShopHandlers(), [Placed42, Invoice42])
  {
    var router, handlers := ShopRouter(), ShopHandlers();
    ShopRuns();
    LoneEventRun(Invoice42);
    var e0: seq<Message> := [];
    var e1 := e0 + [Placed42];
    SpawnedBySnoc(router, handlers, e0, Placed42);
    SpawnedBySnoc(router, handlers, e1, Invoice42);
    FifoRunExtends(router, handlers, [Placed42], e0, Placed42);
    FifoRunExtends(router, handlers, [Placed42], e1, Invoice42);
    assert e1 + [Invoice42] == [Placed42, Invoice42];
  }

  /** What routing each of the scenario's messages does. */
  lemma ShopRuns()
    ensures RouteRun(ShopRouter(), ShopHandlers(), PlaceOrders).dispatched == [Placed42, Placed43, Placed44]
    ensures RouteRun(ShopRouter(), ShopHandlers(), Placed42).dispatched == [Invoice42]
    ensures RouteRun(ShopRouter(), ShopHandlers(), Placed43).dispatched == []
    ensures RouteRun(ShopRouter(), ShopHandlers(), Placed44).dispatched == []
    ensures RouteRun(ShopRouter(), ShopHandlers(), Invoice42).dispatched == []
  {
    assert Placed43.identifier != Placed42.identifier;
    assert Placed44.identifier != Placed42.identifier;
  }

  /** For each of the scenario's events, the expected order is a FIFO run that drains the
      queue. */
  lemma ExpectedIsCompleteRun(event: Message)
    requires event == PlaceOrders || event == Placed42 || event == Placed43 || event == Placed44
    ensures FifoRun(ShopRouter(), ShopHandlers(), [event], ExpectedRun(event))
    ensures ExpectedRun(event) == [event] + SpawnedBy(ShopRouter(), ShopHandlers(), ExpectedRun(event))
    ensures |ExpectedRun(event)| < 10
  {
    ShopRuns();
    if event == PlaceOrders {
      PlaceOrdersRun();
    } else if event == Placed42 {
      Placed42Run();
    } else {
      LoneEventRun(event);
    }
  }

  /** Placing orders routes the three events, then the invoice request. */
  lemma PlaceOrdersRun()
    ensures FifoRun(ShopRouter(), ShopHandlers(), [PlaceOrders],
                    [PlaceOrders, Placed42, Placed43, Placed44, Invoice42])
    ensures [PlaceOrders, Placed42, Placed43, Placed44, Invoice42]
      == [PlaceOrders] + SpawnedBy(ShopRouter(), ShopHandlers(),
                                   [PlaceOrders, Placed42, Placed43, Placed44, Invoice42])
  {
    var router, handlers := ShopRouter(), ShopHandlers();
    var pending := [PlaceOrders];
    ShopRuns();
    var e0: seq<Message> := [];
    var e1 := e0 + [PlaceOrders];
    var e2 := e1 + [Placed42];
    var e3 := e2 + [Placed43];
    var e4 := e3 + [Placed44];
    var e5 := e4 + [Invoice42];
    SpawnedBySnoc(router, handlers, e0, PlaceOrders);
    SpawnedBySnoc(router, handlers, e1, Placed42);
    SpawnedBySnoc(router, handlers, e2, Placed43);
    SpawnedBySnoc(router, handlers, e3, Placed44);
    SpawnedBySnoc(router, handlers, e4, Invoice42);
    assert SpawnedBy(router, handlers, e4) == [Placed42, Placed43, Placed44, Invoice42];
    FifoRunExtends(router, handlers, pending, e0, PlaceOrders);
    FifoRunExtends(router, handlers, pending, e1, Placed42);
    FifoRunExtends(router, handlers, pending, e2, Placed43);
    FifoRunExtends(router, handlers, pending, e3, Placed44);
    FifoRunExtends(router, handlers, pending, e4, Invoice42);
    assert e5 == [PlaceOrders, Placed42, Placed43, Placed44, Invoice42];
  }
}
