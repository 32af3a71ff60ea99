/** The `AbstractMessageBus`: a FIFO dispatch queue with a `dispatching` flag, so that only
    the outermost `dispatch` drains the queue and a `dispatch` made by a handler while the
    queue drains only appends. */
module Bus {
  import opened Wrappers
  import opened Messages
  import opened Router

  /** The bus's state: `$messageDispatchQueue` and `$dispatching`. */
  datatype MessageBus = MessageBus(queue: seq<Message>, dispatching: bool)

  /** How a `dispatch` call ended: `Enqueued` when the bus was already draining and the
      message was only appended; `Drained` when this call emptied the queue and cleared the
      flag; `Raised` when a routed handler threw, the exception leaving `dispatch` with the flag
      still set; `OutOfFuel` when the model's step bound ran out with messages still queued. */
  datatype DispatchOutcome = Enqueued | Drained | Raised | OutOfFuel

  /** A bus as constructed: empty queue, not dispatching. */
  function NewBus(): (bus: MessageBus)
    ensures bus.queue == [] && !bus.dispatching
  {
    MessageBus([], false)
  }

  /** Whether routing `m` ends in an exception. */
  predicate Raises(router: MessageRouter, handlers: Handlers, m: Message)
  {
    RouteRun(router, handlers, m).raised
  }

  /** Of the messages `routed`, only the last one's routing threw, and it did exactly when
      `raised`. */
  predicate ThrowsOnlyLast(router: MessageRouter, handlers: Handlers, routed: seq<Message>, raised: bool)
  {
    forall i :: 0 <= i < |routed| ==> (Raises(router, handlers, routed[i]) <==> raised && i == |routed| - 1)
  }

  /** Everything the handlers dispatch while `routed` is routed, in order. */
  function SpawnedBy(router: MessageRouter, handlers: Handlers, routed: seq<Message>): (spawned: seq<Message>)
    decreases |routed|
  {
    if routed == [] then []
    else SpawnedBy(router, handlers, routed[..|routed| - 1])
         + RouteRun(router, handlers, routed[|routed| - 1]).dispatched
  }

  /** FIFO routing from an initial queue `pending`: each routed message is the next one ever
      enqueued, and it had been enqueued (by `pending` or by the handlers of the messages
      routed before it) by the time it was routed. */
  predicate FifoRun(router: MessageRouter, handlers: Handlers, pending: seq<Message>, routed: seq<Message>)
    decreases |routed|
  {
    routed == [] ||
      var before := routed[..|routed| - 1];
      && FifoRun(router, handlers, pending, before)
      && |before| < |pending + SpawnedBy(router, handlers, before)|
      && routed[|before|] == (pending + SpawnedBy(router, handlers, before))[|before|]
  }

  /** What the drain loop keeps true, and what `Dispatch` and `Drain` promise on return: the
      messages routed so far followed by the queue are the initial queue `pending` followed
      by everything the handlers dispatched, and the routing so far is FIFO. */
  predicate QueueAccounting(router: MessageRouter, handlers: Handlers, pending: seq<Message>,
                           routed: seq<Message>, queue: seq<Message>, spawned: seq<Message>)
  {
    && routed + queue == pending + spawned
    && spawned == SpawnedBy(router, handlers, routed)
    && FifoRun(router, handlers, pending, routed)
  }

  /** `dispatch`: append `message`; unless already dispatching, drain the queue. A handler's
      own `dispatch` calls go through this same method while the flag is set. `fuel` bounds the
      number of messages routed, since nothing bounds how many messages handlers dispatch.
      Besides the new state, it returns the messages this call routed and those the handlers
      dispatched meanwhile. */
  method Dispatch(bus: MessageBus, router: MessageRouter, handlers: Handlers, message: Message, fuel: nat)
    returns (bus': MessageBus, routed: seq<Message>, spawned: seq<Message>, outcome: DispatchOutcome)
    decreases fuel, if bus.dispatching then 0 else 3
    ensures QueueAccounting(router, handlers, bus.queue + [message], routed, bus'.queue, spawned)
    ensures bus.dispatching <==> outcome.Enqueued?
    ensures bus.dispatching ==> bus' == MessageBus(bus.queue + [message], true) && routed == []
    ensures outcome.Drained? ==> bus'.queue == [] && !bus'.dispatching
    ensures !outcome.Drained? ==> bus'.dispatching
    ensures outcome.Raised? ==> |routed| > 0
    ensures ThrowsOnlyLast(router, handlers, routed, outcome.Raised?)
    ensures outcome.OutOfFuel? ==> |routed| == fuel && bus'.queue != []
  {
    if bus.dispatching {
      bus', routed, spawned, outcome := MessageBus(bus.queue + [message], true), [], [], Enqueued;
      assert FifoRun(router, handlers, bus.queue + [message], routed);
    } else {
      bus', routed, spawned, outcome := Drain(MessageBus(bus.queue + [message], true), router, handlers, fuel);
    }
  }

  /** The drain loop of `dispatch`, entered with the flag set: route the head of the queue
      until the queue is empty, then clear the flag. If a handler throws, the exception leaves
      the loop and the flag stays set, as nothing resets it on that path. */
  method Drain(bus: MessageBus, router: MessageRouter, handlers: Handlers, fuel: nat)
    returns (bus': MessageBus, routed: seq<Message>, spawned: seq<Message>, outcome: DispatchOutcome)
    requires bus.dispatching
    decreases fuel, 2
    ensures QueueAccounting(router, handlers, bus.queue, routed, bus'.queue, spawned)
    ensures !outcome.Enqueued?
    ensures outcome.Drained? ==> bus'.queue == [] && !bus'.dispatching
    ensures !outcome.Drained? ==> bus'.dispatching
    ensures outcome.Raised? ==> |routed| > 0
    ensures ThrowsOnlyLast(router, handlers, routed, outcome.Raised?)
    ensures outcome.OutOfFuel? ==> |routed| == fuel && bus'.queue != []
  {
    bus' := bus;
    routed := [];
    spawned := [];
    while bus'.queue != [] && |routed| < fuel
      invariant bus'.dispatching
      invariant |routed| <= fuel
      invariant QueueAccounting(router, handlers, bus.queue, routed, bus'.queue, spawned)
      invariant ThrowsOnlyLast(router, handlers, routed, false)
      decreases fuel - |routed|
    {
      var head := bus'.queue[0];
      var run := RouteRun(router, handlers, head);
      RouteHeadStep(router, handlers, bus.queue, routed, bus'.queue, spawned);
      bus' := RedispatchAll(bus'.(queue := bus'.queue[1..]), router, handlers, run.dispatched, fuel);
      routed := routed + [head];
      spawned := spawned + run.dispatched;
      if run.raised {
        outcome := Raised;
        return;
      }
    }
    if bus'.queue == [] {
      bus' := bus'.(dispatching := false);
      outcome := Drained;
    } else {
      outcome := OutOfFuel;
    }
  }

  /** Routing the head of the queue, and appending what its handler dispatches, keeps the
      drain invariant. */
  lemma RouteHeadStep(router: MessageRouter, handlers: Handlers, pending: seq<Message>,
                  routed: seq<Message>, queue: seq<Message>, spawned: seq<Message>)
    requires QueueAccounting(router, handlers, pending, routed, queue, spawned)
    requires queue != []
    ensures QueueAccounting(router, handlers, pending, routed + [queue[0]],
                           queue[1..] + RouteRun(router, handlers, queue[0]).dispatched,
                           spawned + RouteRun(router, handlers, queue[0]).dispatched)
  {
    var head := queue[0];
    assert (routed + queue)[|routed|] == head;
    FifoRunExtends(router, handlers, pending, routed, head);
    SpawnedBySnoc(router, handlers, routed, head);
    var d := RouteRun(router, handlers, head).dispatched;
    assert routed + [head] + queue[1..] == routed + queue;
    calc {
      (routed + [head]) + (queue[1..] + d);
      (routed + [head] + queue[1..]) + d;
      (pending + spawned) + d;
      pending + (spawned + d);
    }
  }

  /** The `dispatch` calls a handler makes while the bus drains, one per message, in order:
      each of them only appends. */
  method RedispatchAll(bus: MessageBus, router: MessageRouter, handlers: Handlers,
                       messages: seq<Message>, fuel: nat)
    returns (bus': MessageBus)
    requires bus.dispatching
    decreases fuel, 1
    ensures bus' == MessageBus(bus.queue + messages, true)
  {
    bus' := bus;
    var k := 0;
    while k < |messages|
      invariant 0 <= k <= |messages|
      invariant bus' == MessageBus(bus.queue + messages[..k], true)
    {
      var next, _, _, _ := Dispatch(bus', router, handlers, messages[k], fuel);
      assert messages[..k + 1] == messages[..k] + [messages[k]];
      bus' := next;
      k := k + 1;
    }
    assert messages[..k] == messages;
  }

  /** Routing one more message adds exactly what its handler dispatched. */
  lemma SpawnedBySnoc(router: MessageRouter, handlers: Handlers, routed: seq<Message>, m: Message)
    ensures SpawnedBy(router, handlers, routed + [m])
      == SpawnedBy(router, handlers, routed) + RouteRun(router, handlers, m).dispatched
  {
    assert (routed + [m])[..|routed|] == routed;
  }

  /** Routing the head of the current queue keeps a run FIFO. */
  lemma FifoRunExtends(router: MessageRouter, handlers: Handlers, pending: seq<Message>,
                       routed: seq<Message>, head: Message)
    requires FifoRun(router, handlers, pending, routed)
    requires |routed| < |pending + SpawnedBy(router, handlers, routed)|
    requires head == (pending + SpawnedBy(router, handlers, routed))[|routed|]
    ensures FifoRun(router, handlers, pending, routed + [head])
  {
    assert (routed + [head])[..|routed|] == routed;
  }

  /** A prefix of a FIFO run is a FIFO run. */
  lemma {:induction false} FifoRunPrefix(router: MessageRouter, handlers: Handlers, pending: seq<Message>,
                                         routed: seq<Message>, k: nat)
    requires FifoRun(router, handlers, pending, routed)
    requires k <= |routed|
    ensures FifoRun(router, handlers, pending, routed[..k])
    decreases |routed|
  {
    if k < |routed| {
      var before := routed[..|routed| - 1];
      assert before[..k] == routed[..k];
      FifoRunPrefix(router, handlers, pending, before, k);
    } else {
      assert routed[..k] == routed;
    }
  }

  /** In a FIFO run, the k-th routed message had been enqueued before the k-th routing. */
  lemma FifoRunRoutesEnqueued(router: MessageRouter, handlers: Handlers, pending: seq<Message>,
                              routed: seq<Message>, k: nat)
    requires FifoRun(router, handlers, pending, routed)
    requires k < |routed|
    ensures k < |pending + SpawnedBy(router, handlers, routed[..k])|
    ensures routed[k] == (pending + SpawnedBy(router, handlers, routed[..k]))[k]
  {
    FifoRunPrefix(router, handlers, pending, routed, k + 1);
    assert routed[..k + 1][..k] == routed[..k];
  }

  /** FIFO routing leaves no choice: of two FIFO runs from the same queue, the shorter is a
      prefix of the longer. */
  lemma {:induction false} FifoRunsAgree(router: MessageRouter, handlers: Handlers, pending: seq<Message>,
                                         r1: seq<Message>, r2: seq<Message>)
    requires FifoRun(router, handlers, pending, r1)
    requires FifoRun(router, handlers, pending, r2)
    requires |r1| <= |r2|
    ensures r1 == r2[..|r1|]
    decreases |r1|
  {
    if r1 != [] {
      var n := |r1| - 1;
      FifoRunPrefix(router, handlers, pending, r2, |r1|);
      var p2 := r2[..|r1|];
      assert p2[..n] == r2[..n];
      FifoRunsAgree(router, handlers, pending, r1[..n], p2[..n]);
      assert r1[..n] == p2[..n];
      assert r1 == r1[..n] + [r1[n]];
      assert p2 == p2[..n] + [p2[n]];
    }
  }

  /** A FIFO run that drained its queue (everything enqueued was routed) is the longest FIFO
      run there is, and every other one is a prefix of it. */
  lemma {:induction false} CompleteRunIsMaximal(router: MessageRouter, handlers: Handlers, pending: seq<Message>,
                            drained: seq<Message>, other: seq<Message>)
    requires FifoRun(router, handlers, pending, drained)
    requires drained == pending + SpawnedBy(router, handlers, drained)
    requires FifoRun(router, handlers, pending, other)
    ensures |other| <= |drained|
    ensures other == drained[..|other|]
  {
    if |other| > |drained| {
      FifoRunRoutesEnqueued(router, handlers, pending, other, |drained|);
      FifoRunsAgree(router, handlers, pending, drained, other);
      assert false;
    } else {
      FifoRunsAgree(router, handlers, pending, other, drained);
    }
  }

  /** The order in which a completed drain routes messages is fully determined by the queue it
      started from and the handlers. */
  lemma CompleteRunIsUnique(router: MessageRouter, handlers: Handlers, pending: seq<Message>,
                           r1: seq<Message>, r2: seq<Message>)
    requires FifoRun(router, handlers, pending, r1) && r1 == pending + SpawnedBy(router, handlers, r1)
    requires FifoRun(router, handlers, pending, r2) && r2 == pending + SpawnedBy(router, handlers, r2)
    ensures r1 == r2
  {
    CompleteRunIsMaximal(router, handlers, pending, r1, r2);
    CompleteRunIsMaximal(router, handlers, pending, r2, r1);
  }
}
