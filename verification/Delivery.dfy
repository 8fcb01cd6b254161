/** The bounded, non-blocking delivery queue between the connection task and the
    consumer (`deliver` and `emit` in `src/ws/typed.rs`, `deliver` in `src/ws.rs`).

    A delivery is two separate `try_send`s, so the consumer may act between them;
    `pause` is what it does there. `frame` on a queued message is the number of
    frames this connection decoded before it: the model's label, used to say
    which frame an item is. */
module Delivery {

  datatype Item<T> = Message(frame: nat, body: T) | Lagged(count: nat) | Failure

  datatype ConsumerAct = Take | Hangup

  /** `queue` waits for the consumer and `taken` is what it has received. `start`
      counts the items already handed over when the current connection began.
      `decoded` counts this connection's frames; `total` and `residue` count, over
      all connections, the frames decoded and the drops a finished connection
      never reported. */
  datatype Outlet<T> = Outlet(
    capacity: nat, queue: seq<Item<T>>, taken: seq<Item<T>>, open: bool,
    dropped: nat, delivered: bool,
    start: nat, decoded: nat, total: nat, residue: nat)

  function History<T>(o: Outlet<T>): seq<Item<T>> { o.taken + o.queue }

  predicate Full<T>(o: Outlet<T>) { |o.queue| >= o.capacity }

  function Enqueue<T>(o: Outlet<T>, item: Item<T>): Outlet<T> { o.(queue := o.queue + [item]) }

  function Consume<T>(o: Outlet<T>, act: ConsumerAct): Outlet<T> {
    if act.Hangup? then o.(open := false)
    else if o.queue == [] then o
    else o.(taken := o.taken + [o.queue[0]], queue := o.queue[1..])
  }

  function ConsumeAll<T>(o: Outlet<T>, acts: seq<ConsumerAct>): Outlet<T>
    decreases |acts|
  {
    if acts == [] then o else ConsumeAll(Consume(o, acts[0]), acts[1..])
  }

  /** First `try_send`: report a pending gap if there is room. */
  function Flush<T>(o: Outlet<T>): Outlet<T> {
    if o.dropped > 0 && o.open && !Full(o) then Enqueue(o, Lagged(o.dropped)).(dropped := 0) else o
  }

  /** Second `try_send`: hand the frame over, or count it as dropped. */
  function Push<T>(o: Outlet<T>, body: T): Outlet<T> {
    var counted := o.(decoded := o.decoded + 1, total := o.total + 1);
    if Full(o) then counted.(dropped := o.dropped + 1)
    else Enqueue(counted, Message(o.decoded, body)).(delivered := true)
  }

  /** Whether the consumer is found gone: at the flush (only tried when a gap is
      pending) or at the push. */
  predicate Gone<T>(o: Outlet<T>, pause: seq<ConsumerAct>) {
    || (o.dropped > 0 && !o.open)
    || !ConsumeAll(Flush(o), pause).open
  }

  function Deliver<T>(o: Outlet<T>, body: T, pause: seq<ConsumerAct>): Outlet<T> {
    if o.dropped > 0 && !o.open then o
    else
      var mid := ConsumeAll(Flush(o), pause);
      if mid.open then Push(mid, body) else mid
  }

  /** A surfaced error: dropped, uncounted, when there is no room. */
  function Emit<T>(o: Outlet<T>): Outlet<T> {
    if o.open && !Full(o) then Enqueue(o, Failure) else o
  }

  /** The two `try_send`s of a delivery, the consumer acting in between. */
  method TryDeliver<T>(o: Outlet<T>, body: T, pause: seq<ConsumerAct>) returns (outlet: Outlet<T>, gone: bool)
    ensures outlet == Deliver(o, body, pause) && gone == Gone(o, pause)
  {
    outlet := o;
    if outlet.dropped > 0 {
      if !outlet.open {
        return outlet, true;
      }
      if !Full(outlet) {
        outlet := Enqueue(outlet, Lagged(outlet.dropped)).(dropped := 0);
      }
    }
    outlet := ConsumeAll(outlet, pause);
    if !outlet.open {
      return outlet, true;
    }
    var frame := outlet.decoded;
    outlet := outlet.(decoded := outlet.decoded + 1, total := outlet.total + 1);
    if Full(outlet) {
      outlet := outlet.(dropped := outlet.dropped + 1);
    } else {
      outlet := Enqueue(outlet, Message(frame, body)).(delivered := true);
    }
    gone := false;
  }

  /** A new connection starts with its own drop count. */
  function BeginConnection<T>(o: Outlet<T>): Outlet<T> {
    o.(dropped := 0, delivered := false, start := |History(o)|, decoded := 0,
       residue := o.residue + o.dropped)
  }

  datatype Happening<T> = Frame(body: T, pause: seq<ConsumerAct>) | Consumer(act: ConsumerAct) | Surfaced | Connected

  function Happen<T>(o: Outlet<T>, h: Happening<T>): Outlet<T> {
    match h
    case Frame(body, pause) => Deliver(o, body, pause)
    case Consumer(act) => Consume(o, act)
    case Surfaced => Emit(o)
    case Connected => BeginConnection(o)
  }

  function Play<T>(o: Outlet<T>, events: seq<Happening<T>>): Outlet<T>
    decreases |events|
  {
    if events == [] then o else Play(Happen(o, events[0]), events[1..])
  }

  function Opened<T>(capacity: nat): Outlet<T> {
    Outlet(capacity, [], [], true, 0, false, 0, 0, 0, 0)
  }

  /** Frames an item stands for. */
  function Frames<T>(item: Item<T>): nat {
    match item
    case Message(_, _) => 1
    case Lagged(count) => count
    case Failure => 0
  }

  function Weight<T>(items: seq<Item<T>>): nat {
    if items == [] then 0 else Weight(items[..|items| - 1]) + Frames(items[|items| - 1])
  }

  /** Every frame of every connection is queued or received, reported in a lag
      marker, pending, or in a finished connection's unreported residue. */
  ghost predicate Conserved<T>(o: Outlet<T>) {
    && Weight(History(o)) + o.dropped + o.residue == o.total
    && forall i :: 0 <= i < |History(o)| && History(o)[i].Lagged? ==> History(o)[i].count > 0
  }

  ghost predicate ConnectionConserved<T>(o: Outlet<T>) {
    && o.start <= |History(o)|
    && Weight(History(o)[o.start..]) + o.dropped == o.decoded
  }

  /** Ahead of every message of this connection, messages and lag counts add up
      to exactly the frames that preceded it. */
  ghost predicate Aligned<T>(o: Outlet<T>) {
    && ConnectionConserved(o)
    && forall i :: o.start <= i < |History(o)| ==> InPosition(History(o), o.start, i)
  }

  predicate InPosition<T>(h: seq<Item<T>>, start: nat, i: nat)
    requires start <= i < |h|
  {
    h[i].Message? ==> Weight(h[start..i]) == h[i].frame
  }

  lemma WeightSnoc<T>(items: seq<Item<T>>, item: Item<T>)
    ensures Weight(items + [item]) == Weight(items) + Frames(item)
  {
    assert (items + [item])[..|items|] == items;
  }

  /** Taking an item moves it from the queue to the received list: nothing else
      about the outlet's accounts changes. */
  lemma {:induction false} ConsumingKeepsHistory<T>(o: Outlet<T>, acts: seq<ConsumerAct>)
    ensures var o' := ConsumeAll(o, acts);
            History(o') == History(o) && o'.(queue := o.queue, taken := o.taken, open := o.open) == o
            && |o'.queue| <= |o.queue|
    decreases |acts|
  {
    if acts != [] {
      var o1 := Consume(o, acts[0]);
      assert History(o1) == History(o);
      ConsumingKeepsHistory(o1, acts[1..]);
    }
  }

  /** The accounts are about the history, not about who holds it. */
  lemma ConsumingKeepsAccounts<T>(o: Outlet<T>, acts: seq<ConsumerAct>)
    ensures Conserved(ConsumeAll(o, acts)) <==> Conserved(o)
    ensures ConnectionConserved(ConsumeAll(o, acts)) <==> ConnectionConserved(o)
    ensures Aligned(ConsumeAll(o, acts)) <==> Aligned(o)
  {
    ConsumingKeepsHistory(o, acts);
  }

  lemma EnqueueAccounts<T>(o: Outlet<T>, item: Item<T>)
    requires o.start <= |History(o)|
    ensures var h := History(Enqueue(o, item));
            h == History(o) + [item]
            && Weight(h) == Weight(History(o)) + Frames(item)
            && Weight(h[o.start..]) == Weight(History(o)[o.start..]) + Frames(item)
  {
    var h := History(o);
    assert History(Enqueue(o, item)) == h + [item];
    WeightSnoc(h, item);
    WeightSnoc(h[o.start..], item);
    assert (h + [item])[o.start..] == h[o.start..] + [item];
  }

  lemma EnqueueKeepsPositions<T>(o: Outlet<T>, item: Item<T>)
    requires o.start <= |History(o)|
    ensures var h, h' := History(o), History(Enqueue(o, item));
            |h'| == |h| + 1
            && forall i :: o.start <= i < |h| ==> (InPosition(h', o.start, i) <==> InPosition(h, o.start, i))
  {
    var h, h' := History(o), History(Enqueue(o, item));
    assert h' == h + [item];
    forall i | o.start <= i < |h|
      ensures InPosition(h', o.start, i) <==> InPosition(h, o.start, i)
    {
      assert h'[o.start..i] == h[o.start..i];
    }
  }

  /** Both halves of a delivery, one at a time. */
  lemma FlushConserves<T>(o: Outlet<T>)
    requires Conserved(o) && ConnectionConserved(o)
    ensures Conserved(Flush(o)) && ConnectionConserved(Flush(o))
  {
    var item: Item<T> := Lagged(o.dropped);
    EnqueueAccounts(o, item);
    if o.dropped > 0 { LaggedStayPositive(History(o), item); }
  }

  lemma LaggedStayPositive<T>(h: seq<Item<T>>, item: Item<T>)
    requires forall i :: 0 <= i < |h| && h[i].Lagged? ==> h[i].count > 0
    requires item.Lagged? ==> item.count > 0
    ensures var h' := h + [item]; forall i :: 0 <= i < |h'| && h'[i].Lagged? ==> h'[i].count > 0
  {
  }

  lemma FlushAligns<T>(o: Outlet<T>)
    requires Conserved(o) && Aligned(o)
    ensures Aligned(Flush(o))
  {
    FlushConserves(o);
    EnqueueKeepsPositions(o, Lagged(o.dropped));
    assert History(Enqueue(o, Lagged(o.dropped))) == History(o) + [Lagged(o.dropped)];
  }

  lemma PushConserves<T>(o: Outlet<T>, body: T)
    requires Conserved(o) && ConnectionConserved(o)
    ensures Conserved(Push(o, body)) && ConnectionConserved(Push(o, body))
  {
    var item := Message(o.decoded, body);
    EnqueueAccounts(o, item);
    LaggedStayPositive(History(o), item);
    assert History(Push(o, body)) == if Full(o) then History(o) else History(o) + [item];
  }

  lemma PushAligns<T>(o: Outlet<T>, body: T)
    requires Aligned(o)
    ensures ConnectionConserved(Push(o, body)) ==> (Aligned(Push(o, body)) <==> Full(o) || o.dropped == 0)
  {
    var h, h' := History(o), History(Push(o, body));
    if Full(o) {
      assert h' == h;
    } else {
      EnqueueKeepsPositions(o, Message(o.decoded, body));
      assert h' == h + [Message(o.decoded, body)];
      assert h'[o.start..|h|] == h[o.start..];
      assert InPosition(h', o.start, |h|) <==> o.dropped == 0;
    }
  }

  lemma DeliverConserves<T>(o: Outlet<T>, body: T, pause: seq<ConsumerAct>)
    requires Conserved(o) && ConnectionConserved(o)
    ensures var o' := Deliver(o, body, pause); Conserved(o') && ConnectionConserved(o')
    ensures Deliver(o, body, pause).total == o.total + (if Gone(o, pause) then 0 else 1)
  {
    FlushConserves(o);
    ConsumingKeepsAccounts(Flush(o), pause);
    ConsumingKeepsHistory(Flush(o), pause);
    PushConserves(ConsumeAll(Flush(o), pause), body);
  }

  lemma HappeningConserves<T>(o: Outlet<T>, h: Happening<T>)
    requires Conserved(o) && ConnectionConserved(o)
    ensures Conserved(Happen(o, h)) && ConnectionConserved(Happen(o, h))
  {
    match h {
      case Frame(body, pause) => DeliverConserves(o, body, pause);
      case Consumer(act) => assert ConsumeAll(o, [act]) == Consume(o, act); ConsumingKeepsAccounts(o, [act]);
      case Surfaced => EnqueueAccounts(o, Failure);
      case Connected => assert History(BeginConnection(o)) == History(o);
    }
  }

  // ----- what resets the back-off -------------------------------------------------------------

  ghost predicate HandedOver<T>(h: seq<Item<T>>, start: nat) { exists i :: start <= i < |h| && h[i].Message? }

  /** The flag of a connection is set exactly when it handed over a message. */
  ghost predicate Flagged<T>(o: Outlet<T>) {
    o.start <= |History(o)| && (o.delivered <==> HandedOver(History(o), o.start))
  }

  lemma EnqueueAndTheFlag<T>(o: Outlet<T>, item: Item<T>)
    requires o.start <= |History(o)|
    ensures HandedOver(History(Enqueue(o, item)), o.start) <==> HandedOver(History(o), o.start) || item.Message?
  {
    var h, h' := History(o), History(Enqueue(o, item));
    assert h' == h + [item];
    if i :| o.start <= i < |h| && h[i].Message? { assert h'[i].Message?; }
    if item.Message? { assert h'[|h|].Message?; }
  }

  lemma DeliverKeepsFlag<T>(o: Outlet<T>, body: T, pause: seq<ConsumerAct>)
    requires Flagged(o)
    ensures Flagged(Deliver(o, body, pause))
  {
    EnqueueAndTheFlag(o, Lagged(o.dropped));
    ConsumingKeepsHistory(Flush(o), pause);
    var mid := ConsumeAll(Flush(o), pause);
    EnqueueAndTheFlag(mid, Message(mid.decoded, body));
    var pushed := Enqueue(mid, Message(mid.decoded, body));
    assert History(Push(mid, body)) == History(if Full(mid) then mid else pushed);
  }

  lemma HappeningKeepsFlag<T>(o: Outlet<T>, h: Happening<T>)
    requires Flagged(o)
    ensures Flagged(Happen(o, h))
  {
    match h {
      case Frame(body, pause) => DeliverKeepsFlag(o, body, pause);
      case Consumer(act) => assert ConsumeAll(o, [act]) == Consume(o, act); ConsumingKeepsHistory(o, [act]);
      case Surfaced => EnqueueAndTheFlag(o, Failure);
      case Connected => assert History(BeginConnection(o)) == History(o);
    }
  }

  /** Everything the accounts of an outlet promise. */
  ghost predicate Sound<T>(o: Outlet<T>) { Conserved(o) && ConnectionConserved(o) && Flagged(o) }

  lemma HappeningIsSound<T>(o: Outlet<T>, h: Happening<T>)
    requires Sound(o)
    ensures Sound(Happen(o, h))
    ensures Happen(o, h).start == if h.Connected? then |History(o)| else o.start
  {
    if h.Frame? { ConsumingKeepsHistory(Flush(o), h.pause); }
    HappeningConserves(o, h);
    HappeningKeepsFlag(o, h);
  }

  lemma ConsumingIsSound<T>(o: Outlet<T>, acts: seq<ConsumerAct>)
    requires Sound(o)
    ensures Sound(ConsumeAll(o, acts))
  {
    ConsumingKeepsAccounts(o, acts);
    ConsumingKeepsHistory(o, acts);
  }

  /** Under every interleaving of deliveries, consumer reads and hang-ups,
      surfaced errors and reconnects, no frame goes unaccounted for. */
  lemma {:induction false} LagAccounting<T>(o: Outlet<T>, events: seq<Happening<T>>)
    requires Conserved(o) && ConnectionConserved(o)
    ensures Conserved(Play(o, events)) && ConnectionConserved(Play(o, events))
    decreases |events|
  {
    if events != [] {
      HappeningConserves(o, events[0]);
      LagAccounting(Happen(o, events[0]), events[1..]);
    }
  }

  /** From a fresh channel: received + queued + reported + pending + residue. */
  lemma EveryFrameIsAccountedFor<T>(capacity: nat, events: seq<Happening<T>>)
    ensures var o := Play(Opened(capacity), events);
            Weight(o.taken) + Weight(o.queue) + o.dropped + o.residue == o.total
  {
    var o: Outlet<T> := Opened(capacity);
    LagAccounting(o, events);
    WeightAppend(Play(o, events).taken, Play(o, events).queue);
  }

  lemma {:induction false} WeightAppend<T>(a: seq<Item<T>>, b: seq<Item<T>>)
    ensures Weight(a + b) == Weight(a) + Weight(b)
  {
    if b == [] {
      assert a + b == a;
    } else {
      var n := |b| - 1;
      assert a + b == (a + b[..n]) + [b[n]];
      WeightSnoc(a + b[..n], b[n]);
      WeightAppend(a, b[..n]);
    }
  }

  /** The one way a delivery goes out of position: a gap was pending, its marker
      found no room, and the consumer made room before the frame was tried. */
  predicate Overtakes<T>(o: Outlet<T>, pause: seq<ConsumerAct>) {
    o.dropped > 0 && Full(o) && !Full(ConsumeAll(o, pause))
  }

  /** Position is kept by a delivery exactly when the frame does not overtake its
      own lag marker. When it does, it sits `dropped` places too early. */
  lemma DeliveryKeepsPositionUnlessItOvertakes<T>(o: Outlet<T>, body: T, pause: seq<ConsumerAct>)
    requires Conserved(o) && Aligned(o) && !Gone(o, pause)
    ensures Aligned(Deliver(o, body, pause)) <==> !Overtakes(o, pause)
    ensures Overtakes(o, pause) ==>
              var h := History(Deliver(o, body, pause));
              var last := |h| - 1;
              |h| == |History(o)| + 1 && h[last] == Message(o.decoded, body)
              && Weight(h[o.start..last]) + o.dropped == o.decoded
  {
    var mid := ConsumeAll(Flush(o), pause);
    FlushConserves(o);
    FlushAligns(o);
    ConsumingKeepsAccounts(Flush(o), pause);
    ConsumingKeepsHistory(Flush(o), pause);
    PushConserves(mid, body);
    PushAligns(mid, body);
    if Overtakes(o, pause) {
      var h := History(mid);
      assert Flush(o) == o && h == History(o);
      assert History(Deliver(o, body, pause)) == h + [Message(o.decoded, body)];
      assert (h + [Message(o.decoded, body)])[o.start..|h|] == h[o.start..];
    }
  }

  /** With every delivery atomic (no consumer act inside it), every delivered
      frame's number equals the messages plus lag counts ahead of it. */
  lemma {:induction false} AtomicDeliveriesStayInOrder<T>(o: Outlet<T>, events: seq<Happening<T>>)
    requires Conserved(o) && Aligned(o)
    requires forall i :: 0 <= i < |events| && events[i].Frame? ==> events[i].pause == []
    ensures Aligned(Play(o, events))
    decreases |events|
  {
    if events != [] {
      AtomicStepStaysInOrder(o, events[0]);
      AtomicDeliveriesStayInOrder(Happen(o, events[0]), events[1..]);
    }
  }

  lemma AtomicFrameStaysInOrder<T>(o: Outlet<T>, body: T)
    requires Conserved(o) && Aligned(o)
    ensures Aligned(Deliver(o, body, []))
  {
    assert ConsumeAll(o, []) == o && ConsumeAll(Flush(o), []) == Flush(o);
    if !Gone(o, []) {
      DeliveryKeepsPositionUnlessItOvertakes(o, body, []);
      assert !Overtakes(o, []);
    } else {
      FlushAligns(o);
      assert Deliver(o, body, []) in {o, Flush(o)};
    }
  }

  lemma SurfacedStaysInOrder<T>(o: Outlet<T>)
    requires Aligned(o)
    ensures Aligned(Emit(o))
  {
    EnqueueKeepsPositions(o, Failure);
    EnqueueAccounts(o, Failure);
    assert History(Enqueue(o, Failure)) == History(o) + [Failure];
  }

  lemma ConnectingStartsInOrder<T>(o: Outlet<T>)
    ensures Aligned(BeginConnection(o))
  {
    assert History(BeginConnection(o)) == History(o);
  }

  lemma AtomicStepStaysInOrder<T>(o: Outlet<T>, h: Happening<T>)
    requires Conserved(o) && Aligned(o)
    requires h.Frame? ==> h.pause == []
    ensures Conserved(Happen(o, h)) && Aligned(Happen(o, h))
  {
    HappeningConserves(o, h);
    match h {
      case Frame(body, pause) => AtomicFrameStaysInOrder(o, body);
      case Consumer(act) => assert ConsumeAll(o, [act]) == Consume(o, act); ConsumingKeepsAccounts(o, [act]);
      case Surfaced => SurfacedStaysInOrder(o);
      case Connected => ConnectingStartsInOrder(o);
    }
  }

  /** The documented order can fail: capacity 1, frames 0 and 1 (1 is dropped),
      then frame 2 finds the queue full for its marker, the consumer reads, and
      frame 2 goes in ahead of the marker that reports frame 1. */
  lemma AMessageCanPrecedeItsLagMarker<T>(a: T, b: T, c: T)
    ensures var o := Play(Opened(1), [Frame(a, []), Frame(b, []), Frame(c, [Take])]);
            o.taken == [Message(0, a)] && o.queue == [Message(2, c)] && o.dropped == 1 && !Aligned(o)
  {
    var o0: Outlet<T> := Opened(1);
    var o1 := Deliver(o0, a, []);
    var o2 := Deliver(o1, b, []);
    var o3 := Deliver(o2, c, [Take]);
    var script := [Frame(a, []), Frame(b, []), Frame(c, [Take])];
    assert script[1..] == [Frame(b, []), Frame(c, [Take])];
    assert script[1..][1..] == [Frame(c, [Take])];
    assert Play(o0, script) == Play(o1, script[1..]) == Play(o2, script[1..][1..]) == Play(o3, []);
    assert ConsumeAll(o2, [Take]) == Consume(o2, Take);
    assert !InPosition(History(o3), 0, 1) by {
      WeightSnoc<T>([], Message(0, a));
      assert History(o3)[0..1] == [] + [Message(0, a)];
    }
  }
}
