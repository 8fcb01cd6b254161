/** What the consumer gets of the frames of a connection (`deliver` in
    `src/ws/typed.rs` and `src/ws.rs`): each message is the frame it says it is, and
    none is lost while there is room. */
module Handover {
  import opened Delivery

  // ----- a consumer that is gone -----------------------------------------------------------

  lemma {:induction false} OpenAfter<T>(o: Outlet<T>, acts: seq<ConsumerAct>)
    ensures ConsumeAll(o, acts).open <==> o.open && Hangup !in acts
    decreases |acts|
  {
    if acts != [] {
      OpenAfter(Consume(o, acts[0]), acts[1..]);
      assert acts == [acts[0]] + acts[1..];
    }
  }

  /** A delivery finds the consumer gone exactly when it has hung up before, or does so
      between the two sends. */
  lemma GoneIff<T>(o: Outlet<T>, pause: seq<ConsumerAct>)
    ensures Gone(o, pause) <==> !o.open || Hangup in pause
  {
    OpenAfter(Flush(o), pause);
  }

  /** Who is still there after an event. */
  predicate StaysOpen<T>(h: Happening<T>) {
    match h
    case Frame(_, pause) => Hangup !in pause
    case Consumer(act) => act.Take?
    case _ => true
  }

  lemma HappeningOpen<T>(o: Outlet<T>, h: Happening<T>)
    ensures Happen(o, h).open <==> o.open && StaysOpen(h)
  {
    if h.Frame? { OpenAfter(Flush(o), h.pause); }
  }

  // ----- whose frames the messages are --------------------------------------------------------

  /** The frames that found the consumer there. */
  function Heard<T>(open: bool, events: seq<Happening<T>>): seq<T>
    decreases |events|
  {
    if events == [] then []
    else
      var now := open && StaysOpen(events[0]);
      (if events[0].Frame? && now then [events[0].body] else []) + Heard(now, events[1..])
  }

  /** Every message of this connection is one of its frames, under its own number. */
  ghost predicate TheirFrames<T>(o: Outlet<T>, heard: seq<T>) {
    && o.decoded == |heard| && o.start <= |History(o)|
    && forall i :: o.start <= i < |History(o)| ==> ItsFrame(History(o)[i], heard)
  }

  ghost predicate ItsFrame<T>(item: Item<T>, heard: seq<T>) {
    item.Message? ==> item.frame < |heard| && item.body == heard[item.frame]
  }

  ghost predicate OneConnection<T>(events: seq<Happening<T>>) { forall h :: h in events ==> !h.Connected? }

  lemma AddingKeepsFrames<T>(o: Outlet<T>, item: Item<T>, heard: seq<T>, more: seq<T>)
    requires TheirFrames(o, heard) && ItsFrame(item, heard + more)
    ensures TheirFrames(Enqueue(o, item).(decoded := o.decoded + |more|), heard + more)
    ensures TheirFrames(o.(decoded := o.decoded + |more|), heard + more)
  {
    var h, h' := History(o), History(Enqueue(o, item));
    assert h' == h + [item];
    forall i | o.start <= i < |h'| ensures ItsFrame(h'[i], heard + more) {
      if i < |h| { assert ItsFrame(h[i], heard); }
    }
    forall i | o.start <= i < |h| ensures ItsFrame(h[i], heard + more) { assert ItsFrame(h[i], heard); }
  }

  lemma FlushKeepsFrames<T>(o: Outlet<T>, heard: seq<T>)
    requires TheirFrames(o, heard)
    ensures TheirFrames(Flush(o), heard)
  {
    AddingKeepsFrames(o, Lagged(o.dropped), heard, []);
    assert heard + [] == heard;
    var o1 := Enqueue(o, Lagged(o.dropped));
    assert History(o1.(dropped := 0)) == History(o1);
  }

  lemma DeliverKeepsFrames<T>(o: Outlet<T>, body: T, pause: seq<ConsumerAct>, heard: seq<T>)
    requires TheirFrames(o, heard)
    ensures TheirFrames(Deliver(o, body, pause), heard + if Gone(o, pause) then [] else [body])
  {
    FlushKeepsFrames(o, heard);
    var mid := ConsumeAll(Flush(o), pause);
    ConsumingKeepsHistory(Flush(o), pause);
    assert TheirFrames(mid, heard);
    assert heard + [] == heard;
    if !Gone(o, pause) {
      AddingKeepsFrames(mid, Message(mid.decoded, body), heard, [body]);
      PushIsCounted(mid, body);
    }
  }

  lemma PushIsCounted<T>(o: Outlet<T>, body: T)
    ensures Push(o, body).decoded == o.decoded + 1 && Push(o, body).start == o.start
    ensures History(Push(o, body)) == History(if Full(o) then o else Enqueue(o, Message(o.decoded, body)))
  {
  }

  lemma HappeningKeepsFrames<T>(o: Outlet<T>, h: Happening<T>, heard: seq<T>)
    requires TheirFrames(o, heard) && !h.Connected?
    ensures TheirFrames(Happen(o, h), heard + if h.Frame? && o.open && StaysOpen(h) then [h.body] else [])
  {
    assert heard + [] == heard;
    match h {
      case Frame(body, pause) =>
        GoneIff(o, pause);
        DeliverKeepsFrames(o, body, pause, heard);
      case Consumer(act) =>
        assert ConsumeAll(o, [act]) == Consume(o, act);
        ConsumingKeepsHistory(o, [act]);
      case Surfaced => AddingKeepsFrames(o, Failure, heard, []);
    }
  }

  lemma {:induction false} MessagesAreTheFrames<T>(o: Outlet<T>, events: seq<Happening<T>>, heard: seq<T>)
    requires TheirFrames(o, heard) && OneConnection(events)
    ensures TheirFrames(Play(o, events), heard + Heard(o.open, events))
    ensures Play(o, events).start == o.start
    decreases |events|
  {
    if events == [] {
      assert heard + [] == heard;
    } else {
      var h, o' := events[0], Happen(o, events[0]);
      assert h in events && !h.Connected?;
      var one := if h.Frame? && o.open && StaysOpen(h) then [h.body] else [];
      HappeningKeepsFrames(o, h, heard);
      HappeningOpen(o, h);
      StartStays(o, h);
      MessagesAreTheFrames(o', events[1..], heard + one);
      assert heard + one + Heard(o'.open, events[1..]) == heard + Heard(o.open, events);
    }
  }

  lemma StartStays<T>(o: Outlet<T>, h: Happening<T>)
    requires !h.Connected?
    ensures Happen(o, h).start == o.start
  {
    if h.Frame? { ConsumingKeepsHistory(Flush(o), h.pause); }
    if h.Consumer? {
      assert ConsumeAll(o, [h.act]) == Consume(o, h.act);
      ConsumingKeepsHistory(o, [h.act]);
    }
  }

  /** From a connection's beginning: the frame number of a message is its place among the
      frames that found the consumer there. */
  lemma ConnectionHandsOverItsFrames<T>(o: Outlet<T>, events: seq<Happening<T>>)
    requires OneConnection(events)
    ensures var o' := Play(BeginConnection(o), events);
            TheirFrames(o', Heard(o.open, events)) && o'.start == |History(o)|
  {
    assert History(BeginConnection(o)) == History(o);
    MessagesAreTheFrames(BeginConnection(o), events, []);
    assert [] + Heard(o.open, events) == Heard(o.open, events);
  }

  lemma {:induction false} PlayAppend<T>(o: Outlet<T>, a: seq<Happening<T>>, b: seq<Happening<T>>)
    ensures Play(o, a + b) == Play(Play(o, a), b)
    decreases |a|
  {
    if a == [] {
      assert a + b == b;
    } else {
      assert (a + b)[1..] == a[1..] + b;
      PlayAppend(Happen(o, a[0]), a[1..], b);
    }
  }

  // ----- a consumer that keeps up -----------------------------------------------------------------

  function MessagesIn<T>(items: seq<Item<T>>): seq<T> {
    if items == [] then []
    else
      var front, last := MessagesIn(items[..|items| - 1]), items[|items| - 1];
      if last.Message? then front + [last.body] else front
  }

  lemma MessagesSnoc<T>(items: seq<Item<T>>, item: Item<T>)
    ensures MessagesIn(items + [item]) == MessagesIn(items) + if item.Message? then [item.body] else []
  {
    assert (items + [item])[..|items|] == items;
  }

  /** The queue has room whenever a frame comes, and the consumer is there. */
  ghost predicate KeepsUp<T>(o: Outlet<T>, events: seq<Happening<T>>)
    decreases |events|
  {
    events == [] || (HasRoom(o, events[0]) && KeepsUp(Happen(o, events[0]), events[1..]))
  }

  predicate HasRoom<T>(o: Outlet<T>, h: Happening<T>) {
    h.Frame? ==> o.open && Hangup !in h.pause && !Full(ConsumeAll(o, h.pause))
  }

  lemma RoomMeansAMessage<T>(o: Outlet<T>, body: T, pause: seq<ConsumerAct>)
    requires o.dropped == 0 && HasRoom(o, Frame(body, pause))
    ensures var o' := Deliver(o, body, pause);
            o'.dropped == 0 && o'.residue == o.residue && MessagesIn(History(o')) == MessagesIn(History(o)) + [body]
  {
    var mid := ConsumeAll(o, pause);
    OpenAfter(o, pause);
    ConsumingKeepsHistory(o, pause);
    MessagesSnoc(History(o), Message(mid.decoded, body));
    assert History(Push(mid, body)) == History(o) + [Message(mid.decoded, body)];
  }

  lemma HappeningIsReceived<T>(o: Outlet<T>, h: Happening<T>)
    requires o.dropped == 0 && HasRoom(o, h)
    ensures var o' := Happen(o, h);
            && o'.dropped == 0 && o'.residue == o.residue
            && MessagesIn(History(o')) == MessagesIn(History(o)) + if h.Frame? then [h.body] else []
  {
    match h {
      case Frame(body, pause) => RoomMeansAMessage(o, body, pause);
      case Consumer(act) =>
        assert ConsumeAll(o, [act]) == Consume(o, act);
        ConsumingKeepsHistory(o, [act]);
      case Surfaced =>
        MessagesSnoc(History(o), Failure);
        assert History(Enqueue(o, Failure)) == History(o) + [Failure];
      case Connected => assert History(BeginConnection(o)) == History(o);
    }
  }

  function FramesIn<T>(events: seq<Happening<T>>): seq<T>
    decreases |events|
  {
    if events == [] then [] else (if events[0].Frame? then [events[0].body] else []) + FramesIn(events[1..])
  }

  /** Over any number of connections: to a consumer that keeps up every frame is handed
      over, once and in order, and nothing is ever reported as dropped. */
  lemma {:induction false} KeepingUpLosesNothing<T>(o: Outlet<T>, events: seq<Happening<T>>)
    requires o.dropped == 0 && KeepsUp(o, events)
    ensures var o' := Play(o, events);
            && o'.dropped == 0 && o'.residue == o.residue
            && MessagesIn(History(o')) == MessagesIn(History(o)) + FramesIn(events)
    decreases |events|
  {
    if events != [] {
      HappeningIsReceived(o, events[0]);
      KeepingUpLosesNothing(Happen(o, events[0]), events[1..]);
    }
  }

  /** The queue never holds more than it may. */
  lemma {:induction false} QueueStaysBounded<T>(o: Outlet<T>, events: seq<Happening<T>>)
    requires |o.queue| <= o.capacity
    ensures var o' := Play(o, events); |o'.queue| <= o'.capacity == o.capacity
    decreases |events|
  {
    if events != [] {
      HappeningStaysBounded(o, events[0]);
      QueueStaysBounded(Happen(o, events[0]), events[1..]);
    }
  }

  lemma HappeningStaysBounded<T>(o: Outlet<T>, h: Happening<T>)
    requires |o.queue| <= o.capacity
    ensures var o' := Happen(o, h); |o'.queue| <= o'.capacity == o.capacity
  {
    if h.Frame? { ConsumingKeepsHistory(Flush(o), h.pause); }
  }
}
