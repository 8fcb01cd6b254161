/** What the inputs of the raw socket's task decide (`src/ws.rs`): when it ends, what it
    hands over, and what it answers. */
module AccountRuns {
  import opened Common
  import opened Backoff
  import opened Reconnect
  import opened AccountSocket
  import opened Handover

  // ----- one connection ----------------------------------------------------------------------

  /** How a connection opens, and what it reads. */
  datatype Session = Session(first: seq<string>, before: Box, sends: nat, fault: string, inputs: seq<Ready>)

  /** The connection when it has read `n` inputs. */
  function Until(c: Session, n: nat): Live
    requires n <= |c.inputs|
  {
    ProceedAll(Opening(c.first, c.before, c.sends, c.fault), c.inputs[..n])
  }

  /** Input `i` is read: nothing before it has ended the connection. */
  predicate Read(c: Session, i: nat) { i < |c.inputs| && Until(c, i).exit.None? }

  lemma OneMoreInput(c: Session, i: nat)
    requires i < |c.inputs|
    ensures Until(c, i + 1) == Proceed(Until(c, i), c.inputs[i])
  {
    assert c.inputs[..i + 1][..i] == c.inputs[..i];
  }

  lemma ReadBefore(c: Session, i: nat)
    requires Read(c, i)
    ensures i > 0 ==> Read(c, i - 1)
  {
    if i > 0 { OneMoreInput(c, i - 1); }
  }

  /** What the queue sees of an input. */
  function Seen(input: Ready): seq<Delivery.Happening<string>> {
    match input
    case FromServer(f, pause) => if f.Payload? && f.json.Some? then [Delivery.Frame(f.json.value, pause)] else []
    case FromConsumer(act) => [Delivery.Consumer(act)]
    case _ => []
  }

  function SeenOf(inputs: seq<Ready>): seq<Delivery.Happening<string>> {
    if inputs == [] then [] else SeenOf(inputs[..|inputs| - 1]) + Seen(inputs[|inputs| - 1])
  }

  lemma ProceedingIsSeen(l: Live, input: Ready)
    requires l.exit.None?
    ensures Proceed(l, input).outlet == Delivery.Play(l.outlet, Seen(input))
  {
    var seen := Seen(input);
    if seen != [] {
      assert seen == [seen[0]] && seen[1..] == [];
      assert Delivery.Play(l.outlet, seen) == Delivery.Play(Delivery.Happen(l.outlet, seen[0]), []);
    }
  }

  lemma {:induction false} SeenIsOneConnection(inputs: seq<Ready>)
    ensures OneConnection(SeenOf(inputs))
  {
    if inputs != [] { SeenIsOneConnection(inputs[..|inputs| - 1]); }
  }

  /** Every payload that is read is put to the queue as it is, in the order of the
      inputs; so is everything the consumer does. */
  lemma {:induction false} QueueSeesTheInputs(c: Session, n: nat)
    requires n <= |c.inputs| && (n > 0 ==> Read(c, n - 1))
    ensures Until(c, n).outlet == Delivery.Play(Delivery.BeginConnection(c.before), SeenOf(c.inputs[..n]))
    decreases n
  {
    var begun := Delivery.BeginConnection(c.before);
    if n == 0 {
      assert Delivery.Play(begun, SeenOf(c.inputs[..0])) == begun;
    } else {
      OneMoreInput(c, n - 1);
      ReadBefore(c, n - 1);
      QueueSeesTheInputs(c, n - 1);
      assert c.inputs[..n][..n - 1] == c.inputs[..n - 1];
      ProceedingIsSeen(Until(c, n - 1), c.inputs[n - 1]);
      PlayAppend(begun, SeenOf(c.inputs[..n - 1]), Seen(c.inputs[n - 1]));
    }
  }

  /** So every message handed over on a connection is one of the payloads read, under its
      number among those that found the consumer there. */
  lemma MessagesAreThePayloadsRead(c: Session, n: nat)
    requires n <= |c.inputs| && (n > 0 ==> Read(c, n - 1))
    ensures TheirFrames(Until(c, n).outlet, Heard(c.before.open, SeenOf(c.inputs[..n])))
  {
    QueueSeesTheInputs(c, n);
    SeenIsOneConnection(c.inputs[..n]);
    ConnectionHandsOverItsFrames(c.before, SeenOf(c.inputs[..n]));
  }

  // ----- commands ------------------------------------------------------------------------------

  function RequestsIn(inputs: seq<Ready>): seq<Request> {
    if inputs == [] then []
    else
      var front, last := RequestsIn(inputs[..|inputs| - 1]), inputs[|inputs| - 1];
      if last.FromHandle? then front + [last.request] else front
  }

  /** A connection takes every request that is read, in order. */
  lemma {:induction false} RequestsAreTaken(c: Session, n: nat)
    requires n <= |c.inputs| && (n > 0 ==> Read(c, n - 1))
    ensures Until(c, n).consumed == RequestsIn(c.inputs[..n])
    decreases n
  {
    if n > 0 {
      OneMoreInput(c, n - 1);
      ReadBefore(c, n - 1);
      RequestsAreTaken(c, n - 1);
      assert c.inputs[..n][..n - 1] == c.inputs[..n - 1];
      OneMoreRequest(Until(c, n - 1), c.inputs[n - 1]);
    }
  }

  lemma OneMoreRequest(l: Live, input: Ready)
    requires l.exit.None?
    ensures Proceed(l, input).consumed == if input.FromHandle? then l.consumed + [input.request] else l.consumed
  {
  }

  // ----- notices -----------------------------------------------------------------------------------

  /** A connection that is announced is taken back before anything else is said. */
  ghost predicate TakenBack(notices: seq<Notice>) {
    forall i :: 0 <= i < |notices| - 1 && notices[i].Up? ==> notices[i + 1].Down?
  }

  predicate EndsUp(notices: seq<Notice>) { notices != [] && notices[|notices| - 1].Up? }

  ghost predicate Announced(s: Socket, stopped: bool) { TakenBack(s.notices) && (!stopped ==> !EndsUp(s.notices)) }

  lemma OneMoreNotice(notices: seq<Notice>, n: Notice)
    requires TakenBack(notices) && (EndsUp(notices) ==> n.Down?)
    ensures TakenBack(notices + [n])
  {
  }

  /** What a round says: that the socket is up and, when it is lost, why; else why there is
      none, or that there will be none. */
  lemma RoundSays(authed: bool, s: Socket, round: Round)
    ensures var t := AttemptMade(authed, s, round);
            var said := t.state.notices;
            && |said| > |s.notices| && said[..|s.notices|] == s.notices
            && (said[|s.notices|].Up? <==> !(authed && s.token.None? && round.mint.Err?) && round.upgrade.Open?)
            && (if said[|s.notices|].Up? then
                  |said| <= |s.notices| + 2 && (|said| == |s.notices| + 2 ==> said[|s.notices| + 1].Down?)
                else |said| == |s.notices| + 1)
            && (EndsUp(said) ==> t.stop)
  {
  }

  lemma RoundKeepsAnnounced(authed: bool, s: Socket, round: Round)
    requires Announced(s, false)
    ensures var t := AttemptMade(authed, s, round); Announced(t.state, t.stop)
  {
    var t, n := AttemptMade(authed, s, round), |s.notices|;
    var said := t.state.notices;
    RoundSays(authed, s, round);
    OneMoreNotice(s.notices, said[n]);
    assert said[..n + 1] == s.notices + [said[n]];
    if |said| == n + 2 {
      OneMoreNotice(said[..n + 1], said[n + 1]);
      assert said == said[..n + 1] + [said[n + 1]];
    } else {
      assert said == said[..n + 1];
    }
  }

  lemma {:induction false} WaitSaysNothing(state: Socket, now: real, end: real, arrivals: seq<Arrival<Request>>)
    ensures WaitUntil(Queued, IsClose, state, now, end, arrivals).state.notices == state.notices
    decreases |arrivals|
  {
    if arrivals != [] && arrivals[0].at <= end && arrivals[0].command.Some? {
      WaitSaysNothing(Queued(state, arrivals[0].command.value), Max(now, arrivals[0].at), end, arrivals[1..]);
    }
  }

  lemma TurnSays(r: Rhythm, authed: bool, life: Life<Socket, Request>, round: Round)
    requires !life.stopped
    ensures var next, t := Turned(r, RawLoop(authed), life, round), AttemptMade(authed, life.state, round);
            next.state.notices == t.state.notices && (t.stop ==> next.stopped)
  {
    var t := AttemptMade(authed, life.state, round);
    assert RawLoop(authed).attempt(life.state, round) == t;
    SettlingSays(r, authed, life.clock, life.consumed, t, round);
  }

  lemma SettlingSays(r: Rhythm, authed: bool, clock: Clock, before: seq<Request>, t: Tried<Socket, Request>,
                     round: Round)
    ensures var next := Settled(r, RawLoop(authed), clock, before, t, round);
            next.state.notices == t.state.notices && (t.stop ==> next.stopped)
  {
    var over := AttemptOver(r, clock, round.timing.duration, t.fed);
    WaitSaysNothing(t.state, over.now, over.now + r.delay(over.timer) + round.timing.lateness, round.timing.arrivals);
  }

  /** Over the whole loop every announced connection is taken back before the next notice,
      and none is left standing while the task goes on. */
  lemma {:induction false} ConnectionsAreTakenBack(r: Rhythm, authed: bool, life: Life<Socket, Request>,
                                                   rounds: seq<Round>)
    requires Announced(life.state, life.stopped)
    ensures var end := Lived(r, RawLoop(authed), life, rounds); Announced(end.state, end.stopped)
  {
    if rounds != [] {
      var n := |rounds| - 1;
      ConnectionsAreTakenBack(r, authed, life, rounds[..n]);
      var before := Lived(r, RawLoop(authed), life, rounds[..n]);
      if !before.stopped {
        RoundKeepsAnnounced(authed, before.state, rounds[n]);
        TurnSays(r, authed, before, rounds[n]);
      }
    }
  }

  // ----- pings ---------------------------------------------------------------------------------

  predicate IsPing(input: Ready) { input.FromServer? && input.frame.Ping? }

  function Pings(inputs: seq<Ready>): nat {
    if inputs == [] then 0 else Pings(inputs[..|inputs| - 1]) + if IsPing(inputs[|inputs| - 1]) then 1 else 0
  }

  function Pongs(wire: seq<Written>): nat {
    if wire == [] then 0 else Pongs(wire[..|wire| - 1]) + if wire[|wire| - 1].Pong? then 1 else 0
  }

  lemma PongsSnoc(wire: seq<Written>, w: Written)
    ensures Pongs(wire + [w]) == Pongs(wire) + if w.Pong? then 1 else 0
  {
    assert (wire + [w])[..|wire|] == wire;
  }

  lemma {:induction false} AsksHoldNoPong(texts: seq<string>)
    ensures Pongs(Asks(texts)) == 0
  {
    if texts != [] {
      var n := |texts| - 1;
      AsksHoldNoPong(texts[..n]);
      assert Asks(texts)[..n] == Asks(texts[..n]);
    }
  }

  /** While a connection is up it has answered each ping with one pong, and sent no other. */
  lemma {:induction false} PingsAreAnswered(c: Session, n: nat)
    requires n <= |c.inputs| && Until(c, n).exit.None?
    ensures Pongs(Until(c, n).wire) == Pings(c.inputs[..n])
    decreases n
  {
    if n == 0 {
      AsksHoldNoPong(c.first[..if c.sends < |c.first| then c.sends else |c.first|]);
    } else {
      OneMoreInput(c, n - 1);
      PingsAreAnswered(c, n - 1);
      assert c.inputs[..n][..n - 1] == c.inputs[..n - 1];
      InputPongs(Until(c, n - 1), c.inputs[n - 1]);
    }
  }

  lemma InputPongs(l: Live, input: Ready)
    requires l.exit.None? && Proceed(l, input).exit.None?
    ensures Pongs(Proceed(l, input).wire) == Pongs(l.wire) + if IsPing(input) then 1 else 0
  {
    PongsSnoc(l.wire, Pong);
    if input.FromHandle? && input.request.Subscribe? { PongsSnoc(l.wire, Asking(input.request.text)); }
  }

  // ----- the end of the task ----------------------------------------------------------------------

  /** The caller ends the task: it closes, or lets go of the handle. */
  predicate CallerEnds(input: Ready) { input == FromHandle(Close) || input.HandleDropped? }

  /** The consumer goes away, by itself or between the two halves of a delivery. */
  predicate ConsumerLeaves(input: Ready) {
    match input
    case FromConsumer(act) => act.Hangup?
    case FromServer(f, pause) => f.Payload? && f.json.Some? && Delivery.Hangup in pause
    case _ => false
  }

  predicate AnyRead(c: Session, n: nat, what: Ready -> bool)
    requires n <= |c.inputs|
  {
    n > 0 && (AnyRead(c, n - 1, what) || (Read(c, n - 1) && what(c.inputs[n - 1])))
  }

  /** Of the inputs that are read, one is such. */
  ghost predicate SomeRead(c: Session, what: Ready -> bool) { exists i: nat :: Read(c, i) && what(c.inputs[i]) }

  lemma {:induction false} AnyReadIff(c: Session, n: nat, what: Ready -> bool)
    requires n <= |c.inputs|
    ensures AnyRead(c, n, what) <==> exists i: nat :: i < n && Read(c, i) && what(c.inputs[i])
  {
    if n > 0 { AnyReadIff(c, n - 1, what); }
  }

  lemma AllRead(c: Session, what: Ready -> bool)
    ensures AnyRead(c, |c.inputs|, what) <==> SomeRead(c, what)
  {
    AnyReadIff(c, |c.inputs|, what);
  }

  lemma InputCloses(l: Live, input: Ready)
    requires l.exit.None?
    ensures Proceed(l, input).outlet.open <==> l.outlet.open && !ConsumerLeaves(input)
  {
    match input {
      case FromServer(f, pause) =>
        if f.Payload? && f.json.Some? { HappeningOpen(l.outlet, Delivery.Frame(f.json.value, pause)); }
      case _ =>
    }
  }

  /** The queue is closed exactly when the consumer has gone away. */
  lemma {:induction false} ClosedIff(c: Session, n: nat)
    requires n <= |c.inputs|
    ensures !Until(c, n).outlet.open <==> !c.before.open || AnyRead(c, n, ConsumerLeaves)
    decreases n
  {
    if n == 0 {
      NothingReadYet(c);
    } else {
      OneMoreInput(c, n - 1);
      ClosedIff(c, n - 1);
      ClosesIff(Until(c, n - 1), Until(c, n), c.inputs[n - 1]);
    }
  }

  lemma NothingReadYet(c: Session)
    ensures Until(c, 0) == Opening(c.first, c.before, c.sends, c.fault)
  {
  }

  lemma ClosesIff(l: Live, l': Live, input: Ready)
    requires l' == Proceed(l, input)
    ensures !l'.outlet.open <==> !l.outlet.open || (l.exit.None? && ConsumerLeaves(input))
  {
    if l.exit.None? { InputCloses(l, input); }
  }

  lemma InputExits(l: Live, input: Ready)
    requires l.exit.None?
    ensures var exit := Proceed(l, input).exit;
            && (exit.Some? && !exit.value.Lost? ==> CallerEnds(input) || !Proceed(l, input).outlet.open)
            && (CallerEnds(input) ==> exit.Some? && !exit.value.Lost?)
  {
    if input.FromServer? && input.frame.Payload? && input.frame.json.Some? {
      GoneIff(l.outlet, input.pause);
      HappeningOpen(l.outlet, Delivery.Frame(input.frame.json.value, input.pause));
    }
  }

  /** A connection ends with the task's end exactly when the caller ends it or the
      consumer has gone away. */
  lemma {:induction false} EndedIff(c: Session, n: nat)
    requires n <= |c.inputs|
    ensures var l := Until(c, n);
            (l.exit.Some? && !l.exit.value.Lost?) || !l.outlet.open <==>
              AnyRead(c, n, CallerEnds) || !l.outlet.open
    decreases n
  {
    if n == 0 {
      NothingReadYet(c);
    } else {
      OneMoreInput(c, n - 1);
      EndedIff(c, n - 1);
      if Read(c, n - 1) { NoneEndedBefore(c, n - 1); }
      EndsIff(Until(c, n - 1), Until(c, n), c.inputs[n - 1]);
    }
  }

  lemma EndsIff(l: Live, l': Live, input: Ready)
    requires l' == Proceed(l, input)
    ensures l.exit.None? ==> (l'.exit.Some? && !l'.exit.value.Lost? ==> CallerEnds(input) || !l'.outlet.open)
                             && (CallerEnds(input) ==> l'.exit.Some? && !l'.exit.value.Lost?)
    ensures l.exit.Some? ==> l' == l
  {
    if l.exit.None? { InputExits(l, input); }
  }

  lemma {:induction false} NoneEndedBefore(c: Session, n: nat)
    requires Read(c, n)
    ensures !AnyRead(c, n, CallerEnds)
    decreases n
  {
    if n > 0 {
      ReadBefore(c, n);
      NoneEndedBefore(c, n - 1);
      OneMoreInput(c, n - 1);
      InputExits(Until(c, n - 1), c.inputs[n - 1]);
    }
  }

  /** What ends the task in a round. Whatever there is to tell, it ends when nobody is there;
      a refusal ends a tokenless one; and so does the caller. */
  ghost predicate RoundEndsTheTask(authed: bool, s: Socket, round: Round) {
    || !s.outlet.open
    || (!(authed && s.token.None? && round.mint.Err?)
        && match round.upgrade
           case Failed(_, refused) => refused && !authed
           case Open(sends, fault, inputs) =>
             var c := Session(s.subscriptions, Delivery.Emit(s.outlet), sends, fault, inputs);
             SomeRead(c, CallerEnds) || SomeRead(c, ConsumerLeaves))
  }

  lemma RoundStopsIff(authed: bool, s: Socket, round: Round)
    ensures AttemptMade(authed, s, round).stop <==> RoundEndsTheTask(authed, s, round)
  {
    if s.outlet.open && !(authed && s.token.None? && round.mint.Err?) && round.upgrade.Open? {
      var u := round.upgrade;
      var c := Session(s.subscriptions, Delivery.Emit(s.outlet), u.sends, u.fault, u.inputs);
      EndedIff(c, |u.inputs|);
      ClosedIff(c, |u.inputs|);
      AllRead(c, CallerEnds);
      AllRead(c, ConsumerLeaves);
      assert u.inputs[..|u.inputs|] == u.inputs;
    }
  }

  /** Round `n` was made, and it or the delay after it ended the task. */
  ghost predicate Ended(r: Rhythm, authed: bool, life: Life<Socket, Request>, rounds: seq<Round>, n: nat)
    requires n < |rounds|
  {
    var before := Lived(r, RawLoop(authed), life, rounds[..n]);
    && !before.stopped
    && (RoundEndsTheTask(authed, before.state, rounds[n]) || WaitIsCut(r, RawLoop(authed), before, rounds[n]))
  }

  /** The task has ended exactly when one of these happened, over any rounds. */
  lemma TaskStopsIff(r: Rhythm, authed: bool, life: Life<Socket, Request>, rounds: seq<Round>)
    requires !life.stopped
    ensures Lived(r, RawLoop(authed), life, rounds).stopped <==>
              exists n: nat :: n < |rounds| && Ended(r, authed, life, rounds, n)
  {
    LoopStopsIff(r, RawLoop(authed), life, rounds);
    forall n: nat | n < |rounds|
      ensures EndsWith(r, RawLoop(authed), life, rounds, n) <==>
                Ended(r, authed, life, rounds, n)
    {
      RoundStopsIff(authed, Lived(r, RawLoop(authed), life, rounds[..n]).state, rounds[n]);
    }
  }
}
