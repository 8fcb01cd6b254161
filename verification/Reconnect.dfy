/** The shape of a reconnect loop, which both websocket tasks have (`run` in
    `src/ws/typed.rs` and in `src/ws.rs`): attempts with one delay between them,
    drawn from a back-off that a connection resets once it delivers a message.
    What an attempt and a command do is a parameter. */
module Reconnect {
  import opened Common
  import opened Backoff

  // ----- the pace of a reconnect loop -----------------------------------------------------

  /** What a loop did: when each attempt began, whether its connection delivered a
      message, and the delay drawn after it. */
  datatype Pacing = Pacing(starts: seq<real>, fed: seq<bool>, waits: seq<real>)

  /** A loop's clock, its timer and its record. */
  datatype Clock = Clock(now: real, timer: Timer, pacing: Pacing)

  /** An attempt begins now, lasts a while, and has been `fed` or not. */
  function AttemptOver(r: Rhythm, c: Clock, duration: real, fed: bool): Clock {
    Clock(c.now + duration, if fed then r.reset(c.timer) else c.timer,
          c.pacing.(starts := c.pacing.starts + [c.now], fed := c.pacing.fed + [fed]))
  }

  function DelayBegun(r: Rhythm, c: Clock): Clock {
    c.(timer := r.next(c.timer), pacing := c.pacing.(waits := c.pacing.waits + [r.delay(c.timer)]))
  }

  /** Delays drawn between attempt `i` and the last connection up to it that
      delivered a message. */
  function SinceFed(fed: seq<bool>, i: nat): nat
    requires i < |fed|
  {
    if fed[i] || i == 0 then 0 else SinceFed(fed, i - 1) + 1
  }

  /** Delays drawn so far since the last such connection. */
  function NextDraw(fed: seq<bool>): nat { if fed == [] then 0 else SinceFed(fed, |fed| - 1) + 1 }

  /** One delay between two attempts, waited out before the second, and the n-th
      since the last connection that delivered a message is one that may be for n.
      The last attempt may be without one: it ended the loop. */
  ghost predicate Paced(may: (nat, real) -> bool, run: Pacing) {
    && |run.starts| == |run.fed|
    && |run.waits| <= |run.starts| <= |run.waits| + 1
    && (forall i :: 0 <= i < |run.starts| - 1 ==> WaitedOut(run.starts, run.waits, i))
    && (forall i :: 0 <= i < |run.waits| ==> Permitted(may, run, i))
  }

  /** Attempt `i + 1` began no earlier than the delay drawn after attempt `i` allows. */
  predicate WaitedOut(starts: seq<real>, waits: seq<real>, i: nat)
    requires i < |starts| - 1 && i < |waits|
  {
    starts[i + 1] >= starts[i] + waits[i]
  }

  predicate Permitted(may: (nat, real) -> bool, run: Pacing, i: nat)
    requires i < |run.waits| && i < |run.fed|
  {
    may(SinceFed(run.fed, i), run.waits[i])
  }

  /** What a policy allows for the n-th delay. */
  function May(p: Policy): (nat, real) -> bool { (n: nat, delay: real) => MayWait(p, n, delay) }

  /** Every attempt so far has had its delay, which is over. */
  ghost predicate OnPace(p: Policy, c: Clock) {
    && Paced(May(p), c.pacing) && |c.pacing.waits| == |c.pacing.starts|
    && Drawn(p, c.timer, NextDraw(c.pacing.fed))
    && (c.pacing.starts != [] ==>
         c.now >= c.pacing.starts[|c.pacing.starts| - 1] + c.pacing.waits[|c.pacing.starts| - 1])
  }

  lemma {:induction false} SinceFedSnoc(fed: seq<bool>, b: bool, i: nat)
    requires i < |fed|
    ensures SinceFed(fed + [b], i) == SinceFed(fed, i)
  {
    if i > 0 { SinceFedSnoc(fed, b, i - 1); }
  }

  /** An attempt begun on pace leaves the record paced, and the timer at the draw
      that comes next. */
  lemma AttemptIsPaced(r: Rhythm, p: Policy, c: Clock, duration: real, fed: bool)
    requires Follows(r, p) && OnPace(p, c)
    ensures var d := AttemptOver(r, c, duration, fed);
            && Paced(May(p), d.pacing) && |d.pacing.starts| == |d.pacing.waits| + 1
            && Drawn(p, d.timer, SinceFed(d.pacing.fed, |d.pacing.fed| - 1))
  {
    assert r.reset(c.timer) == AfterReset(p, c.timer);
    if c.pacing.starts != [] { SinceFedSnoc(c.pacing.fed, fed, |c.pacing.starts| - 1); }
    StartIsPaced(May(p), c.pacing, c.now, fed);
  }

  lemma StartIsPaced(may: (nat, real) -> bool, before: Pacing, start: real, fed: bool)
    requires Paced(may, before) && |before.waits| == |before.starts|
    requires var n := |before.starts|; n > 0 ==> start >= before.starts[n - 1] + before.waits[n - 1]
    ensures Paced(may, before.(starts := before.starts + [start], fed := before.fed + [fed]))
  {
    var after, n := before.(starts := before.starts + [start], fed := before.fed + [fed]), |before.starts|;
    forall i | 0 <= i < n ensures WaitedOut(after.starts, after.waits, i) && Permitted(may, after, i) {
      SinceFedSnoc(before.fed, fed, i);
      assert Permitted(may, before, i);
      assert i < n - 1 ==> WaitedOut(before.starts, before.waits, i);
    }
  }

  lemma DelayIsPaced(r: Rhythm, p: Policy, c: Clock)
    requires Follows(r, p) && ValidPolicy(p) && Paced(May(p), c.pacing) && |c.pacing.starts| == |c.pacing.waits| + 1
    requires Drawn(p, c.timer, SinceFed(c.pacing.fed, |c.pacing.fed| - 1))
    ensures var d := DelayBegun(r, c);
            && Paced(May(p), d.pacing) && |d.pacing.waits| == |d.pacing.starts|
            && Drawn(p, d.timer, NextDraw(d.pacing.fed)) && r.delay(c.timer) >= 0.0
  {
    var n := SinceFed(c.pacing.fed, |c.pacing.waits|);
    DrawIsPermitted(r, p, c.timer, n);
    WaitIsPaced(May(p), c.pacing, r.delay(c.timer));
  }

  lemma DrawIsPermitted(r: Rhythm, p: Policy, t: Timer, n: nat)
    requires Follows(r, p) && ValidPolicy(p) && Drawn(p, t, n)
    ensures May(p)(n, r.delay(t)) && Drawn(p, r.next(t), n + 1) && r.delay(t) >= 0.0
  {
    NthDelay(p, t, n);
    assert r.delay(t) == DelayOf(p, t) && r.next(t) == AfterDraw(p, t);
  }

  lemma WaitIsPaced(may: (nat, real) -> bool, before: Pacing, delay: real)
    requires Paced(may, before) && |before.starts| == |before.waits| + 1
    requires may(SinceFed(before.fed, |before.waits|), delay)
    ensures Paced(may, before.(waits := before.waits + [delay]))
  {
    var after, n := before.(waits := before.waits + [delay]), |before.waits|;
    forall i | 0 <= i < n ensures WaitedOut(after.starts, after.waits, i) && Permitted(may, after, i) {
      assert WaitedOut(before.starts, before.waits, i) && Permitted(may, before, i);
    }
    assert Permitted(may, after, n);
  }

  // ----- waiting while commands arrive -----------------------------------------------------

  /** A command reaching the task, or (`None`) the news that its handle is gone. */
  datatype Arrival<C> = Arrival(at: real, command: Option<C>)

  datatype Waited<S, C> = Waited(state: S, now: real, taken: seq<C>, stopped: bool)

  /** Wait until `end`. Commands that arrive by then are applied, in order; one
      that closes, or the loss of the handle, ends the wait and the loop. */
  function WaitUntil<S, C>(apply: (S, C) -> S, closes: C -> bool, state: S, now: real, end: real,
                           arrivals: seq<Arrival<C>>)
    : Waited<S, C>
    decreases |arrivals|
  {
    if arrivals == [] || arrivals[0].at > end then Waited(state, end, [], false)
    else
      var later := Max(now, arrivals[0].at);
      match arrivals[0].command
      case None => Waited(state, later, [], true)
      case Some(c) =>
        if closes(c) then Waited(state, later, [c], true)
        else
          var rest := WaitUntil(apply, closes, apply(state, c), later, end, arrivals[1..]);
          rest.(taken := [c] + rest.taken)
  }

  /** The whole wait, when `taken` has been applied and `rest` is still to come. */
  ghost predicate AfterTaking<S, C>(whole: Waited<S, C>, taken: seq<C>, rest: Waited<S, C>) {
    whole == rest.(taken := taken + rest.taken)
  }

  lemma NothingTaken<S, C>(apply: (S, C) -> S, closes: C -> bool, state: S, now: real, end: real,
                           arrivals: seq<Arrival<C>>)
    ensures var whole := WaitUntil(apply, closes, state, now, end, arrivals);
            AfterTaking(whole, [], WaitUntil(apply, closes, state, now, end, arrivals[0..]))
  {
    assert arrivals[0..] == arrivals;
    var whole := WaitUntil(apply, closes, state, now, end, arrivals);
    assert [] + whole.taken == whole.taken;
  }

  lemma OneMoreArrival<S, C>(apply: (S, C) -> S, closes: C -> bool, whole: Waited<S, C>, taken: seq<C>, state: S,
                             now: real, end: real, arrivals: seq<Arrival<C>>, i: nat)
    requires i < |arrivals| && arrivals[i].at <= end
    requires AfterTaking(whole, taken, WaitUntil(apply, closes, state, now, end, arrivals[i..]))
    ensures var later := Max(now, arrivals[i].at);
            match arrivals[i].command
            case None => whole == Waited(state, later, taken, true)
            case Some(c) =>
              if closes(c) then whole == Waited(state, later, taken + [c], true)
              else AfterTaking(whole, taken + [c],
                  WaitUntil(apply, closes, apply(state, c), later, end, arrivals[i + 1..]))
  {
    assert arrivals[i..][1..] == arrivals[i + 1..];
    if arrivals[i].command.Some? {
      var c := arrivals[i].command.value;
      var rest := WaitUntil(apply, closes, apply(state, c), Max(now, arrivals[i].at), end, arrivals[i + 1..]);
      assert taken + ([c] + rest.taken) == taken + [c] + rest.taken;
    } else {
      assert taken + [] == taken;
    }
  }

  lemma NoMoreArrivals<S, C>(apply: (S, C) -> S, closes: C -> bool, whole: Waited<S, C>, taken: seq<C>, state: S,
                             now: real, end: real, arrivals: seq<Arrival<C>>, i: nat)
    requires i <= |arrivals| && (i < |arrivals| ==> arrivals[i].at > end)
    requires AfterTaking(whole, taken, WaitUntil(apply, closes, state, now, end, arrivals[i..]))
    ensures whole == Waited(state, end, taken, false)
  {
    assert taken + [] == taken;
  }

  /** Commands neither shorten nor stretch a wait that is not cut off. */
  lemma {:induction false} WaitKeepsItsEnd<S, C>(apply: (S, C) -> S, closes: C -> bool, state: S, now: real, end: real,
                                                 arrivals: seq<Arrival<C>>)
    requires now <= end
    ensures var w := WaitUntil(apply, closes, state, now, end, arrivals);
            now <= w.now <= end && (!w.stopped ==> w.now == end)
    decreases |arrivals|
  {
    if arrivals != [] && arrivals[0].at <= end && arrivals[0].command.Some? {
      var later := Max(now, arrivals[0].at);
      WaitKeepsItsEnd(apply, closes, apply(state, arrivals[0].command.value), later, end, arrivals[1..]);
    }
  }

  /** Something that closes, or the loss of the handle, arrives before anything too late. */
  predicate CutOff<C>(closes: C -> bool, end: real, arrivals: seq<Arrival<C>>)
    decreases |arrivals|
  {
    && arrivals != [] && arrivals[0].at <= end
    && (Cuts(closes, arrivals[0]) || CutOff(closes, end, arrivals[1..]))
  }

  lemma {:induction false} CutOffStops<S, C>(apply: (S, C) -> S, closes: C -> bool, state: S, now: real, end: real,
                                             arrivals: seq<Arrival<C>>)
    ensures WaitUntil(apply, closes, state, now, end, arrivals).stopped <==> CutOff(closes, end, arrivals)
    decreases |arrivals|
  {
    if arrivals != [] && arrivals[0].at <= end && !Cuts(closes, arrivals[0]) {
      var c, later := arrivals[0].command.value, Max(now, arrivals[0].at);
      CutOffStops(apply, closes, apply(state, c), later, end, arrivals[1..]);
    }
  }

  /** A wait is cut off exactly when a closing command, or the loss of the handle,
      arrives before anything that is too late to be seen. */
  lemma {:induction false} WaitStopsIff<S, C>(apply: (S, C) -> S, closes: C -> bool, state: S, now: real, end: real,
                                              arrivals: seq<Arrival<C>>)
    ensures WaitUntil(apply, closes, state, now, end, arrivals).stopped <==>
              exists i :: 0 <= i < |arrivals| && (forall j :: 0 <= j <= i ==> arrivals[j].at <= end)
                          && Cuts(closes, arrivals[i])
    decreases |arrivals|
  {
    if arrivals != [] && arrivals[0].at <= end && !Cuts(closes, arrivals[0]) {
      var later, rest := Max(now, arrivals[0].at), arrivals[1..];
      WaitStopsIff(apply, closes, apply(state, arrivals[0].command.value), later, end, rest);
      forall i | 0 <= i < |rest|
        ensures Cuts(closes, arrivals[i + 1]) == Cuts(closes, rest[i]) && rest[i].at == arrivals[i + 1].at
      {
      }
      if i :| 0 <= i < |rest| && (forall j :: 0 <= j <= i ==> rest[j].at <= end) && Cuts(closes, rest[i]) {
        forall j | 0 <= j <= i + 1 ensures arrivals[j].at <= end {
          if j > 0 { assert rest[j - 1].at <= end; }
        }
        assert Cuts(closes, arrivals[i + 1]);
      }
      if i :| 0 <= i < |arrivals| && (forall j :: 0 <= j <= i ==> arrivals[j].at <= end) && Cuts(closes, arrivals[i]) {
        assert Cuts(closes, rest[i - 1]);
        forall j | 0 <= j <= i - 1 ensures rest[j].at <= end { assert arrivals[j + 1].at <= end; }
      }
    }
  }

  /** The commands among what arrives. */
  function Commands<C>(arrivals: seq<Arrival<C>>): seq<C> {
    if arrivals == [] then []
    else (if arrivals[0].command.Some? then [arrivals[0].command.value] else []) + Commands(arrivals[1..])
  }

  function Applied<S, C>(apply: (S, C) -> S, closes: C -> bool, state: S, cs: seq<C>): S
    decreases |cs|
  {
    if cs == [] then state else Applied(apply, closes, if closes(cs[0]) then state else apply(state, cs[0]), cs[1..])
  }

  /** A wait reads everything that arrives in time, up to what cuts it off, and takes and
      applies each command of that, in order. */
  lemma {:induction false} WaitTakesWhatArrives<S, C>(apply: (S, C) -> S, closes: C -> bool, state: S, now: real,
                                                      end: real, arrivals: seq<Arrival<C>>)
    returns (n: nat)
    ensures n <= |arrivals| && forall j :: 0 <= j < n ==> arrivals[j].at <= end
    ensures var w := WaitUntil(apply, closes, state, now, end, arrivals);
            && w.taken == Commands(arrivals[..n]) && w.state == Applied(apply, closes, state, w.taken)
            && (if w.stopped then n > 0 && Cuts(closes, arrivals[n - 1]) else n == |arrivals| || arrivals[n].at > end)
            && forall j :: 0 <= j < (if w.stopped then n - 1 else n) ==> !Cuts(closes, arrivals[j])
    decreases |arrivals|
  {
    n := 0;
    if arrivals != [] && arrivals[0].at <= end {
      n := 1;
      if Cuts(closes, arrivals[0]) {
        assert arrivals[..1][1..] == [];
        ClosingAppliesNothing(apply, closes, state, arrivals[0]);
      } else {
        var c, later := arrivals[0].command.value, Max(now, arrivals[0].at);
        var m := WaitTakesWhatArrives(apply, closes, apply(state, c), later, end, arrivals[1..]);
        n := m + 1;
        assert arrivals[..n][1..] == arrivals[1..][..m];
        assert forall j :: 0 < j < n ==> arrivals[j] == arrivals[1..][j - 1];
        assert ([c] + Commands(arrivals[1..][..m]))[1..] == Commands(arrivals[1..][..m]);
      }
    }
  }

  lemma ClosingAppliesNothing<S, C>(apply: (S, C) -> S, closes: C -> bool, state: S, a: Arrival<C>)
    requires Cuts(closes, a)
    ensures a.command.Some? ==> Applied(apply, closes, state, [a.command.value]) == state
  {
    if a.command.Some? {
      assert [a.command.value][1..] == [];
      assert Applied(apply, closes, state, [a.command.value]) == Applied(apply, closes, state, []);
    }
  }

  predicate Cuts<C>(closes: C -> bool, a: Arrival<C>) { a.command.None? || closes(a.command.value) }

  predicate CommandKeeps<S, C>(apply: (S, C) -> S, closes: C -> bool, keeps: (S, seq<C>) -> bool, s: S, cs: seq<C>,
                               c: C)
  {
    keeps(if closes(c) then s else apply(s, c), cs + [c])
  }

  /** A wait keeps what every command keeps. */
  lemma {:induction false} WaitKeeps<S, C>(apply: (S, C) -> S, closes: C -> bool, keeps: (S, seq<C>) -> bool, state: S,
                                           before: seq<C>, now: real, end: real, arrivals: seq<Arrival<C>>)
    requires keeps(state, before)
    requires forall s, cs, c :: keeps(s, cs) ==> CommandKeeps(apply, closes, keeps, s, cs, c)
    ensures var w := WaitUntil(apply, closes, state, now, end, arrivals); keeps(w.state, before + w.taken)
    decreases |arrivals|
  {
    assert before + [] == before;
    if arrivals != [] && arrivals[0].at <= end && arrivals[0].command.Some? {
      var c, later := arrivals[0].command.value, Max(now, arrivals[0].at);
      assert CommandKeeps(apply, closes, keeps, state, before, c);
      if !closes(c) {
        WaitKeeps(apply, closes, keeps, apply(state, c), before + [c], later, end, arrivals[1..]);
        var rest := WaitUntil(apply, closes, apply(state, c), later, end, arrivals[1..]);
        assert before + ([c] + rest.taken) == before + [c] + rest.taken;
      }
    }
  }

  // ----- the loop ---------------------------------------------------------------------------

  /** How an attempt leaves things: the commands it took, whether its connection
      delivered a message, and whether it ends the loop. */
  datatype Tried<S, C> = Tried(state: S, consumed: seq<C>, fed: bool, stop: bool)

  /** How long an attempt takes, what reaches the task while it waits afterwards,
      and how late the timer fires. */
  datatype Timing<C> = Timing(duration: real, arrivals: seq<Arrival<C>>, lateness: real)

  predicate ValidTiming<C>(t: Timing<C>) { t.duration >= 0.0 && t.lateness >= 0.0 }

  /** What an attempt does, what a command does during a wait, which commands end
      the loop, and what else changes meanwhile. */
  datatype Loop<!S, !C, !A> = Loop(
    attempt: (S, A) -> Tried<S, C>, apply: (S, C) -> S, closes: C -> bool, idle: (S, A) -> S, timing: A -> Timing<C>)

  /** The task between two attempts, or at its end. */
  datatype Life<S, C> = Life(state: S, clock: Clock, consumed: seq<C>, stopped: bool)

  function Turned<S, C, A>(r: Rhythm, loop: Loop<S, C, A>, life: Life<S, C>, a: A): Life<S, C> {
    if life.stopped then life else Settled(r, loop, life.clock, life.consumed, loop.attempt(life.state, a), a)
  }

  /** What follows an attempt: one delay, unless it ends the loop. */
  function Settled<S, C, A>(r: Rhythm, loop: Loop<S, C, A>, clock: Clock, before: seq<C>, t: Tried<S, C>, a: A)
    : Life<S, C>
  {
    var over := AttemptOver(r, clock, loop.timing(a).duration, t.fed);
    if t.stop then Life(t.state, over, before + t.consumed, true)
    else Rested(r, loop, over, before + t.consumed, t.state, a)
  }

  function Rested<S, C, A>(r: Rhythm, loop: Loop<S, C, A>, over: Clock, before: seq<C>, state: S, a: A): Life<S, C> {
    var w := Rest(r, loop, over, state, a);
    Life(loop.idle(w.state, a), DelayBegun(r, over).(now := w.now), before + w.taken, w.stopped)
  }

  function Rest<S, C, A>(r: Rhythm, loop: Loop<S, C, A>, over: Clock, state: S, a: A): Waited<S, C> {
    var t := loop.timing(a);
    WaitUntil(loop.apply, loop.closes, state, over.now, over.now + r.delay(over.timer) + t.lateness, t.arrivals)
  }

  /** The loop over the attempts the environment makes of it. */
  function Lived<S, C, A>(r: Rhythm, loop: Loop<S, C, A>, life: Life<S, C>, attempts: seq<A>): Life<S, C> {
    if attempts == [] then life
    else Turned(r, loop, Lived(r, loop, life, attempts[..|attempts| - 1]), attempts[|attempts| - 1])
  }

  lemma OneMoreTurn<S, C, A>(r: Rhythm, loop: Loop<S, C, A>, life: Life<S, C>, attempts: seq<A>, n: nat)
    requires n < |attempts|
    ensures Lived(r, loop, life, attempts[..n + 1]) == Turned(r, loop, Lived(r, loop, life, attempts[..n]), attempts[n])
  {
    assert attempts[..n + 1][..n] == attempts[..n];
  }

  lemma StopIsFinal<S, C, A>(r: Rhythm, loop: Loop<S, C, A>, life: Life<S, C>, attempts: seq<A>, n: nat)
    requires n <= |attempts| && Lived(r, loop, life, attempts[..n]).stopped
    ensures Lived(r, loop, life, attempts) == Lived(r, loop, life, attempts[..n])
    decreases |attempts| - n
  {
    if n == |attempts| {
      assert attempts[..n] == attempts;
    } else {
      OneMoreTurn(r, loop, life, attempts, n);
      StopIsFinal(r, loop, life, attempts, n + 1);
    }
  }

  /** The delay after an attempt is cut off. */
  predicate WaitIsCut<S, C, A>(r: Rhythm, loop: Loop<S, C, A>, life: Life<S, C>, a: A) {
    var timing := loop.timing(a);
    var over := AttemptOver(r, life.clock, timing.duration, loop.attempt(life.state, a).fed);
    CutOff(loop.closes, over.now + r.delay(over.timer) + timing.lateness, timing.arrivals)
  }

  lemma RestStopsIff<S, C, A>(r: Rhythm, loop: Loop<S, C, A>, over: Clock, state: S, a: A)
    ensures Rest(r, loop, over, state, a).stopped <==>
              CutOff(loop.closes, over.now + r.delay(over.timer) + loop.timing(a).lateness, loop.timing(a).arrivals)
  {
    CutOffStops(loop.apply, loop.closes, state, over.now, over.now + r.delay(over.timer) + loop.timing(a).lateness,
                loop.timing(a).arrivals);
  }

  lemma SettledStopsIff<S, C, A>(r: Rhythm, loop: Loop<S, C, A>, clock: Clock, before: seq<C>, t: Tried<S, C>, a: A)
    ensures Settled(r, loop, clock, before, t, a).stopped <==>
              t.stop || Rest(r, loop, AttemptOver(r, clock, loop.timing(a).duration, t.fed), t.state, a).stopped
  {
  }

  lemma TurnStopsIff<S, C, A>(r: Rhythm, loop: Loop<S, C, A>, life: Life<S, C>, a: A)
    requires !life.stopped
    ensures Turned(r, loop, life, a).stopped <==> loop.attempt(life.state, a).stop || WaitIsCut(r, loop, life, a)
  {
    var t := loop.attempt(life.state, a);
    SettledStopsIff(r, loop, life.clock, life.consumed, t, a);
    RestStopsIff(r, loop, AttemptOver(r, life.clock, loop.timing(a).duration, t.fed), t.state, a);
  }

  /** Attempt `n` ends the loop, by itself or in the delay after it. */
  ghost predicate EndsWith<S, C, A>(r: Rhythm, loop: Loop<S, C, A>, life: Life<S, C>, attempts: seq<A>, n: nat) {
    n < |attempts| &&
    var before := Lived(r, loop, life, attempts[..n]);
    && !before.stopped
    && (loop.attempt(before.state, attempts[n]).stop || WaitIsCut(r, loop, before, attempts[n]))
  }

  /** A loop has stopped exactly when one of its attempts, or the delay after one, ended it. */
  lemma {:induction false} LoopStopsIff<S, C, A>(r: Rhythm, loop: Loop<S, C, A>, life: Life<S, C>, attempts: seq<A>)
    requires !life.stopped
    ensures Lived(r, loop, life, attempts).stopped <==> exists n :: EndsWith(r, loop, life, attempts, n)
  {
    if attempts == [] {
      assert forall n: nat :: !EndsWith(r, loop, life, attempts, n);
    } else {
      var last := |attempts| - 1;
      var front := attempts[..last];
      LoopStopsIff(r, loop, life, front);
      assert attempts == front + [attempts[last]];
      forall n: nat | n < last ensures EndsWith(r, loop, life, attempts, n) <==> EndsWith(r, loop, life, front, n) {
        assert front[..n] == attempts[..n];
      }
      if !Lived(r, loop, life, front).stopped {
        TurnStopsIff(r, loop, Lived(r, loop, life, front), attempts[last]);
        assert Lived(r, loop, life, attempts).stopped <==> EndsWith(r, loop, life, attempts, last);
        assert forall n: nat :: EndsWith(r, loop, life, attempts, n) ==> n <= last;
      } else {
        var n :| EndsWith(r, loop, life, front, n);
        assert EndsWith(r, loop, life, attempts, n);
      }
    }
  }

  lemma TurnIsPaced<S, C, A>(r: Rhythm, p: Policy, loop: Loop<S, C, A>, life: Life<S, C>, a: A)
    requires Follows(r, p) && ValidPolicy(p) && ValidTiming(loop.timing(a)) && OnPace(p, life.clock) && !life.stopped
    ensures var next, t := Turned(r, loop, life, a), loop.attempt(life.state, a);
            && Paced(May(p), next.clock.pacing)
            && next.clock.pacing.starts == life.clock.pacing.starts + [life.clock.now]
            && next.clock.pacing.fed == life.clock.pacing.fed + [t.fed]
            && (!next.stopped ==> OnPace(p, next.clock))
  {
    var t, timing := loop.attempt(life.state, a), loop.timing(a);
    var over := AttemptOver(r, life.clock, timing.duration, t.fed);
    AttemptIsPaced(r, p, life.clock, timing.duration, t.fed);
    if !t.stop {
      DelayIsPaced(r, p, over);
      WaitKeepsItsEnd(loop.apply, loop.closes, t.state, over.now, over.now + r.delay(over.timer) + timing.lateness,
                      timing.arrivals);
    }
  }

  /** Every attempt the environment offers is made, and recorded as fed exactly when
      it was, until one ends the loop; the record is paced. */
  lemma {:induction false} LoopIsPaced<S, C, A>(r: Rhythm, p: Policy, loop: Loop<S, C, A>, life: Life<S, C>,
                                                attempts: seq<A>)
    requires Follows(r, p) && ValidPolicy(p) && OnPace(p, life.clock) && life.clock.pacing.starts == [] && !life.stopped
    requires forall i :: 0 <= i < |attempts| ==> ValidTiming(loop.timing(attempts[i]))
    ensures var end := Lived(r, loop, life, attempts);
            && Paced(May(p), end.clock.pacing)
            && |end.clock.pacing.starts| <= |attempts|
            && (!end.stopped ==> OnPace(p, end.clock) && |end.clock.pacing.starts| == |attempts|)
            && (forall i :: 0 <= i < |end.clock.pacing.starts| ==>
                 MadeAs(r, loop, life, attempts, i, end.clock.pacing.fed[i]))
  {
    if attempts != [] {
      var n := |attempts| - 1;
      LoopIsPaced(r, p, loop, life, attempts[..n]);
      var before := Lived(r, loop, life, attempts[..n]);
      var end := Lived(r, loop, life, attempts);
      if !before.stopped {
        TurnIsPaced(r, p, loop, before, attempts[n]);
      }
      forall i | 0 <= i < |end.clock.pacing.starts|
        ensures MadeAs(r, loop, life, attempts, i, end.clock.pacing.fed[i])
      {
        if i < |before.clock.pacing.starts| {
          assert MadeAs(r, loop, life, attempts[..n], i, before.clock.pacing.fed[i]);
          assert attempts[..n][..i] == attempts[..i];
        } else {
          assert i == n;
        }
      }
    }
  }

  /** Attempt `i` was made, the loop still running, and came out as `fed` says. */
  predicate MadeAs<S, C, A>(r: Rhythm, loop: Loop<S, C, A>, life: Life<S, C>, attempts: seq<A>, i: nat, fed: bool) {
    && i < |attempts| && !Lived(r, loop, life, attempts[..i]).stopped
    && fed == loop.attempt(Lived(r, loop, life, attempts[..i]).state, attempts[i]).fed
  }

  predicate AttemptKeeps<S, C, A>(loop: Loop<S, C, A>, keeps: (S, seq<C>) -> bool, s: S, cs: seq<C>, a: A) {
    keeps(loop.attempt(s, a).state, cs + loop.attempt(s, a).consumed)
  }

  predicate IdlingKeeps<S, C, A>(loop: Loop<S, C, A>, keeps: (S, seq<C>) -> bool, s: S, cs: seq<C>, a: A) {
    keeps(loop.idle(s, a), cs)
  }

  /** The loop keeps what each of its parts keeps, the commands taken being its history. */
  lemma {:induction false} LoopKeeps<S, C, A>(r: Rhythm, loop: Loop<S, C, A>, keeps: (S, seq<C>) -> bool,
                                              life: Life<S, C>, attempts: seq<A>)
    requires keeps(life.state, life.consumed)
    requires forall s, cs, a :: keeps(s, cs) ==> AttemptKeeps(loop, keeps, s, cs, a)
    requires forall s, cs, a :: keeps(s, cs) ==> IdlingKeeps(loop, keeps, s, cs, a)
    requires forall s, cs, c :: keeps(s, cs) ==> CommandKeeps(loop.apply, loop.closes, keeps, s, cs, c)
    ensures var end := Lived(r, loop, life, attempts); keeps(end.state, end.consumed)
  {
    if attempts != [] {
      var n := |attempts| - 1;
      LoopKeeps(r, loop, keeps, life, attempts[..n]);
      var before, a := Lived(r, loop, life, attempts[..n]), attempts[n];
      if !before.stopped {
        var t, timing := loop.attempt(before.state, a), loop.timing(a);
        var over := AttemptOver(r, before.clock, timing.duration, t.fed);
        assert AttemptKeeps(loop, keeps, before.state, before.consumed, a);
        WaitKeeps(loop.apply, loop.closes, keeps, t.state, before.consumed + t.consumed, over.now,
                  over.now + r.delay(over.timer) + timing.lateness, timing.arrivals);
        var w := Rest(r, loop, over, t.state, a);
        assert IdlingKeeps(loop, keeps, w.state, before.consumed + t.consumed + w.taken, a);
      }
    }
  }
}
