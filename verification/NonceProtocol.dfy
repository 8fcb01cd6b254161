/** One agent signer, any number of concurrent tasks, and the server
    (`src/auth/agent.rs`, `src/auth/mod.rs`, `src/client.rs`). A write waits its
    turn, draws a nonce, sends, and holds the turn until it is answered, times
    out or is cancelled; its request may outlive the turn. Reads draw nonces at
    any time and hold no turn. The environment picks every step: when anything
    happens, in what order requests arrive, which are lost. */
module NonceProtocol {
  import opened Common

  const U64_MAX: nat := 0xFFFF_FFFF_FFFF_FFFF

  /** `max(last + 1, floor)`, saturating. */
  function NextNonce(last: nat, floor: nat): nat
  {
    MaxNat(if last < U64_MAX then last + 1 else last, floor)
  }

  /** A draw is new exactly while the counter is below its ceiling. */
  lemma NonceIsFreshBelowCeiling(last: nat, floor: nat)
    requires last <= U64_MAX && floor <= U64_MAX
    ensures NextNonce(last, floor) > last <==> last < U64_MAX
    ensures floor <= NextNonce(last, floor) <= U64_MAX
  {
  }

  /** A draw is the least number that is past the last one and not below the clock, and
      stays where it is at the ceiling. */
  lemma NonceIsLeast(last: nat, floor: nat, n: nat)
    requires last <= U64_MAX && floor <= U64_MAX
    ensures n > last && n >= floor ==> NextNonce(last, floor) <= n
    ensures last == U64_MAX ==> NextNonce(last, floor) == U64_MAX
  {
  }

  datatype Progress = Signing | Drawn(nonce: nat) | Sent(nonce: nat)

  /** Turn number `number`, granted to the task that asked with `ticket`. */
  datatype Turn = Turn(number: nat, ticket: nat, progress: Progress)

  /** The server's word on one write request, and whether the task that sent it
      still held its turn at that moment. */
  datatype Verdict = Verdict(turn: nat, nonce: nat, accepted: bool, held: bool)

  /** `base` is the highest nonce the server had seen for the agent beforehand.
      `network` maps the turn of each write in flight to the nonce it carries.
      `drawn` and `judged` are history: the nonce each turn drew, and the turns
      whose request reached the server. */
  datatype State = State(
    base: nat, last: nat,
    tickets: nat, waiting: seq<nat>, granted: seq<nat>, holder: Option<Turn>,
    network: map<nat, nat>, highest: nat, verdicts: seq<Verdict>,
    drawn: map<nat, nat>, judged: set<nat>)

  datatype Step =
    | Ask
    | GiveUp(position: nat)
    | Grant
    | Draw(floor: nat)
    | Send
    | Release
    | Read(floor: nat)
    | Arrive(turn: nat)
    | Lose(turn: nat)

  function Initial(base: nat): State { State(base, 0, 0, [], [], None, map[], base, [], map[], {}) }

  /** The server accepts a write exactly when its nonce beats every earlier one. */
  function Judge(s: State, turn: nat): State
    requires turn in s.network
  {
    var nonce := s.network[turn];
    var accepted := nonce > s.highest;
    var held := s.holder.Some? && s.holder.value.number == turn && s.holder.value.progress.Sent?;
    s.(network := s.network - {turn},
       highest := if accepted then nonce else s.highest,
       verdicts := s.verdicts + [Verdict(turn, nonce, accepted, held)],
       judged := s.judged + {turn})
  }

  function Do(s: State, step: Step): State {
    match step
    case Ask => s.(tickets := s.tickets + 1, waiting := s.waiting + [s.tickets])
    case GiveUp(p) => if p < |s.waiting| then s.(waiting := s.waiting[..p] + s.waiting[p + 1..]) else s
    case Grant =>
      if s.holder.None? && s.waiting != [] then
        s.(holder := Some(Turn(|s.granted|, s.waiting[0], Signing)),
           granted := s.granted + [s.waiting[0]], waiting := s.waiting[1..])
      else s
    case Draw(floor) =>
      if s.holder.Some? && s.holder.value.progress.Signing? then
        var nonce := NextNonce(s.last, floor);
        s.(last := nonce, holder := Some(s.holder.value.(progress := Drawn(nonce))),
           drawn := s.drawn[s.holder.value.number := nonce])
      else s
    case Send =>
      if s.holder.Some? && s.holder.value.progress.Drawn? then
        var turn := s.holder.value;
        s.(network := s.network[turn.number := turn.progress.nonce],
           holder := Some(turn.(progress := Sent(turn.progress.nonce))))
      else s
    case Release => s.(holder := None)
    case Read(floor) => s.(last := NextNonce(s.last, floor))
    case Arrive(turn) => if turn in s.network then Judge(s, turn) else s
    case Lose(turn) => s.(network := s.network - {turn})
  }

  function Run(s: State, steps: seq<Step>): State
    decreases |steps|
  {
    if steps == [] then s else Run(Do(s, steps[0]), steps[1..])
  }

  /** Clocks are 64-bit. */
  predicate Fits(step: Step) { (step.Draw? ==> step.floor <= U64_MAX) && (step.Read? ==> step.floor <= U64_MAX) }

  predicate DrawsNow(s: State, step: Step) { step.Draw? && s.holder.Some? && s.holder.value.progress.Signing? }

  /** A write may draw: the first one gets past the nonces of earlier signers, and no
      write has had the counter's ceiling yet. */
  predicate MayDraw(s: State, step: Step) {
    DrawsNow(s, step) ==>
      U64_MAX !in s.drawn.Values && (s.drawn == map[] ==> s.base < NextNonce(s.last, step.floor))
  }

  /** So it was at every step of a run. */
  ghost predicate AllMayDraw(s: State, steps: seq<Step>)
    decreases |steps|
  {
    steps == [] || (Fits(steps[0]) && MayDraw(s, steps[0]) && AllMayDraw(Do(s, steps[0]), steps[1..]))
  }

  // ----- the invariant ---------------------------------------------------------------------

  /** Later turns draw higher nonces, above the base and within the counter. */
  ghost predicate DrawsAscend(s: State) {
    && s.last <= U64_MAX
    && (forall t :: t in s.drawn ==> t < |s.granted| && s.base < s.drawn[t] <= s.last)
    && (forall t, u :: t in s.drawn && u in s.drawn && t < u ==> s.drawn[t] < s.drawn[u])
  }

  /** A request carries its turn's nonce and arrives at most once. */
  ghost predicate RequestsAreDraws(s: State) {
    && (forall t :: t in s.network ==> t in s.drawn && s.network[t] == s.drawn[t] && t !in s.judged)
    && s.judged <= s.drawn.Keys
    && (forall i :: 0 <= i < |s.verdicts| ==>
          s.verdicts[i].turn in s.judged && s.verdicts[i].nonce == s.drawn[s.verdicts[i].turn])
  }

  /** The holder has the latest turn and has done no more than its progress says. */
  ghost predicate HolderIsLatest(s: State) {
    s.holder.Some? ==>
      var t := s.holder.value.number;
      && t == |s.granted| - 1
      && match s.holder.value.progress
         case Signing => t !in s.drawn
         case Drawn(n) => t in s.drawn && s.drawn[t] == n && t !in s.network && t !in s.judged
         case Sent(n) => t in s.drawn && s.drawn[t] == n
  }

  /** The server remembers the highest nonce it accepted. */
  ghost predicate ServerRemembers(s: State) {
    && s.base <= s.highest
    && (s.highest == s.base ||
        exists i :: 0 <= i < |s.verdicts| && s.verdicts[i].accepted && s.verdicts[i].nonce == s.highest)
    && (forall i :: 0 <= i < |s.verdicts| && s.verdicts[i].accepted ==> s.verdicts[i].nonce <= s.highest)
  }

  /** A later turn's write was accepted before verdict `j`. */
  ghost predicate OvertakenBefore(verdicts: seq<Verdict>, j: nat)
    requires j < |verdicts|
  {
    exists i :: 0 <= i < j && verdicts[i].accepted && verdicts[i].turn > verdicts[j].turn
  }

  /** A write whose caller still holds its turn is never rejected; accepted
      nonces rise in turn order; and a write is rejected exactly when a later
      turn's write got there first, whatever reads and clocks were doing. */
  ghost predicate VerdictsAreRight(verdicts: seq<Verdict>) {
    && (forall i :: 0 <= i < |verdicts| && verdicts[i].held ==> verdicts[i].accepted)
    && (forall i, j :: 0 <= i < j < |verdicts| && verdicts[i].accepted && verdicts[j].accepted ==>
          verdicts[i].turn < verdicts[j].turn && verdicts[i].nonce < verdicts[j].nonce)
    && (forall j :: 0 <= j < |verdicts| ==> (verdicts[j].accepted <==> !OvertakenBefore(verdicts, j)))
  }

  /** Turns go to the waiting tasks in the order they asked. */
  ghost predicate FirstComeFirstServed(s: State) {
    Ascending(s.granted + s.waiting, s.tickets)
  }

  ghost predicate Inv(s: State) {
    DrawsAscend(s) && RequestsAreDraws(s) && HolderIsLatest(s) && ServerRemembers(s)
    && VerdictsAreRight(s.verdicts) && FirstComeFirstServed(s)
  }

  /** Exactly when a draw keeps later turns ahead of earlier ones, and of the base. */
  lemma DrawsAscendIff(s: State, floor: nat)
    requires DrawsAscend(s) && HolderIsLatest(s) && Fits(Draw(floor))
    ensures DrawsAscend(Do(s, Draw(floor))) <==> MayDraw(s, Draw(floor))
  {
    if DrawsNow(s, Draw(floor)) {
      var s', t, nonce := Do(s, Draw(floor)), s.holder.value.number, NextNonce(s.last, floor);
      assert s'.drawn == s.drawn[t := nonce] && t !in s.drawn;
      if U64_MAX in s.drawn.Values {
        var u :| u in s.drawn && s.drawn[u] == U64_MAX;
        assert s'.drawn[u] == s'.drawn[t];
      } else {
        NextIsAhead(s, floor);
      }
    }
  }

  lemma NextIsAhead(s: State, floor: nat)
    requires DrawsAscend(s) && U64_MAX !in s.drawn.Values
    ensures forall u :: u in s.drawn ==> s.base < s.drawn[u] < NextNonce(s.last, floor)
  {
    forall u | u in s.drawn ensures s.base < s.drawn[u] < NextNonce(s.last, floor) {
      assert s.drawn[u] in s.drawn.Values;
    }
  }

  lemma DrawKeepsInv(s: State, floor: nat)
    requires Inv(s) && Fits(Draw(floor)) && MayDraw(s, Draw(floor))
    ensures Inv(Do(s, Draw(floor)))
  {
    DrawsAscendIff(s, floor);
  }

  /** The heart of it: when a write arrives, every verdict so far that was
      accepted either came from an earlier turn, with a lower nonce, or from a
      later one, with a higher. */
  lemma JudgeIsRight(s: State, turn: nat)
    requires Inv(s) && turn in s.network
    ensures var v := Judge(s, turn).verdicts; v[|v| - 1].accepted <==> !OvertakenBefore(v, |s.verdicts|)
    ensures var v := Judge(s, turn).verdicts; v[|v| - 1].held ==> v[|v| - 1].accepted
  {
    var v := Judge(s, turn).verdicts;
    var n := |s.verdicts|;
    forall i | 0 <= i < n
      ensures v[i].turn > turn <==> v[i].nonce >= s.network[turn]
    {
      assert v[i] == s.verdicts[i] && v[i].turn != turn;
      assert v[i].turn in s.drawn && turn in s.drawn;
    }
    if !v[n].accepted {
      var i :| 0 <= i < |s.verdicts| && s.verdicts[i].accepted && s.verdicts[i].nonce == s.highest;
      assert v[i].turn > turn;
      assert v[i].turn in s.drawn;
    }
  }

  lemma OlderVerdictsStand(verdicts: seq<Verdict>, last: Verdict, j: nat)
    requires j < |verdicts|
    ensures OvertakenBefore(verdicts + [last], j) <==> OvertakenBefore(verdicts, j)
  {
    var v := verdicts + [last];
    assert forall i :: 0 <= i <= j ==> v[i] == verdicts[i];
    if OvertakenBefore(verdicts, j) {
      var i :| 0 <= i < j && verdicts[i].accepted && verdicts[i].turn > verdicts[j].turn;
      assert v[i].accepted;
    }
  }

  lemma JudgeKeepsVerdictsRight(s: State, turn: nat)
    requires Inv(s) && turn in s.network
    ensures VerdictsAreRight(Judge(s, turn).verdicts)
  {
    var v := Judge(s, turn).verdicts;
    var n := |s.verdicts|;
    JudgeIsRight(s, turn);
    forall j | 0 <= j < n
      ensures v[j].accepted <==> !OvertakenBefore(v, j)
    {
      OlderVerdictsStand(s.verdicts, v[n], j);
    }
    if v[n].accepted {
      AcceptedIsLatest(s, turn);
    }
  }

  /** A write the server accepts is later, in turn and in nonce, than all before. */
  lemma AcceptedIsLatest(s: State, turn: nat)
    requires DrawsAscend(s) && RequestsAreDraws(s) && ServerRemembers(s)
    requires turn in s.network && s.network[turn] > s.highest
    ensures forall i :: 0 <= i < |s.verdicts| && s.verdicts[i].accepted ==>
              s.verdicts[i].turn < turn && s.verdicts[i].nonce < s.network[turn]
  {
    forall i | 0 <= i < |s.verdicts| && s.verdicts[i].accepted
      ensures s.verdicts[i].turn < turn && s.verdicts[i].nonce < s.network[turn]
    {
      assert s.verdicts[i].turn in s.drawn && turn in s.drawn;
    }
  }

  lemma ServerStillRemembers(s: State, turn: nat)
    requires ServerRemembers(s) && turn in s.network
    ensures ServerRemembers(Judge(s, turn))
  {
    var s' := Judge(s, turn);
    var n := |s.verdicts|;
    forall i | 0 <= i < n ensures s'.verdicts[i] == s.verdicts[i] {}
    if s'.verdicts[n].accepted {
      assert s'.verdicts[n].nonce == s'.highest;
    } else if s.highest != s.base {
      var i :| 0 <= i < n && s.verdicts[i].accepted && s.verdicts[i].nonce == s.highest;
      assert s'.verdicts[i].accepted && s'.verdicts[i].nonce == s'.highest;
    }
  }

  lemma ArrivalKeepsInv(s: State, turn: nat)
    requires Inv(s)
    ensures Inv(Do(s, Arrive(turn)))
  {
    if turn in s.network {
      JudgeKeepsVerdictsRight(s, turn);
      ServerStillRemembers(s, turn);
      var s' := Judge(s, turn);
      assert RequestsAreDraws(s') by {
        forall i | 0 <= i < |s'.verdicts|
          ensures s'.verdicts[i].turn in s'.judged && s'.verdicts[i].nonce == s'.drawn[s'.verdicts[i].turn]
        {
          if i < |s.verdicts| { assert s'.verdicts[i] == s.verdicts[i]; }
        }
      }
    }
  }

  ghost predicate Ascending(order: seq<nat>, bound: nat) {
    && (forall i, j :: 0 <= i < j < |order| ==> order[i] < order[j])
    && (forall i :: 0 <= i < |order| ==> order[i] < bound)
  }

  lemma AscendingWithout(front: seq<nat>, back: seq<nat>, bound: nat, p: nat)
    requires Ascending(front + back, bound) && p < |back|
    ensures Ascending(front + (back[..p] + back[p + 1..]), bound)
  {
    var order, order' := front + back, front + (back[..p] + back[p + 1..]);
    var cut := |front| + p;
    assert forall i :: 0 <= i < |order'| ==> order'[i] == order[if i < cut then i else i + 1];
  }

  lemma QueueStaysFair(s: State, step: Step)
    requires FirstComeFirstServed(s)
    ensures FirstComeFirstServed(Do(s, step))
  {
    if step.GiveUp? && step.position < |s.waiting| {
      AscendingWithout(s.granted, s.waiting, s.tickets, step.position);
    } else {
      var s' := Do(s, step);
      assert s'.granted + s'.waiting == s.granted + s.waiting + (if step.Ask? then [s.tickets] else []);
    }
  }

  lemma StepKeepsInv(s: State, step: Step)
    requires Inv(s) && Fits(step) && MayDraw(s, step)
    ensures Inv(Do(s, step))
  {
    QueueStaysFair(s, step);
    match step {
      case Draw(floor) => DrawKeepsInv(s, floor);
      case Arrive(turn) => ArrivalKeepsInv(s, turn);
      case _ =>
        QuietStepKeepsDraws(s, step);
        QuietStepKeepsRequests(s, step);
        QuietStepKeepsHolder(s, step);
        QuietStepKeepsVerdicts(s, step);
    }
  }

  lemma QuietStepKeepsVerdicts(s: State, step: Step)
    requires !step.Draw? && !step.Arrive?
    ensures Do(s, step).verdicts == s.verdicts && Do(s, step).highest == s.highest && Do(s, step).base == s.base
  {
  }

  lemma QuietStepKeepsDraws(s: State, step: Step)
    requires DrawsAscend(s) && !step.Draw? && !step.Arrive? && Fits(step)
    ensures DrawsAscend(Do(s, step))
  {
  }

  lemma QuietStepKeepsRequests(s: State, step: Step)
    requires RequestsAreDraws(s) && HolderIsLatest(s) && !step.Draw? && !step.Arrive?
    ensures RequestsAreDraws(Do(s, step))
  {
  }

  lemma QuietStepKeepsHolder(s: State, step: Step)
    requires DrawsAscend(s) && RequestsAreDraws(s) && HolderIsLatest(s) && !step.Draw? && !step.Arrive?
    ensures HolderIsLatest(Do(s, step))
  {
  }

  lemma {:induction false} RunKeepsInv(s: State, steps: seq<Step>)
    requires Inv(s) && AllMayDraw(s, steps)
    ensures Inv(Run(s, steps))
    decreases |steps|
  {
    if steps != [] {
      StepKeepsInv(s, steps[0]);
      RunKeepsInv(Do(s, steps[0]), steps[1..]);
    }
  }

  /** The protocol is safe over every run in which writes may draw. */
  lemma NonceProtocolIsSafe(base: nat, steps: seq<Step>)
    requires AllMayDraw(Initial(base), steps)
    ensures var s := Run(Initial(base), steps);
            VerdictsAreRight(s.verdicts) && FirstComeFirstServed(s) && DrawsAscend(s)
  {
    RunKeepsInv(Initial(base), steps);
  }

  /** A write with a clock past the base may draw, and so may every later write, until
      one has drawn the ceiling, whatever their clocks say. */
  lemma FirstClockIsEnough(s: State, floor: nat)
    requires DrawsAscend(s) && (s.drawn == map[] ==> s.base < floor || s.base <= s.last < U64_MAX)
    requires U64_MAX !in s.drawn.Values
    ensures MayDraw(s, Draw(floor))
  {
  }

  // ----- the counter follows the clock -----------------------------------------------------------

  /** Draws, of writes and reads alike. */
  function DrawsIn(steps: seq<Step>): nat {
    if steps == [] then 0
    else DrawsIn(steps[..|steps| - 1]) + if steps[|steps| - 1].Draw? || steps[|steps| - 1].Read? then 1 else 0
  }

  ghost predicate ClocksUpTo(steps: seq<Step>, t: nat) {
    forall step :: step in steps ==> (step.Draw? ==> step.floor <= t) && (step.Read? ==> step.floor <= t)
  }

  lemma {:induction false} RunSnoc(s: State, steps: seq<Step>, step: Step)
    ensures Run(s, steps + [step]) == Do(Run(s, steps), step)
    decreases |steps|
  {
    if steps == [] {
      assert steps + [step] == [step];
      assert Run(s, [step]) == Run(Do(s, step), []);
    } else {
      assert (steps + [step])[1..] == steps[1..] + [step];
      RunSnoc(Do(s, steps[0]), steps[1..], step);
    }
  }

  /** Nothing is past `limit`: not the counter, no nonce drawn or on its way, and not
      what the server has seen. */
  ghost predicate Within(s: State, limit: nat) {
    && s.last <= limit && s.highest <= MaxNat(s.base, limit)
    && (forall t :: t in s.drawn ==> s.drawn[t] <= limit)
    && (forall t :: t in s.network ==> s.network[t] <= limit)
    && (s.holder.Some? ==>
         match s.holder.value.progress
         case Signing => true
         case Drawn(n) => n <= limit
         case Sent(n) => n <= limit)
  }

  lemma StepStaysWithin(s: State, step: Step, limit: nat)
    requires Within(s, limit)
    requires step.Draw? || step.Read? ==> NextNonce(s.last, step.floor) <= limit
    ensures Within(Do(s, step), limit) && Do(s, step).base == s.base
  {
  }

  lemma WithinMore(s: State, limit: nat, more: nat)
    requires Within(s, limit) && limit <= more
    ensures Within(s, more)
  {
  }

  /** After `n` draws on clocks up to `t` no nonce is past `t + n`. */
  lemma {:induction false} CounterFollowsTheClock(base: nat, steps: seq<Step>, t: nat)
    requires ClocksUpTo(steps, t)
    ensures Within(Run(Initial(base), steps), t + DrawsIn(steps)) && Run(Initial(base), steps).base == base
  {
    if steps != [] {
      var n := |steps| - 1;
      var front, last := steps[..n], steps[n];
      assert steps == front + [last];
      CounterFollowsTheClock(base, front, t);
      RunSnoc(Initial(base), front, last);
      WithinMore(Run(Initial(base), front), t + DrawsIn(front), t + DrawsIn(steps));
      StepStaysWithin(Run(Initial(base), front), last, t + DrawsIn(steps));
    }
  }

  /** The first write got past the nonces of earlier signers. */
  predicate FirstPasses(s: State, step: Step) {
    DrawsNow(s, step) && s.drawn == map[] ==> s.base < NextNonce(s.last, step.floor)
  }

  ghost predicate FirstPassed(s: State, steps: seq<Step>) {
    forall i :: 0 <= i < |steps| ==> FirstPasses(Run(s, steps[..i]), steps[i])
  }

  /** While the clock and the number of draws stay below the ceiling, it is never met:
      every write may draw as soon as the first one may. */
  lemma SafeBelowTheCeiling(base: nat, steps: seq<Step>, t: nat)
    requires ClocksUpTo(steps, t) && t + DrawsIn(steps) < U64_MAX && FirstPassed(Initial(base), steps)
    ensures AllMayDraw(Initial(base), steps)
    ensures var s := Run(Initial(base), steps);
            VerdictsAreRight(s.verdicts) && FirstComeFirstServed(s) && DrawsAscend(s)
  {
    MayDrawFrom(base, steps, t, 0);
    assert steps[0..] == steps && steps[..0] == [];
    NonceProtocolIsSafe(base, steps);
  }

  lemma {:induction false} MayDrawFrom(base: nat, steps: seq<Step>, t: nat, i: nat)
    requires i <= |steps| && ClocksUpTo(steps, t) && t + DrawsIn(steps) < U64_MAX && FirstPassed(Initial(base), steps)
    ensures AllMayDraw(Run(Initial(base), steps[..i]), steps[i..])
    decreases |steps| - i
  {
    if i < |steps| {
      var s := Run(Initial(base), steps[..i]);
      CounterFollowsTheClock(base, steps[..i], t);
      FewerDraws(steps, i);
      assert steps[i] in steps && FirstPasses(s, steps[i]);
      assert steps[..i + 1] == steps[..i] + [steps[i]];
      assert steps[i..][0] == steps[i] && steps[i..][1..] == steps[i + 1..];
      RunSnoc(Initial(base), steps[..i], steps[i]);
      MayDrawFrom(base, steps, t, i + 1);
    }
  }

  lemma {:induction false} FewerDraws(steps: seq<Step>, i: nat)
    requires i <= |steps|
    ensures DrawsIn(steps[..i]) <= DrawsIn(steps)
  {
    if i < |steps| {
      FewerDraws(steps[..|steps| - 1], i);
      assert steps[..|steps| - 1][..i] == steps[..i];
    } else {
      assert steps[..i] == steps;
    }
  }

  /** A signer that restarts, with a clock past the last one's by more than the draws
      it made, may draw, whatever of the last one reached the server or still will. */
  lemma RestartedSignerMayDraw(base: nat, former: seq<Step>, t: nat, s: State, floor: nat)
    requires ClocksUpTo(former, t) && base <= t + DrawsIn(former) < floor <= U64_MAX
    requires var was := Run(Initial(base), former);
             s.base <= was.highest || (exists turn :: turn in was.network && s.base == was.network[turn])
    requires s.drawn == map[]
    ensures MayDraw(s, Draw(floor))
  {
    CounterFollowsTheClock(base, former, t);
  }

  /** `n` writes in turn, all at one moment of the clock. */
  function Burst(t: nat, n: nat): seq<Step> {
    if n == 0 then [] else Burst(t, n - 1) + [Ask, Grant, Draw(t)] + [Send, Arrive(n - 1), Release]
  }

  lemma {:induction false} BurstIsAccepted(base: nat, t: nat, n: nat)
    requires base < t && 0 < n && t + n <= U64_MAX
    ensures var s := Run(Initial(base), Burst(t, n));
            s.last == s.highest == t + n - 1 && s.holder.None? && s.waiting == [] && |s.granted| == n
  {
    var s := if n == 1 then Initial(base) else Run(Initial(base), Burst(t, n - 1));
    if n > 1 { BurstIsAccepted(base, t, n - 1); }
    var s3 := Do(Do(Do(s, Ask), Grant), Draw(t));
    assert s3.holder.value.number == n - 1 && s3.holder.value.progress == Drawn(t + n - 1);
    var s6 := Do(Do(Do(s3, Send), Arrive(n - 1)), Release);
    assert s6.highest == t + n - 1;
    RunAppend(Initial(base), Burst(t, n - 1) + [Ask, Grant, Draw(t)], [Send, Arrive(n - 1), Release]);
    RunAppend(Initial(base), Burst(t, n - 1), [Ask, Grant, Draw(t)]);
    RunThree(s, Ask, Grant, Draw(t));
    RunThree(s3, Send, Arrive(n - 1), Release);
  }

  /** Many writes at once run ahead of the clock: a signer that restarts before the clock
      has caught up does not pick up above, and one that restarts after does. */
  lemma RestartPicksUpAboveIff(base: nat, t: nat, n: nat, later: nat)
    requires base < t && 0 < n && t + n <= U64_MAX && later <= U64_MAX
    ensures var s := Run(Initial(Run(Initial(base), Burst(t, n)).highest), [Ask, Grant]);
            MayDraw(s, Draw(later)) <==> later >= t + n
  {
    var b := Run(Initial(base), Burst(t, n)).highest;
    BurstIsAccepted(base, t, n);
    assert [Ask, Grant][1..] == [Grant] && [Grant][1..] == [];
    assert Run(Do(Initial(b), Ask), [Grant]) == Run(Do(Do(Initial(b), Ask), Grant), []);
  }

  // ----- at the ceiling -----------------------------------------------------------------------

  /** One write has drawn the ceiling and been accepted, and the next has its turn. */
  function ToTheCeiling(): seq<Step> {
    [Ask, Grant, Draw(U64_MAX), Send, Arrive(0), Release, Ask, Grant]
  }

  lemma CeilingIsReached(base: nat)
    requires base < U64_MAX
    ensures var s := Run(Initial(base), ToTheCeiling());
            s.last == s.highest == U64_MAX && s.holder == Some(Turn(1, 1, Signing)) && |s.verdicts| == 1
  {
    var s3 := Do(Do(Do(Initial(base), Ask), Grant), Draw(U64_MAX));
    assert s3.holder == Some(Turn(0, 0, Drawn(U64_MAX)));
    var s5 := Do(Do(s3, Send), Arrive(0));
    assert s5.highest == U64_MAX && |s5.verdicts| == 1;
    var s8 := Do(Do(Do(s5, Release), Ask), Grant);
    var steps := ToTheCeiling();
    assert steps == [Ask, Grant, Draw(U64_MAX)] + ([Send, Arrive(0)] + [Release, Ask, Grant]);
    RunAppend(Initial(base), [Ask, Grant, Draw(U64_MAX)], [Send, Arrive(0)] + [Release, Ask, Grant]);
    RunAppend(s3, [Send, Arrive(0)], [Release, Ask, Grant]);
    RunThree(Initial(base), Ask, Grant, Draw(U64_MAX));
    RunThree(s5, Release, Ask, Grant);
    assert Run(s3, [Send, Arrive(0)]) == Run(Do(s3, Send), [Arrive(0)]) == Run(s5, []);
  }

  lemma {:induction false} RunAppend(s: State, a: seq<Step>, b: seq<Step>)
    ensures Run(s, a + b) == Run(Run(s, a), b)
    decreases |a|
  {
    if a == [] {
      assert a + b == b;
    } else {
      assert (a + b)[1..] == a[1..] + b;
      RunAppend(Do(s, a[0]), a[1..], b);
    }
  }

  lemma RunThree(s: State, a: Step, b: Step, c: Step)
    ensures Run(s, [a, b, c]) == Do(Do(Do(s, a), b), c)
  {
    assert [a, b, c][1..] == [b, c] && [b, c][1..] == [c] && [c][1..] == [];
    assert Run(Do(Do(s, a), b), [c]) == Run(Do(Do(Do(s, a), b), c), []);
  }

  /** At the ceiling the counter repeats itself: once the server has seen it, a
      write is rejected even though its caller holds the turn. */
  lemma AtTheCeilingHeldWritesAreRejected(s: State, floor: nat)
    requires s.last == s.highest == U64_MAX && floor <= U64_MAX
    requires s.holder.Some? && s.holder.value.progress.Signing?
    ensures var v := Do(Do(Do(s, Draw(floor)), Send), Arrive(s.holder.value.number)).verdicts;
            |v| == |s.verdicts| + 1 && v[|s.verdicts|].held && !v[|s.verdicts|].accepted
  {
    var t := s.holder.value.number;
    var drawn := Do(s, Draw(floor));
    assert drawn.holder == Some(s.holder.value.(progress := Drawn(U64_MAX)));
    var sent := Do(drawn, Send);
    assert t in sent.network && sent.network[t] == U64_MAX;
  }
}
