/** Reconnect backoff: capped exponential growth with full jitter
    (`src/ws/backoff.rs`). Durations and factors are exact reals. */
module Backoff {
  import opened Common
  import SplitMix

  /** Seconds at which the source's duration type overflows. */
  const DURATION_LIMIT: real := 0x1_0000_0000_0000_0000 as real

  datatype Policy = Policy(initial: real, max: real, multiplier: real, jitter: bool)

  /** What the builders guarantee: durations, and no shrinking. */
  predicate ValidPolicy(p: Policy) {
    0.0 <= p.initial < DURATION_LIMIT && 0.0 <= p.max < DURATION_LIMIT && 1.0 <= p.multiplier
  }

  /** Multiply, clamping to `cap`; an unrepresentable product is the cap. */
  function Scale(d: real, factor: real, cap: real): real {
    if d * factor >= DURATION_LIMIT then cap else Min(d * factor, cap)
  }

  function DelayFor(p: Policy, ceiling: real, unit: real): real {
    var top := Min(ceiling, p.max);
    if p.jitter then Scale(top, unit, top) else top
  }

  function Grown(p: Policy, ceiling: real): real { Scale(Min(ceiling, p.max), p.multiplier, p.max) }

  /** The ceiling after `n` draws since the start or the last reset. */
  function CeilingAfter(p: Policy, n: nat): real {
    Repeat(ceiling => Grown(p, ceiling), p.initial, n)
  }

  function Power(x: real, n: nat): real { if n == 0 then 1.0 else Power(x, n - 1) * x }

  function Exponential(p: Policy, n: nat): real { Min(p.max, p.initial * Power(p.multiplier, n)) }

  /** The saturating, step-by-step ceiling is the closed form, overflow included. */
  lemma CeilingIsExponential(p: Policy, n: nat)
    requires ValidPolicy(p)
    ensures Min(CeilingAfter(p, n), p.max) == Exponential(p, n)
  {
    CeilingIsCappedGrowth(p, n);
    GrowthIsPower(p, n);
  }

  /** Growth without the cap. */
  function Growth(p: Policy, n: nat): real { Repeat(x => x * p.multiplier, p.initial, n) }

  function Repeat(f: real -> real, x: real, n: nat): real { if n == 0 then x else f(Repeat(f, x, n - 1)) }

  lemma {:induction false} GrowthIsPower(p: Policy, n: nat)
    ensures Growth(p, n) == p.initial * Power(p.multiplier, n)
  {
    if n > 0 {
      GrowthIsPower(p, n - 1);
      Associate(p.initial, Power(p.multiplier, n - 1), p.multiplier);
    }
  }

  /** Capping at every step or once at the end: the same, when one step agrees. */
  lemma {:induction false} CapCommutes(step: real -> real, grow: real -> real, x: real, cap: real, n: nat)
    requires 0.0 <= x
    requires forall c, g :: 0.0 <= g && Min(c, cap) == Min(cap, g) ==>
            0.0 <= grow(g) && Min(step(c), cap) == Min(cap, grow(g))
    ensures 0.0 <= Repeat(grow, x, n) && Min(Repeat(step, x, n), cap) == Min(cap, Repeat(grow, x, n))
  {
    if n > 0 {
      CapCommutes(step, grow, x, cap, n - 1);
    }
  }

  lemma CeilingIsCappedGrowth(p: Policy, n: nat)
    requires ValidPolicy(p)
    ensures Min(CeilingAfter(p, n), p.max) == Min(p.max, Growth(p, n))
  {
    var step, grow := (c: real) => Grown(p, c), (x: real) => x * p.multiplier;
    forall c: real, g: real | 0.0 <= g && Min(c, p.max) == Min(p.max, g)
      ensures 0.0 <= grow(g) && Min(step(c), p.max) == Min(p.max, grow(g))
    {
      Nonnegative(g, p.multiplier);
      OneStep(p, c, g);
    }
    CapCommutes(step, grow, p.initial, p.max, n);
  }

  lemma OneStep(p: Policy, ceiling: real, x: real)
    requires ValidPolicy(p) && 0.0 <= x && Min(ceiling, p.max) == Min(p.max, x)
    ensures Min(Grown(p, ceiling), p.max) == Min(p.max, x * p.multiplier)
  {
    GrownFrom(x, p.multiplier, p.max);
  }

  lemma GrownFrom(x: real, m: real, cap: real)
    requires 0.0 <= x && 1.0 <= m && 0.0 <= cap < DURATION_LIMIT
    ensures Min(Scale(Min(cap, x), m, cap), cap) == Min(cap, x * m)
  {
    var d := Min(cap, x);
    if x < cap {
      assert d == x && d * m == x * m;
    } else {
      Grows(cap, m);
      Grows(x, m);
      assert d == cap && d * m == cap * m;
    }
  }

  lemma Associate(x: real, y: real, z: real)
    ensures (x * y) * z == x * (y * z)
  {
  }

  lemma Nonnegative(x: real, y: real)
    requires 0.0 <= x && 0.0 <= y
    ensures 0.0 <= x * y
  {
  }

  lemma Grows(x: real, m: real)
    requires x >= 0.0 && m >= 1.0
    ensures x * m >= x
  {
    assert x * m - x == x * (m - 1.0);
  }

  lemma {:induction false} PowerIsPositive(x: real, n: nat)
    requires x >= 1.0
    ensures Power(x, n) >= 1.0
  {
    if n > 0 {
      PowerIsPositive(x, n - 1);
      Grows(Power(x, n - 1), x);
    }
  }

  /** Delays with jitter off never shrink until a reset. */
  lemma ExponentialIsMonotone(p: Policy, n: nat)
    requires ValidPolicy(p)
    ensures 0.0 <= Exponential(p, n) <= Exponential(p, n + 1) <= p.max
  {
    var power := Power(p.multiplier, n);
    PowerIsPositive(p.multiplier, n);
    var x, y := p.initial * power, p.initial * Power(p.multiplier, n + 1);
    Nonnegative(p.initial, power);
    Associate(p.initial, power, p.multiplier);
    assert y == x * p.multiplier;
    Grows(x, p.multiplier);
    assert 0.0 <= x <= y;
  }

  /** A jittered delay never exceeds its ceiling. */
  lemma JitterStaysUnderCeiling(p: Policy, n: nat, unit: real)
    requires ValidPolicy(p) && 0.0 <= unit < 1.0
    ensures 0.0 <= DelayFor(p, CeilingAfter(p, n), unit) <= Exponential(p, n)
    ensures !p.jitter ==> DelayFor(p, CeilingAfter(p, n), unit) == Exponential(p, n)
  {
    CeilingIsExponential(p, n);
    ExponentialIsMonotone(p, n);
    Nonnegative(Exponential(p, n), unit);
  }

  /** Jitter leaves nothing out: every delay below the ceiling comes of a sample, the larger
      the longer. */
  lemma EveryDelayIsPossible(p: Policy, n: nat, delay: real)
    requires ValidPolicy(p) && p.jitter && 0.0 <= delay < Exponential(p, n)
    ensures exists unit :: 0.0 <= unit < 1.0 && DelayFor(p, CeilingAfter(p, n), unit) == delay
  {
    var top := Exponential(p, n);
    CeilingIsExponential(p, n);
    ExponentialIsMonotone(p, n);
    Fraction(delay, top);
    ScaledBack(top, delay / top, delay);
    assert DelayFor(p, CeilingAfter(p, n), delay / top) == delay;
  }

  lemma Fraction(x: real, y: real)
    requires 0.0 <= x < y
    ensures 0.0 <= x / y < 1.0 && y * (x / y) == x
  {
  }

  lemma ScaledBack(top: real, unit: real, delay: real)
    requires top * unit == delay && 0.0 <= delay < top < DURATION_LIMIT
    ensures Scale(top, unit, top) == delay
  {
  }

  /** A delay that draw number `n` may produce: exactly the capped exponential
      with jitter off, at most that with jitter on. */
  predicate MayWait(p: Policy, n: nat, delay: real) {
    0.0 <= delay <= Exponential(p, n) && (!p.jitter ==> delay == Exponential(p, n))
  }

  // ----- the delay sequence -------------------------------------------------------------

  /** What the next delay depends on: the ceiling and the generator's word. */
  datatype Timer = Timer(ceiling: real, word: SplitMix.Bits)

  function DelayOf(p: Policy, t: Timer): real {
    DelayFor(p, t.ceiling, SplitMix.Unit(SplitMix.Draw(t.word, 1)))
  }

  function AfterDraw(p: Policy, t: Timer): Timer {
    Timer(Grown(p, t.ceiling), if p.jitter then SplitMix.Word(t.word, 1) else t.word)
  }

  function AfterReset(p: Policy, t: Timer): Timer { t.(ceiling := p.initial) }

  /** What a loop needs to know of its timer: the next delay, and the timer after
      that draw and after a reset. */
  datatype Rhythm = Rhythm(delay: Timer -> real, next: Timer -> Timer, reset: Timer -> Timer)

  ghost predicate Follows(r: Rhythm, p: Policy) {
    && (forall t {:trigger DelayOf(p, t)} :: r.delay(t) == DelayOf(p, t))
    && (forall t {:trigger AfterDraw(p, t)} :: r.next(t) == AfterDraw(p, t))
    && (forall t {:trigger AfterReset(p, t)} :: r.reset(t) == AfterReset(p, t))
  }

  /** `n` delays have been drawn since the start or the last reset. */
  predicate Drawn(p: Policy, t: Timer, n: nat) { t.ceiling == CeilingAfter(p, n) }

  lemma NthDelay(p: Policy, t: Timer, n: nat)
    requires ValidPolicy(p) && Drawn(p, t, n)
    ensures MayWait(p, n, DelayOf(p, t)) && Drawn(p, AfterDraw(p, t), n + 1)
  {
    SplitMix.DrawsAreFractions(t.word, 1);
    JitterStaysUnderCeiling(p, n, SplitMix.Unit(SplitMix.Draw(t.word, 1)));
  }

  class BackoffIter {
    const policy: Policy
    const rng: SplitMix.Rng
    var ceiling: real
    ghost const rhythm: Rhythm

    constructor (policy: Policy, seed: SplitMix.Bits)
      ensures this.policy == policy && fresh(rng) && Follows(rhythm, policy)
      ensures State() == Timer(policy.initial, seed) && Drawn(policy, State(), 0)
    {
      this.policy := policy;
      rhythm := Rhythm(t => DelayOf(policy, t), t => AfterDraw(policy, t), t => AfterReset(policy, t));
      ceiling := policy.initial;
      rng := new SplitMix.Rng(seed);
    }

    function State(): Timer
      reads this, rng
    {
      Timer(ceiling, rng.word)
    }

    method NextDelay() returns (delay: real)
      requires Follows(rhythm, policy)
      modifies this, rng
      ensures delay == rhythm.delay(old(State())) && State() == rhythm.next(old(State()))
    {
      assert rhythm.delay(State()) == DelayOf(policy, State()) && rhythm.next(State()) == AfterDraw(policy, State());
      var top := Min(ceiling, policy.max);
      if policy.jitter {
        var drawn := rng.NextUnit();
        delay := Scale(top, drawn, top);
      } else {
        delay := top;
      }
      ceiling := Scale(top, policy.multiplier, policy.max);
    }

    method Reset()
      requires Follows(rhythm, policy)
      modifies this`ceiling
      ensures State() == rhythm.reset(old(State()))
    {
      assert rhythm.reset(State()) == AfterReset(policy, State());
      ceiling := policy.initial;
    }
  }
}
