/** What a limiter promises across the back-offs of a server: the tokens that
    refill during a block can all be spent at its end, and no more than that. */
module Bursts {
  import opened Common
  import opened RateLimiting

  /** Total cost promised for a time in `[lo, hi]` by everything that takes the lock. */
  function CostSent(b: Bucket, ops: seq<Op>, lo: real, hi: real): real
    requires b.refill > 0.0
    decreases |ops|
  {
    if ops == [] then 0.0
    else Spent(b, ops[0], lo, hi) + CostSent(Apply(b, true, ops[0]), ops[1..], lo, hi)
  }

  function Spent(b: Bucket, op: Op, lo: real, hi: real): real
    requires b.refill > 0.0
  {
    if op.Reserve? && op.cost > 0.0 && lo <= Promised(b, Call(op.now, op.cost)) <= hi then op.cost else 0.0
  }

  /** Reservations within the capacity, and `429`s that block and do nothing else, in
      lock order; no wait so long that it saturates. */
  ghost predicate Blocking(b: Bucket, clock: real, ops: seq<Op>)
    requires b.refill > 0.0
    decreases |ops|
  {
    ops == [] || (OneBlocking(b, clock, ops[0]) && Blocking(Apply(b, true, ops[0]), ops[0].now, ops[1..]))
  }

  predicate OneBlocking(b: Bucket, clock: real, op: Op)
    requires b.refill > 0.0
  {
    clock <= op.now &&
    match op
    case Reserve(now, cost) => cost <= b.capacity && TokenWait(b, cost, now) < LONGEST_WAIT
    case Note(_, throttle, _) => BlockOnly(throttle) && Waits(throttle)
    case Sync(_, _, _) => false
  }

  /** A block reaches at most 300 s ahead. */
  predicate NearBlock(b: Bucket, clock: real) {
    b.updated <= clock && (b.blockedUntil.Some? ==> b.blockedUntil.value <= clock + MAX_RETRY_AFTER)
  }

  lemma BlockingKeeps(b: Bucket, clock: real, op: Op)
    requires Valid(b) && !b.unlimited && NearBlock(b, clock) && OneBlocking(b, clock, op)
    ensures var b' := Apply(b, true, op);
            Valid(b') && !b'.unlimited && b'.capacity == b.capacity && b'.refill == b.refill && NearBlock(b', op.now)
  {
    if op.Note? { HintIsBounded(op.throttle, op.epoch); }
  }

  /** A call takes its cost out of what there will be at `hi`, and can be afforded. */
  lemma CallTakes(b: Bucket, c: Call, hi: real)
    requires Valid(b) && !b.unlimited && b.updated <= c.now && 0.0 < c.cost
    requires TokenWait(b, c.cost, c.now) < LONGEST_WAIT
    ensures var b' := Reserved(b, true, c.cost, c.now);
            && LevelAt(b', hi) + c.cost <= LevelAt(b, hi)
            && (Promised(b, c) <= hi ==> 0.0 <= LevelAt(b', hi))
  {
    var b', p := Reserved(b, true, c.cost, c.now), Promised(b, c);
    RefilledAtMost(b, c.now);
    LaterLevels(Refilled(b, c.now), b.tokens, b.updated, c.now, hi, b.refill);
    PromiseIsAfforded(b, c);
    LevelsAdd(b', p, hi);
  }

  lemma LevelsAdd(b: Bucket, x: real, y: real)
    requires b.refill > 0.0
    ensures LevelAt(b, y) == LevelAt(b, x) + Gain(b.refill, x, y)
    ensures x <= y ==> LevelAt(b, x) <= LevelAt(b, y)
  {
    GainsAdd(b.refill, b.updated, x, y);
    GainsAdd(b.refill, x, y, y);
  }

  lemma OpTakes(b: Bucket, clock: real, op: Op, lo: real, hi: real)
    requires Valid(b) && !b.unlimited && NearBlock(b, clock) && OneBlocking(b, clock, op)
    ensures Spent(b, op, lo, hi) + Max(0.0, LevelAt(Apply(b, true, op), hi)) <= Max(0.0, LevelAt(b, hi))
  {
    if op.Reserve? && op.cost > 0.0 { CallTakes(b, Call(op.now, op.cost), hi); }
  }

  /** From now on, no more is promised up to `hi` than there will be then. */
  lemma {:induction false} NoMoreThanTheLevel(b: Bucket, clock: real, ops: seq<Op>, lo: real, hi: real)
    requires Valid(b) && !b.unlimited && NearBlock(b, clock) && Blocking(b, clock, ops)
    ensures CostSent(b, ops, lo, hi) <= Max(0.0, LevelAt(b, hi))
    decreases |ops|
  {
    if ops != [] {
      var op := ops[0];
      BlockingKeeps(b, clock, op);
      OpTakes(b, clock, op, lo, hi);
      NoMoreThanTheLevel(Apply(b, true, op), op.now, ops[1..], lo, hi);
    }
  }

  lemma LevelIsGain(b: Bucket, at: real)
    ensures LevelAt(b, at) == b.tokens + Gain(b.refill, b.updated, at)
  {
  }

  /** Reserved not long before a window: all there can be is a full bucket and the refill since. */
  lemma ReservedLately(b: Bucket, c: Call, from: real, hi: real)
    requires Valid(b) && !b.unlimited && b.updated <= c.now && 0.0 < c.cost && from <= c.now
    ensures LevelAt(Reserved(b, true, c.cost, c.now), hi) + c.cost <= b.capacity + Gain(b.refill, from, hi)
  {
    LevelIsGain(Reserved(b, true, c.cost, c.now), hi);
    GainsAdd(b.refill, from, c.now, hi);
  }

  /** Reserved long before, it has been waiting for tokens, and takes all there are. */
  lemma ReservedLongAgo(b: Bucket, clock: real, c: Call, lo: real, hi: real)
    requires Valid(b) && !b.unlimited && NearBlock(b, clock) && clock <= c.now < lo - MAX_RETRY_AFTER
    requires 0.0 < c.cost && TokenWait(b, c.cost, c.now) < LONGEST_WAIT && lo <= Promised(b, c) <= hi
    ensures LevelAt(Reserved(b, true, c.cost, c.now), hi) <= Gain(b.refill, lo, hi)
  {
    var b', p := Reserved(b, true, c.cost, c.now), Promised(b, c);
    PromiseIsAfforded(b, c);
    assert p > Floor(b');
    LevelsAdd(b', p, hi);
    GainsAdd(b.refill, lo, p, hi);
  }

  /** What the first call promised into a window leaves for the rest of it. */
  lemma FirstInTheWindow(b: Bucket, clock: real, c: Call, lo: real, hi: real)
    requires Valid(b) && !b.unlimited && NearBlock(b, clock) && clock <= c.now
    requires 0.0 < c.cost <= b.capacity && TokenWait(b, c.cost, c.now) < LONGEST_WAIT && lo <= Promised(b, c) <= hi
    ensures LevelAt(Reserved(b, true, c.cost, c.now), hi) + c.cost
         <= b.capacity + Gain(b.refill, lo - MAX_RETRY_AFTER, hi)
  {
    if c.now >= lo - MAX_RETRY_AFTER {
      ReservedLately(b, c, lo - MAX_RETRY_AFTER, hi);
    } else {
      ReservedLongAgo(b, clock, c, lo, hi);
      GainsAdd(b.refill, lo - MAX_RETRY_AFTER, lo, hi);
    }
  }

  /** Whatever the server blocks and however often, the cost promised into a window
      is at most the capacity plus the refill over the window and the 300 s before. */
  lemma {:induction false} RateBoundAcrossBlocks(b: Bucket, clock: real, ops: seq<Op>, lo: real, hi: real)
    requires Valid(b) && !b.unlimited && NearBlock(b, clock) && Blocking(b, clock, ops) && lo <= hi
    ensures CostSent(b, ops, lo, hi) <= b.capacity + Gain(b.refill, lo - MAX_RETRY_AFTER, hi)
    decreases |ops|
  {
    GainsAdd(b.refill, lo - MAX_RETRY_AFTER, hi, hi);
    if ops != [] {
      var op := ops[0];
      BlockingKeeps(b, clock, op);
      if Spent(b, op, lo, hi) > 0.0 {
        var c := Call(op.now, op.cost);
        FirstInTheWindow(b, clock, c, lo, hi);
        CallTakes(b, c, hi);
        NoMoreThanTheLevel(Apply(b, true, op), op.now, ops[1..], lo, hi);
      } else {
        RateBoundAcrossBlocks(Apply(b, true, op), op.now, ops[1..], lo, hi);
      }
    }
  }

  /** A `429` on a full bucket leaves one that refills beyond its capacity before the
      block is over. */
  lemma ThrottlingAFullBucket(b: Bucket, t: Throttle, epoch: Option<nat>, now: real)
    requires Valid(b) && !b.unlimited && b.tokens == b.capacity && b.updated <= now && BlockOnly(t)
    requires HintedWait(t, epoch, 0.0) > 0.0
    ensures !Banked(Throttled(b, t, epoch, now))
  {
    var b' := Throttled(b, t, epoch, now);
    assert b'.tokens == b.capacity && b'.updated == b.updated < Floor(b');
    GainIsPositive(b'.refill, b'.updated, Floor(b'));
    LevelIsGain(b', Floor(b'));
  }

  /** So it happens to a limiter that has just been made, and from there a run breaks
      the bound without the 300 s. */
  lemma FirstThrottleBreaksTheBound(rps: real, wait: real, made: real, now: real)
    requires rps > 0.0 && 0.0 < wait && made <= now
    ensures var full := Bucket(false, rps, rps, rps, made, None);
            var b := Throttled(full, Throttle(Some(wait), None, None, None), None, now);
            b.refill > 0.0 && exists calls, lo, hi :: !RateBounded(b, calls, lo, hi)
  {
    var full := Bucket(false, rps, rps, rps, made, None);
    var t := Throttle(Some(wait), None, None, None);
    ThrottlingAFullBucket(full, t, None, now);
    RateBoundIff(Throttled(full, t, None, now));
  }
}
