/** The client-side rate limiter: a cost-weighted token bucket and the back-off
    a `429` imposes (`src/ratelimit.rs`). Tokens and time are exact reals, and
    `now` is the clock read under the lock, so it never goes back between calls. */
module RateLimiting {
  import opened Common

  /** Ceiling on any server-supplied back-off, in seconds. */
  const MAX_RETRY_AFTER: real := 300.0

  /** Seconds the source's duration type can hold; longer waits saturate. */
  const LONGEST_WAIT: real := 0x1_0000_0000_0000_0000 as real

  datatype Bucket = Bucket(
    unlimited: bool, capacity: real, refill: real, tokens: real, updated: real,
    blockedUntil: Option<real>)

  /** The signal on a `429`: `Retry-After` and `X-RateLimit-Reset` in seconds,
      and the limits the server reports. */
  datatype Throttle = Throttle(retryAfter: Option<real>, limit: Option<nat>, remaining: Option<nat>, reset: Option<int>)

  predicate Valid(b: Bucket) { b.refill > 0.0 && b.capacity > 0.0 && b.tokens <= b.capacity }

  // ----- reserve ---------------------------------------------------------------------------

  function Refilled(b: Bucket, now: real): real {
    Min(b.tokens + Max(0.0, now - b.updated) * b.refill, b.capacity)
  }

  function BlockWait(b: Bucket, now: real): real {
    if b.blockedUntil.Some? && b.blockedUntil.value > now then b.blockedUntil.value - now else 0.0
  }

  function TokenWait(b: Bucket, cost: real, now: real): real
    requires b.refill > 0.0
  {
    var tokens := Refilled(b, now);
    if tokens < cost then Min((cost - tokens) / b.refill, LONGEST_WAIT) else 0.0
  }

  function Wait(b: Bucket, enabled: bool, cost: real, now: real): real
    requires b.refill > 0.0
  {
    if !enabled || cost <= 0.0 || b.unlimited then 0.0
    else Max(BlockWait(b, now), TokenWait(b, cost, now))
  }

  function Reserved(b: Bucket, enabled: bool, cost: real, now: real): Bucket {
    if !enabled || cost <= 0.0 || b.unlimited then b
    else b.(tokens := Refilled(b, now) - cost, updated := now,
            blockedUntil := if b.blockedUntil.Some? && b.blockedUntil.value > now then b.blockedUntil else None)
  }

  // ----- what the server says ---------------------------------------------------------------

  /** How long to wait: `Retry-After`, else the time to the reset, else the
      fallback. `epoch` is the wall clock in seconds, when it is readable. */
  function HintedWait(t: Throttle, epoch: Option<nat>, fallback: real): real {
    if t.retryAfter.Some? then Min(t.retryAfter.value, MAX_RETRY_AFTER)
    else if t.reset.Some? && epoch.Some? && t.reset.value > epoch.value then
      Min((t.reset.value - epoch.value) as real, MAX_RETRY_AFTER)
    else fallback
  }

  function Blocked(b: Bucket, wait: real, now: real): Bucket {
    if wait == 0.0 then b
    else if b.blockedUntil.Some? && b.blockedUntil.value > now + wait then b
    else b.(blockedUntil := Some(now + wait))
  }

  function Limited(b: Bucket, limit: Option<nat>): Bucket {
    if limit.Some? && limit.value > 0 then
      b.(unlimited := false, capacity := limit.value as real, refill := limit.value as real)
    else b
  }

  function Throttled(b: Bucket, t: Throttle, epoch: Option<nat>, now: real): Bucket {
    var limited := Limited(Blocked(b, HintedWait(t, epoch, 0.0), now), t.limit);
    if t.remaining.Some? then limited.(tokens := Min(t.remaining.value as real, limited.capacity), updated := now)
    else limited
  }

  function Synced(b: Bucket, limit: Option<nat>, remaining: Option<nat>, now: real): Bucket {
    var limited := if limit.None? then b.(unlimited := true) else Limited(b, limit);
    if remaining.Some? then
      limited.(tokens := if limited.unlimited then remaining.value as real
                         else Min(remaining.value as real, limited.capacity),
               updated := now)
    else limited
  }

  // ----- promised send times --------------------------------------------------------------

  /** One call under the lock: when, and for what. */
  datatype Call = Call(now: real, cost: real)

  function Promised(b: Bucket, c: Call): real
    requires b.refill > 0.0
  {
    c.now + Wait(b, true, c.cost, c.now)
  }

  /** Calls in lock order: the clock does not run back, and no cost exceeds the
      capacity. Free calls never wait and never touch the bucket. */
  ghost predicate Orderly(b: Bucket, calls: seq<Call>) {
    && (forall i :: 0 <= i < |calls| ==> b.updated <= calls[i].now && calls[i].cost <= b.capacity)
    && (forall i, j :: 0 <= i < j < |calls| ==> calls[i].now <= calls[j].now)
  }

  /** A reservation that drew tokens: its promised send time, its cost, and the
      bucket's level at that time once it is paid for. */
  datatype Promise = Promise(at: real, cost: real, level: real)

  function Promises(b: Bucket, calls: seq<Call>): seq<Promise>
    requires b.refill > 0.0
    decreases |calls|
  {
    if calls == [] then []
    else if calls[0].cost <= 0.0 then Promises(b, calls[1..])
    else
      var b' := Reserved(b, true, calls[0].cost, calls[0].now);
      [Promise(Promised(b, calls[0]), calls[0].cost, LevelAt(b', Promised(b, calls[0])))] + Promises(b', calls[1..])
  }

  /** Total cost promised for a time in `[lo, hi]`. */
  function CostIn(ps: seq<Promise>, lo: real, hi: real): real {
    if ps == [] then 0.0
    else (if lo <= ps[0].at <= hi then ps[0].cost else 0.0) + CostIn(ps[1..], lo, hi)
  }

  /** The bucket as it will stand at `at`, the last promised send time: with the
      debt worked off, never below zero, never over the cap. */
  function LevelAt(b: Bucket, at: real): real { b.tokens + (at - b.updated) * b.refill }

  /** The earliest moment a new promise can be for, as seen from the bucket. */
  function Floor(b: Bucket): real {
    if b.blockedUntil.Some? then Max(b.updated, b.blockedUntil.value) else b.updated
  }

  /** The refill during a block does not lift the bucket over its capacity. */
  predicate Banked(b: Bucket) { LevelAt(b, Floor(b)) <= b.capacity }

  ghost predicate Settled(b: Bucket, at: real) {
    && Valid(b) && !b.unlimited && Banked(b)
    && Floor(b) <= at && 0.0 <= LevelAt(b, at) && (at > Floor(b) ==> LevelAt(b, at) == 0.0)
  }

  // ----- the rate bound ----------------------------------------------------------------------

  lemma Product(x: real, y: real, r: real)
    requires r > 0.0
    ensures (x + y) * r == x * r + y * r && (x - y) * r == x * r - y * r
    ensures x <= y ==> x * r <= y * r
    ensures (x / r) * r == x
  {
    assert x <= y ==> (y - x) * r >= 0.0;
  }

  lemma LaterLevels(tokens: real, debt: real, updated: real, now: real, at: real, r: real)
    requires tokens <= debt + (now - updated) * r
    ensures tokens + (at - now) * r <= debt + (at - updated) * r
  {
  }

  /** Without saturation, a reservation is promised for the moment its tokens are
      there and no block is left, and what the bucket holds then, over and above
      the cost, is what the refill makes of the wait. */
  lemma PromiseSettles(b: Bucket, c: Call)
    requires Valid(b) && !b.unlimited && Banked(b) && b.updated <= c.now
    requires 0.0 < c.cost <= b.capacity && TokenWait(b, c.cost, c.now) < LONGEST_WAIT
    ensures var b', p := Reserved(b, true, c.cost, c.now), Promised(b, c);
            Settled(b', p) && p >= c.now && LevelAt(b', p) + c.cost <= b.capacity
            && LevelAt(b', p) == Refilled(b, c.now) - c.cost + (p - c.now) * b.refill
  {
    var b', p := Reserved(b, true, c.cost, c.now), Promised(b, c);
    PromiseIsSum(b, c);
    ReservingStaysBanked(b, c);
    PromiseIsAfforded(b, c);
    assert p > Floor(b') ==> LevelAt(b', p) == 0.0;
    assert p == Floor(b') || p > Floor(b');
  }

  lemma PromiseIsAfforded(b: Bucket, c: Call)
    requires Valid(b) && !b.unlimited && b.updated <= c.now && 0.0 < c.cost
            && TokenWait(b, c.cost, c.now) < LONGEST_WAIT
    ensures var level := LevelAt(Reserved(b, true, c.cost, c.now), Promised(b, c));
            0.0 <= level && (Promised(b, c) > Floor(Reserved(b, true, c.cost, c.now)) ==> level == 0.0)
  {
    PromiseIsSum(b, c);
    WaitAffords(b, c.cost, c.now);
    AffordedWhenDue(Refilled(b, c.now), c.cost, c.now, Promised(b, c), TokenWait(b, c.cost, c.now), b.refill);
  }

  lemma ReservingStaysBanked(b: Bucket, c: Call)
    requires Valid(b) && !b.unlimited && Banked(b) && b.updated <= c.now && 0.0 < c.cost <= b.capacity
    ensures var b' := Reserved(b, true, c.cost, c.now);
            Valid(b') && LevelAt(b', Floor(b')) + c.cost <= b.capacity && c.now <= Floor(b')
  {
    var b' := Reserved(b, true, c.cost, c.now);
    LaterLevels(Refilled(b, c.now), b.tokens, b.updated, c.now, Floor(b'), b.refill);
  }

  /** The promise is for the end of the block or the moment the tokens are there. */
  lemma PromiseIsSum(b: Bucket, c: Call)
    requires Valid(b) && !b.unlimited && b.updated <= c.now && 0.0 < c.cost
    ensures Promised(b, c) == Max(Floor(Reserved(b, true, c.cost, c.now)), c.now + TokenWait(b, c.cost, c.now))
  {
    WaitAffords(b, c.cost, c.now);
  }

  /** A wait for tokens is as long as the refill takes to make up what is missing. */
  lemma WaitAffords(b: Bucket, cost: real, now: real)
    requires b.refill > 0.0
    ensures var wait := TokenWait(b, cost, now);
            && wait >= 0.0
            && (if Refilled(b, now) < cost then wait < LONGEST_WAIT ==> wait * b.refill == cost - Refilled(b, now)
                else wait == 0.0)
  {
    if Refilled(b, now) < cost { Quotient(cost - Refilled(b, now), b.refill); }
  }

  lemma Quotient(x: real, r: real)
    requires r > 0.0 && x > 0.0
    ensures x / r > 0.0 && (x / r) * r == x
  {
  }

  /** What is missing after the wait is what the refill makes of the rest. */
  lemma AffordedWhenDue(tokens: real, cost: real, now: real, p: real, wait: real, r: real)
    requires r > 0.0 && wait >= 0.0 && now + wait <= p
    requires if tokens < cost then wait * r == cost - tokens else wait == 0.0
    ensures 0.0 <= tokens - cost + (p - now) * r
    ensures p == now + wait && wait > 0.0 ==> tokens - cost + (p - now) * r == 0.0
  {
    if tokens >= cost {
      Nonnegative(p - now, r);
    } else if p == now + wait {
      assert p - now == wait;
    } else {
      ProductOrder(wait, p - now, r);
    }
  }

  lemma Nonnegative(x: real, r: real)
    requires x >= 0.0 && r > 0.0
    ensures x * r >= 0.0
  {
  }

  lemma ProductOrder(x: real, y: real, r: real)
    requires r > 0.0
    ensures x * r < y * r <==> x < y
  {
    if x < y { Product(x, y, r); assert (y - x) * r > 0.0; }
    if y <= x { Product(y, x, r); }
  }

  lemma LevelsChain(tokens: real, debt: real, now: real, updated: real, at: real, p: real, r: real)
    requires tokens <= debt + (now - updated) * r
    ensures tokens + (p - now) * r <= debt + (at - updated) * r + (p - at) * r
  {
  }

  lemma SplitSpan(x: real, y: real, z: real, r: real)
    requires r > 0.0
    ensures (y - x) * r + (z - y) * r == (z - x) * r
  {
  }

  /** A debt worked off exactly at `at` cannot afford a cost any earlier. */
  lemma DebtDelays(debt: real, updated: real, at: real, now: real, tokens: real, cost: real, p: real, r: real)
    requires r > 0.0 && cost > 0.0 && debt + (at - updated) * r == 0.0
    requires tokens <= debt + (now - updated) * r && tokens - cost + (p - now) * r >= 0.0
    ensures at <= p
  {
    SplitSpan(updated, now, at, r);
    ProductOrder(at - now, p - now, r);
  }

  /** A bucket in debt until `at` promises nothing before. */
  lemma DebtIsWaitedFor(b: Bucket, at: real, c: Call)
    requires Valid(b) && !b.unlimited && LevelAt(b, at) == 0.0 && b.updated <= c.now && 0.0 < c.cost
    requires TokenWait(b, c.cost, c.now) < LONGEST_WAIT
    ensures at <= Promised(b, c)
  {
    PromiseIsAfforded(b, c);
    RefilledAtMost(b, c.now);
    DebtDelays(b.tokens, b.updated, at, c.now, Refilled(b, c.now), c.cost, Promised(b, c), b.refill);
  }

  lemma PromiseIsLater(b: Bucket, at: real, c: Call)
    requires Settled(b, at) && b.updated <= c.now
    requires 0.0 < c.cost <= b.capacity && TokenWait(b, c.cost, c.now) < LONGEST_WAIT
    ensures at <= Promised(b, c)
  {
    if Floor(b) < at {
      DebtIsWaitedFor(b, at, c);
    } else {
      PromiseIsSum(b, c);
    }
  }

  lemma RefilledAtMost(b: Bucket, now: real)
    requires b.updated <= now
    ensures Refilled(b, now) <= b.tokens + (now - b.updated) * b.refill
  {
  }

  /** From one promise to the next: never earlier, and the level falls by no less
      than the cost beyond what the refill adds in between. */
  lemma NextPromise(b: Bucket, at: real, c: Call)
    requires Settled(b, at) && b.updated <= c.now
    requires 0.0 < c.cost <= b.capacity && TokenWait(b, c.cost, c.now) < LONGEST_WAIT
    ensures var b', p := Reserved(b, true, c.cost, c.now), Promised(b, c);
            at <= p && LevelAt(b', p) + c.cost <= LevelAt(b, at) + Gain(b.refill, at, p)
  {
    PromiseIsLater(b, at, c);
    LevelsChain(Refilled(b, c.now), b.tokens, c.now, b.updated, at, Promised(b, c), b.refill);
  }

  /** No promise so long that it saturates the duration type. */
  predicate Unsaturated(b: Bucket, calls: seq<Call>)
    requires b.refill > 0.0
    decreases |calls|
  {
    calls == [] ||
    (TokenWait(b, calls[0].cost, calls[0].now) < LONGEST_WAIT
     && Unsaturated(Reserved(b, true, calls[0].cost, calls[0].now), calls[1..]))
  }

  function Gain(r: real, from: real, to: real): real { (to - from) * r }

  /** `q` comes no earlier than `p` and takes no more than `p` left and the refill added. */
  predicate Follows(p: Promise, q: Promise, r: real) {
    p.at <= q.at && q.level + q.cost <= p.level + Gain(r, p.at, q.at)
  }

  ghost predicate Chained(ps: seq<Promise>, capacity: real, r: real) {
    && (forall i :: 0 <= i < |ps| ==> 0.0 <= ps[i].level && ps[i].level + ps[i].cost <= capacity && ps[i].cost > 0.0)
    && (forall i {:trigger ps[i]} :: 0 <= i < |ps| - 1 ==> Follows(ps[i], ps[i + 1], r))
  }

  lemma ChainedCons(p: Promise, ps: seq<Promise>, capacity: real, r: real)
    requires Chained(ps, capacity, r) && (ps != [] ==> Follows(p, ps[0], r))
    requires 0.0 <= p.level && p.level + p.cost <= capacity && p.cost > 0.0
    ensures Chained([p] + ps, capacity, r)
  {
  }

  lemma ReservingKeepsOrder(b: Bucket, calls: seq<Call>)
    requires Orderly(b, calls) && calls != []
    ensures Orderly(Reserved(b, true, calls[0].cost, calls[0].now), calls[1..])
  {
  }

  /** `before` stands for the last promise, when there has been one. */
  lemma {:induction false} PromisesAreChained(b: Bucket, before: Option<Promise>, calls: seq<Call>)
    requires Valid(b) && !b.unlimited && Banked(b) && Orderly(b, calls) && Unsaturated(b, calls)
    requires before.Some? ==> Settled(b, before.value.at) && before.value.level == LevelAt(b, before.value.at)
    ensures Chained(Promises(b, calls), b.capacity, b.refill)
    ensures before.Some? && Promises(b, calls) != [] ==> Follows(before.value, Promises(b, calls)[0], b.refill)
    decreases |calls|
  {
    if calls != [] {
      var c := calls[0];
      ReservingKeepsOrder(b, calls);
      if c.cost <= 0.0 {
        PromisesAreChained(b, before, calls[1..]);
      } else {
        PromiseSettles(b, c);
        var b' := Reserved(b, true, c.cost, c.now);
        var p := Promise(Promised(b, c), c.cost, LevelAt(b', Promised(b, c)));
        PromisesAreChained(b', Some(p), calls[1..]);
        ChainedCons(p, Promises(b', calls[1..]), b.capacity, b.refill);
        if before.Some? {
          NextPromise(b, before.value.at, c);
        }
      }
    }
  }

  lemma GainsAdd(r: real, x: real, y: real, z: real)
    requires r > 0.0
    ensures Gain(r, x, y) + Gain(r, y, z) == Gain(r, x, z)
    ensures x <= y ==> Gain(r, x, y) >= 0.0
  {
    Product(x, y, r);
    Product(y, z, r);
  }

  /** After a promise, a chain can cost no more before `hi` than its level plus
      the refill up to `hi`, and nothing if it was already later. */
  lemma {:induction false} CostAfter(p: Promise, ps: seq<Promise>, capacity: real, r: real, lo: real, hi: real)
    requires r > 0.0 && Chained([p] + ps, capacity, r)
    ensures CostIn(ps, lo, hi) <= if p.at <= hi then p.level + Gain(r, p.at, hi) else 0.0
    decreases |ps|
  {
    GainsAdd(r, p.at, hi, hi);
    assert ([p] + ps)[0] == p;
    if ps != [] {
      var q := ps[0];
      assert ([p] + ps)[1] == q && Follows(p, q, r);
      assert ([p] + ps)[1..] == [q] + ps[1..];
      ChainedTail([p] + ps, capacity, r);
      CostAfter(q, ps[1..], capacity, r, lo, hi);
      GainsAdd(r, p.at, q.at, hi);
    }
  }

  lemma ChainedTail(ps: seq<Promise>, capacity: real, r: real)
    requires Chained(ps, capacity, r) && ps != []
    ensures Chained(ps[1..], capacity, r)
  {
    forall i | 0 <= i < |ps[1..]| - 1 ensures Follows(ps[1..][i], ps[1..][i + 1], r) {
      assert Follows(ps[i + 1], ps[i + 2], r);
    }
  }

  lemma {:induction false} CostInWindow(ps: seq<Promise>, capacity: real, r: real, lo: real, hi: real)
    requires r > 0.0 && capacity > 0.0 && lo <= hi && Chained(ps, capacity, r)
    ensures CostIn(ps, lo, hi) <= capacity + Gain(r, lo, hi)
  {
    GainsAdd(r, lo, hi, hi);
    if ps != [] {
      var p := ps[0];
      assert ps == [p] + ps[1..];
      ChainedTail(ps, capacity, r);
      if p.at < lo {
        CostInWindow(ps[1..], capacity, r, lo, hi);
      } else {
        CostAfter(p, ps[1..], capacity, r, lo, hi);
        GainsAdd(r, lo, p.at, hi);
      }
    }
  }

  /** The rate bound: whatever debt the bucket starts with, and with or without a
      block to wait out first, the cost promised into any window is at most the
      capacity plus the refill over the window. */
  lemma RateBound(b: Bucket, calls: seq<Call>, lo: real, hi: real)
    requires Valid(b) && !b.unlimited && Banked(b)
    ensures RateBounded(b, calls, lo, hi)
  {
    if Orderly(b, calls) && Unsaturated(b, calls) && lo <= hi {
      PromisesAreChained(b, None, calls);
      CostInWindow(Promises(b, calls), b.capacity, b.refill, lo, hi);
    }
  }

  ghost predicate RateBounded(b: Bucket, calls: seq<Call>, lo: real, hi: real)
    requires b.refill > 0.0
  {
    Orderly(b, calls) && Unsaturated(b, calls) && lo <= hi ==>
      CostIn(Promises(b, calls), lo, hi) <= b.capacity + Gain(b.refill, lo, hi)
  }

  /** Exactly when it holds: tokens go on refilling during a block, and the bound is
      kept by every run if and only if that does not lift them over the capacity. */
  lemma RateBoundIff(b: Bucket)
    requires Valid(b) && !b.unlimited
    ensures Banked(b) <==> forall calls, lo, hi :: RateBounded(b, calls, lo, hi)
  {
    if Banked(b) {
      forall calls, lo, hi ensures RateBounded(b, calls, lo, hi) { RateBound(b, calls, lo, hi); }
    } else {
      OverdrawnAtTheBlock(b);
    }
  }

  /** The moment the tokens reach the capacity. */
  function FullAt(b: Bucket): real
    requires b.refill > 0.0
  {
    b.updated + (b.capacity - b.tokens) / b.refill
  }

  lemma FullBeforeTheBlockEnds(b: Bucket)
    requires Valid(b) && !Banked(b)
    ensures b.blockedUntil.Some? && b.updated <= FullAt(b) < b.blockedUntil.value
    ensures b.tokens + (FullAt(b) - b.updated) * b.refill == b.capacity
  {
    var missing := b.capacity - b.tokens;
    Product(missing, 0.0, b.refill);
    ProductOrder(missing / b.refill, Floor(b) - b.updated, b.refill);
    Product(0.0, missing / b.refill, b.refill);
  }

  /** Take a full bucket once it is full, and what has refilled by the end of the
      block then: both are promised for that end. */
  lemma OverdrawnAtTheBlock(b: Bucket)
    requires Valid(b) && !b.unlimited && !Banked(b)
    ensures exists calls, lo, hi :: !RateBounded(b, calls, lo, hi)
  {
    FullBeforeTheBlockEnds(b);
    var t, full := b.blockedUntil.value, FullAt(b);
    var c0 := Call(full, b.capacity);
    var b1 := Reserved(b, true, c0.cost, c0.now);
    assert b1 == b.(tokens := 0.0, updated := full) && Promised(b, c0) == t;
    var refilled := Min((t - full) * b.refill, b.capacity);
    ProductOrder(0.0, t - full, b.refill);
    var c1 := Call(t, refilled);
    assert Refilled(b1, t) == refilled > 0.0;
    TwoPromises(b, b1, c0, c1, t);
    assert !RateBounded(b, [c0, c1], t, t);
  }

  lemma TwoPromises(b: Bucket, b1: Bucket, c0: Call, c1: Call, t: real)
    requires Valid(b) && !b.unlimited && c0.cost > 0.0 && c1.cost > 0.0 && c0.cost + c1.cost > b.capacity
    requires b1 == Reserved(b, true, c0.cost, c0.now) && Promised(b, c0) == t && Promised(b1, c1) == t
    requires b.updated <= c0.now <= c1.now && c0.cost <= b.capacity && c1.cost <= b.capacity
    requires TokenWait(b, c0.cost, c0.now) == 0.0 && TokenWait(b1, c1.cost, c1.now) == 0.0
    ensures !RateBounded(b, [c0, c1], t, t)
  {
    var calls := [c0, c1];
    assert calls[1..] == [c1] && [c1][1..] == [];
    var b2 := Reserved(b1, true, c1.cost, c1.now);
    var p0, p1 := Promise(t, c0.cost, LevelAt(b1, t)), Promise(t, c1.cost, LevelAt(b2, t));
    assert Promises(b1, [c1]) == [p1] + Promises(b2, []) == [p1];
    assert Promises(b, calls) == [p0] + [p1];
    assert ([p0] + [p1])[1..] == [p1];
    assert CostIn([p1], t, t) == c1.cost + CostIn([], t, t);
    assert Unsaturated(b1, [c1]);
  }

  // ----- promises in lock order, and the server's word ------------------------------------

  /** Everything that takes the lock. */
  datatype Op =
    | Reserve(now: real, cost: real)
    | Note(now: real, throttle: Throttle, epoch: Option<nat>)
    | Sync(now: real, limit: Option<nat>, remaining: Option<nat>)

  function Apply(b: Bucket, enabled: bool, op: Op): Bucket {
    match op
    case Reserve(now, cost) => Reserved(b, enabled, cost, now)
    case Note(now, throttle, epoch) => Throttled(b, throttle, epoch, now)
    case Sync(now, limit, remaining) => Synced(b, limit, remaining, now)
  }

  /** A `429` that carries a back-off and nothing else. */
  predicate BlockOnly(t: Throttle) { t.limit.None? && t.remaining.None? }

  predicate Waits(t: Throttle) { t.retryAfter.Some? ==> t.retryAfter.value >= 0.0 }

  ghost predicate InLockOrder(clock: real, ops: seq<Op>) {
    && (forall i :: 0 <= i < |ops| ==> clock <= ops[i].now && (ops[i].Note? ==> Waits(ops[i].throttle)))
    && (forall i, j :: 0 <= i < j < |ops| ==> ops[i].now <= ops[j].now)
  }

  /** The promised send times of the reservations that draw tokens. */
  function SendTimes(b: Bucket, ops: seq<Op>): seq<real>
    requires b.refill > 0.0
    decreases |ops|
  {
    if ops == [] then []
    else if ops[0].Reserve? && ops[0].cost > 0.0 then
      [ops[0].now + Wait(b, true, ops[0].cost, ops[0].now)] + SendTimes(Apply(b, true, ops[0]), ops[1..])
    else
      SendTimes(Apply(b, true, ops[0]), ops[1..])
  }

  /** Nothing can be promised before `at`: it is past, or blocked, or unaffordable. */
  ghost predicate NotBefore(b: Bucket, at: real, clock: real) {
    || at <= clock
    || (!b.unlimited && b.blockedUntil.Some? && at <= b.blockedUntil.value)
    || (!b.unlimited && b.updated <= clock && at <= clock + LONGEST_WAIT
         && b.tokens + Gain(b.refill, b.updated, at) <= 0.0)
  }

  /** A refill that leaves a gap of `gain` cannot be waited out in less. */
  lemma Unaffordable(tokens: real, cost: real, now: real, at: real, r: real)
    requires r > 0.0 && cost > 0.0 && now <= at && tokens + Gain(r, now, at) <= 0.0
    ensures now + (cost - tokens) / r >= at
  {
    var wait := (cost - tokens) / r;
    Product(cost - tokens, 0.0, r);
    assert wait * r == cost - tokens;
    ProductOrder(wait, at - now, r);
  }

  lemma PromiseIsNotBefore(b: Bucket, at: real, clock: real, now: real, cost: real)
    requires b.refill > 0.0 && cost > 0.0 && clock <= now && NotBefore(b, at, clock)
    ensures at <= now + Wait(b, true, cost, now)
  {
    if now < at && !(b.blockedUntil.Some? && at <= b.blockedUntil.value) {
      GainsAdd(b.refill, b.updated, now, at);
      Unaffordable(Refilled(b, now), cost, now, at, b.refill);
    }
  }

  lemma PromiseHoldsAfter(b: Bucket, now: real, cost: real)
    requires Valid(b) && !b.unlimited && cost > 0.0
    ensures NotBefore(Reserved(b, true, cost, now), now + Wait(b, true, cost, now), now)
    ensures Valid(Reserved(b, true, cost, now))
  {
    var tokens, wait := Refilled(b, now), TokenWait(b, cost, now);
    if tokens < cost {
      Product(cost - tokens, 0.0, b.refill);
      var full := (cost - tokens) / b.refill;
      assert full * b.refill == cost - tokens;
      Product(wait, full, b.refill);
      assert Gain(b.refill, now, now + wait) == wait * b.refill;
    }
  }

  lemma OpKeepsNotBefore(b: Bucket, at: real, clock: real, op: Op)
    requires Valid(b) && !b.unlimited && NotBefore(b, at, clock) && clock <= op.now
    requires op.Reserve? ==> op.cost <= 0.0
    requires (op.Note? && BlockOnly(op.throttle)) || op.Reserve?
    ensures var b' := Apply(b, true, op);
            Valid(b') && !b'.unlimited && NotBefore(b', at, op.now)
  {
  }

  /** First in, first out: in lock order, and across any mix of reservations and
      block-only `429`s, promised send times never decrease. */
  lemma {:induction false} PromisesAreFifo(b: Bucket, at: real, clock: real, ops: seq<Op>)
    requires Valid(b) && !b.unlimited && NotBefore(b, at, clock) && InLockOrder(clock, ops)
    requires forall i :: 0 <= i < |ops| ==> !ops[i].Sync? && (ops[i].Note? ==> BlockOnly(ops[i].throttle))
    ensures forall i, j :: 0 <= i <= j < |SendTimes(b, ops)| ==> at <= SendTimes(b, ops)[i] <= SendTimes(b, ops)[j]
    decreases |ops|
  {
    if ops != [] {
      var op := ops[0];
      var b' := Apply(b, true, op);
      if op.Reserve? && op.cost > 0.0 {
        var p := op.now + Wait(b, true, op.cost, op.now);
        PromiseIsNotBefore(b, at, clock, op.now, op.cost);
        PromiseHoldsAfter(b, op.now, op.cost);
        PromisesAreFifo(b', p, op.now, ops[1..]);
        assert SendTimes(b, ops) == [p] + SendTimes(b', ops[1..]);
      } else {
        OpKeepsNotBefore(b, at, clock, op);
        PromisesAreFifo(b', at, op.now, ops[1..]);
      }
    }
  }

  // ----- what a re-tune does to the order --------------------------------------------------

  predicate Due(b: Bucket, at: real, now: real, cost: real)
    requires b.refill > 0.0
  {
    cost > 0.0 ==> at <= now + Wait(b, true, cost, now)
  }

  /** No later call that costs anything is promised for a time before `at`. */
  ghost predicate InOrder(b: Bucket, at: real, clock: real)
    requires b.refill > 0.0
  {
    forall now, cost :: clock <= now ==> Due(b, at, now, cost)
  }

  /** `NotBefore` is exact. */
  lemma InOrderIff(b: Bucket, at: real, clock: real)
    requires b.refill > 0.0 && b.capacity > 0.0 && b.updated <= clock
    ensures InOrder(b, at, clock) <==> NotBefore(b, at, clock)
  {
    if NotBefore(b, at, clock) {
      forall now, cost | clock <= now ensures Due(b, at, now, cost) {
        if cost > 0.0 { PromiseIsNotBefore(b, at, clock, now, cost); }
      }
    } else {
      var spare := Spare(b, at, clock);
      if b.unlimited || spare <= 0.0 {
        GainsAdd(b.refill, clock, at, at);
        assert !Due(b, at, clock, 1.0);
      } else {
        SpareCostIsEarly(b, at, clock);
        assert !Due(b, at, clock, spare / 2.0);
      }
    }
  }

  /** What the bucket can spare by `at`, should nothing be taken meanwhile. */
  function Spare(b: Bucket, at: real, clock: real): real {
    Min(b.tokens + Gain(b.refill, b.updated, at), b.capacity + Gain(b.refill, clock, at))
  }

  /** Half of what can be spared by `at` is promised for a time before it. */
  lemma SpareCostIsEarly(b: Bucket, at: real, clock: real)
    requires b.refill > 0.0 && b.updated <= clock && clock < at && !b.unlimited && Spare(b, at, clock) > 0.0
    requires b.blockedUntil.Some? ==> b.blockedUntil.value < at
    ensures clock + Wait(b, true, Spare(b, at, clock) / 2.0, clock) < at
  {
    GainsAdd(b.refill, b.updated, clock, at);
    var cost, tokens := Spare(b, at, clock) / 2.0, Refilled(b, clock);
    if tokens < cost {
      assert cost - tokens < Gain(b.refill, clock, at);
      ShortWait(cost - tokens, at - clock, b.refill);
    }
  }

  lemma ShortWait(missing: real, span: real, r: real)
    requires r > 0.0 && missing < span * r
    ensures missing / r < span
  {
    Product(missing, 0.0, r);
    ProductOrder(missing / r, span, r);
  }

  lemma GainIsPositive(r: real, from: real, to: real)
    requires r > 0.0 && from < to
    ensures Gain(r, from, to) > 0.0
  {
    ProductOrder(0.0, to - from, r);
  }

  /** Tokens the operation sets outright. */
  function Remaining(op: Op): Option<nat>
    requires !op.Reserve?
  {
    if op.Sync? then op.remaining else op.throttle.remaining
  }

  /** Exactly when a `429` or a snapshot keeps every later call behind a promise
      for `at`: the promise is past, or behind the block, or the debt it waits for
      is left alone and outlasts it at the new rate. A reported `remaining` always
      forgets the debt. */
  lemma RetuneKeepsOrderIff(b: Bucket, at: real, op: Op)
    requires b.refill > 0.0 && b.capacity > 0.0 && b.updated <= op.now && !op.Reserve?
    ensures var b' := Apply(b, true, op);
            b'.refill > 0.0
            && (InOrder(b', at, op.now) <==>
                  || at <= op.now
                  || (!b'.unlimited && b'.blockedUntil.Some? && at <= b'.blockedUntil.value)
                  || (!b'.unlimited && Remaining(op).None? && at <= op.now + LONGEST_WAIT
                      && b.tokens + Gain(b'.refill, b.updated, at) <= 0.0))
  {
    var b' := Apply(b, true, op);
    InOrderIff(b', at, op.now);
    if op.now < at && Remaining(op).Some? {
      GainIsPositive(b'.refill, op.now, at);
      assert b'.tokens >= 0.0 && b'.updated == op.now;
    }
  }

  /** Whatever takes the lock, an active back-off window is never shortened. */
  lemma BackoffIsNeverShortened(b: Bucket, enabled: bool, op: Op)
    requires b.blockedUntil.Some? && b.blockedUntil.value > op.now
    ensures var b' := Apply(b, enabled, op);
            b'.blockedUntil.Some? && b'.blockedUntil.value >= b.blockedUntil.value
  {
  }

  /** A reservation respects an active back-off exactly when it is a paced one. */
  lemma PacedCallsRespectBackoff(b: Bucket, enabled: bool, cost: real, now: real)
    requires b.refill > 0.0 && b.blockedUntil.Some? && b.blockedUntil.value > now
    ensures now + Wait(b, enabled, cost, now) >= b.blockedUntil.value <==> enabled && cost > 0.0 && !b.unlimited
  {
  }

  function Play(b: Bucket, enabled: bool, ops: seq<Op>): Bucket
    decreases |ops|
  {
    if ops == [] then b else Play(Apply(b, enabled, ops[0]), enabled, ops[1..])
  }

  /** The latest `429`, if any came. */
  function LastThrottle(ops: seq<Op>, before: Option<real>): Option<real>
    decreases |ops|
  {
    if ops == [] then before
    else LastThrottle(ops[1..], if ops[0].Note? then Some(ops[0].now) else before)
  }

  ghost predicate NearThrottle(b: Bucket, last: Option<real>) {
    b.blockedUntil.Some? ==> last.Some? && b.blockedUntil.value <= last.value + MAX_RETRY_AFTER
  }

  /** Over every run of everything that takes the lock: the window never reaches
      more than five minutes past the latest `429`, and until it has passed it
      is never moved earlier. */
  lemma {:induction false} BackoffIsBoundedAndKept(b: Bucket, enabled: bool, ops: seq<Op>, last: Option<real>,
                                                   clock: real)
    requires InLockOrder(clock, ops) && NearThrottle(b, last) && (last.Some? ==> last.value <= clock)
    ensures NearThrottle(Play(b, enabled, ops), LastThrottle(ops, last))
    ensures b.blockedUntil.Some? && (forall i :: 0 <= i < |ops| ==> ops[i].now < b.blockedUntil.value) ==>
              var b' := Play(b, enabled, ops);
              b'.blockedUntil.Some? && b'.blockedUntil.value >= b.blockedUntil.value
    decreases |ops|
  {
    if ops != [] {
      var b' := Apply(b, enabled, ops[0]);
      if ops[0].Note? {
        HintIsBounded(ops[0].throttle, ops[0].epoch);
      }
      BackoffIsBoundedAndKept(b', enabled, ops[1..], if ops[0].Note? then Some(ops[0].now) else last, ops[0].now);
    }
  }

  lemma HintIsBounded(t: Throttle, epoch: Option<nat>)
    requires Waits(t)
    ensures 0.0 <= HintedWait(t, epoch, 0.0) <= MAX_RETRY_AFTER
  {
  }

  // ----- the limiter itself -----------------------------------------------------------------

  class RateLimiter {
    const enabled: bool
    const maxRetries: nat
    var unlimited: bool
    var capacity: real
    var refill: real
    var tokens: real
    var updated: real
    var blockedUntil: Option<real>

    function State(): Bucket reads this { Bucket(unlimited, capacity, refill, tokens, updated, blockedUntil) }

    constructor (enabled: bool, requestsPerSecond: real, maxRetries: nat, now: real)
      ensures this.enabled == enabled && this.maxRetries == maxRetries
      ensures Valid(State()) && !unlimited && capacity == refill == tokens && blockedUntil.None? && updated == now
      ensures capacity == Max(requestsPerSecond, 0.001)
    {
      var rps := Max(requestsPerSecond, 0.001);
      this.enabled, this.maxRetries := enabled, maxRetries;
      unlimited, capacity, refill, tokens, updated, blockedUntil := false, rps, rps, rps, now, None;
    }

    method Reserve(cost: real, now: real) returns (wait: real)
      requires refill > 0.0
      modifies this
      ensures State() == Reserved(old(State()), enabled, cost, now)
      ensures wait == Wait(old(State()), enabled, cost, now)
    {
      if !enabled || cost <= 0.0 {
        return 0.0;
      }
      if unlimited {
        return 0.0;
      }
      var elapsed := Max(0.0, now - updated);
      tokens := Min(tokens + elapsed * refill, capacity);
      updated := now;
      if blockedUntil.Some? && blockedUntil.value > now {
        wait := blockedUntil.value - now;
      } else {
        blockedUntil := None;
        wait := 0.0;
      }
      if tokens < cost {
        var tokenWait := Min((cost - tokens) / refill, LONGEST_WAIT);
        if tokenWait > wait {
          wait := tokenWait;
        }
      }
      tokens := tokens - cost;
    }

    method NoteThrottle(info: Throttle, epoch: Option<nat>, now: real)
      modifies this
      ensures State() == Throttled(old(State()), info, epoch, now)
      ensures old(refill) > 0.0 ==> refill > 0.0
    {
      var wait := HintedWait(info, epoch, 0.0);
      if wait != 0.0 {
        var until := now + wait;
        blockedUntil := if blockedUntil.Some? && blockedUntil.value > until then blockedUntil else Some(until);
      }
      if info.limit.Some? && info.limit.value > 0 {
        unlimited, capacity, refill := false, info.limit.value as real, info.limit.value as real;
      }
      if info.remaining.Some? {
        tokens, updated := Min(info.remaining.value as real, capacity), now;
      }
    }

    method Sync(limit: Option<nat>, remaining: Option<nat>, now: real)
      modifies this
      ensures State() == Synced(old(State()), limit, remaining, now)
      ensures old(refill) > 0.0 ==> refill > 0.0
    {
      match limit {
        case Some(l) =>
          if l > 0 {
            unlimited, capacity, refill := false, l as real, l as real;
          }
        case None => unlimited := true;
      }
      if remaining.Some? {
        tokens := if unlimited then remaining.value as real else Min(remaining.value as real, capacity);
        updated := now;
      }
    }
  }
}
