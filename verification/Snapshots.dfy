/** What the limits a server reports leave to spend: with a `429` or in a snapshot of
    its own (`note_throttle` and `sync` in `src/ratelimit.rs`). Everything is said of
    the waits and promises that follow. */
module Snapshots {
  import opened Common
  import opened RateLimiting
  import opened Bursts

  function LimitOf(op: Op): Option<nat>
    requires !op.Reserve?
  {
    if op.Sync? then op.limit else op.throttle.limit
  }

  /** A limit of zero says nothing. */
  function Told(op: Op, otherwise: real): real
    requires !op.Reserve?
  {
    if LimitOf(op).Some? && LimitOf(op).value > 0 then LimitOf(op).value as real else otherwise
  }

  /** Tokens there are at that moment: those reported, else those there were, within the
      capacity. */
  function LeftToSpend(b: Bucket, op: Op): real
    requires !op.Reserve?
  {
    Min(if Remaining(op).Some? then Remaining(op).value as real
        else b.tokens + Gain(Told(op, b.refill), b.updated, op.now), Told(op, b.capacity))
  }

  /** Seconds until a shortage is refilled. */
  function Shortage(missing: real, rate: real): real
    requires rate > 0.0
  {
    if missing <= 0.0 then 0.0 else Min(missing / rate, LONGEST_WAIT)
  }

  /** How long the server still blocks. */
  function BlockLeft(b: Bucket, op: Op): real
    requires !op.Reserve?
  {
    Max(BlockWait(b, op.now), if op.Note? then HintedWait(op.throttle, op.epoch, 0.0) else 0.0)
  }

  /** Without a limit nothing is waited for; a snapshot that names none takes it away, and
      one that names one puts it back. */
  predicate LeavesUnlimited(b: Bucket, op: Op)
    requires !op.Reserve?
  {
    if LimitOf(op).None? && op.Sync? then true else b.unlimited && !(LimitOf(op).Some? && LimitOf(op).value > 0)
  }

  /** The wait of a paced call right after what the server reports: until the block is
      over and what is missing has been refilled at the reported rate. */
  lemma WaitAfterReport(b: Bucket, op: Op, cost: real)
    requires b.refill > 0.0 && b.updated <= op.now && !op.Reserve? && cost > 0.0
    requires op.Note? ==> Waits(op.throttle)
    ensures var b' := Apply(b, true, op);
            && b'.refill > 0.0 && Told(op, b.refill) > 0.0
            && Wait(b', true, cost, op.now) ==
                 if LeavesUnlimited(b, op) then 0.0
                 else Max(BlockLeft(b, op), Shortage(cost - LeftToSpend(b, op), Told(op, b.refill)))
  {
    var b' := Apply(b, true, op);
    TokensAfterReport(b, op);
    BlockAfterReport(b, op);
    if !LeavesUnlimited(b, op) { ShortageIsTheWait(b', cost, op.now); }
  }

  lemma ShortageIsTheWait(b: Bucket, cost: real, now: real)
    requires b.refill > 0.0 && !b.unlimited && cost > 0.0
    ensures TokenWait(b, cost, now) == Shortage(cost - Refilled(b, now), b.refill)
  {
  }

  lemma RatesAfterReport(b: Bucket, op: Op)
    requires b.refill > 0.0 && !op.Reserve?
    ensures var b' := Apply(b, true, op);
            && b'.refill == Told(op, b.refill) > 0.0 && b'.unlimited == LeavesUnlimited(b, op)
            && (!b'.unlimited ==> b'.capacity == Told(op, b.capacity))
            && (if Remaining(op).None? then b'.tokens == b.tokens && b'.updated == b.updated
                else b'.updated == op.now
                     && (!b'.unlimited ==> b'.tokens == Min(Remaining(op).value as real, b'.capacity)))
  {
  }

  lemma NothingRefillsAtOnce(b: Bucket)
    requires b.tokens <= b.capacity
    ensures Refilled(b, b.updated) == b.tokens
  {
  }

  lemma RefilledSince(b: Bucket, now: real)
    requires b.updated <= now
    ensures Refilled(b, now) == Min(b.tokens + Gain(b.refill, b.updated, now), b.capacity)
  {
  }

  lemma TokensAfterReport(b: Bucket, op: Op)
    requires b.refill > 0.0 && b.updated <= op.now && !op.Reserve?
    ensures var b' := Apply(b, true, op);
            && b'.refill == Told(op, b.refill) > 0.0 && b'.unlimited == LeavesUnlimited(b, op)
            && (!b'.unlimited ==> b'.capacity == Told(op, b.capacity) && Refilled(b', op.now) == LeftToSpend(b, op))
  {
    var b' := Apply(b, true, op);
    RatesAfterReport(b, op);
    if !b'.unlimited && Remaining(op).Some? {
      NothingRefillsAtOnce(b');
    } else if !b'.unlimited {
      RefilledSince(b', op.now);
    }
  }

  lemma BlockAfterReport(b: Bucket, op: Op)
    requires !op.Reserve? && (op.Note? ==> Waits(op.throttle))
    ensures BlockWait(Apply(b, true, op), op.now) == BlockLeft(b, op)
  {
  }

  /** After a report of a limit and of what remains of it: a call waits for exactly what it
      asks for beyond that, and from there no more is promised within `t` than what
      remains and the refill. */
  lemma ReportIsObeyed(b: Bucket, op: Op, limit: nat, remaining: nat, cost: real, ops: seq<Op>, lo: real, t: real)
    requires b.refill > 0.0 && NearBlock(b, op.now) && !op.Reserve? && (op.Note? ==> Waits(op.throttle))
    requires LimitOf(op) == Some(limit) && limit > 0 && Remaining(op) == Some(remaining) && cost > 0.0 && t >= 0.0
    ensures var b', left := Apply(b, true, op), Min(remaining as real, limit as real);
            && b'.refill > 0.0
            && Wait(b', true, cost, op.now) == Max(BlockLeft(b, op), Shortage(cost - left, limit as real))
            && (Blocking(b', op.now, ops) ==>
                  CostSent(b', ops, lo, op.now + t) <= left + Gain(limit as real, op.now, op.now + t))
  {
    var b' := Apply(b, true, op);
    WaitAfterReport(b, op, cost);
    TokensAfterReport(b, op);
    if op.Note? { HintIsBounded(op.throttle, op.epoch); }
    if Blocking(b', op.now, ops) {
      NoMoreThanTheLevel(b', op.now, ops, lo, op.now + t);
      LevelIsGain(b', op.now + t);
      GainsAdd(limit as real, op.now, op.now + t, op.now + t);
    }
  }

  /** `Retry-After` is waited out, whatever the reset says; without it, the reset is, as
      far as it is ahead of the clock. Neither for more than 300 s. */
  lemma HintIsWaitedOut(b: Bucket, t: Throttle, epoch: Option<nat>, now: real, cost: real)
    requires b.refill > 0.0 && b.updated <= now && !b.unlimited && cost > 0.0 && Waits(t)
    ensures var b' := Throttled(b, t, epoch, now);
            && b'.refill > 0.0
            && (t.retryAfter.Some? ==> Wait(b', true, cost, now) >= Min(t.retryAfter.value, 300.0))
            && (t.retryAfter.None? && t.reset.Some? && epoch.Some? ==>
                  Wait(b', true, cost, now) >= Min((t.reset.value - epoch.value) as real, 300.0))
            && (t == Throttle(t.retryAfter, None, None, t.reset) && TokenWait(b, cost, now) == 0.0
                && BlockWait(b, now) == 0.0 ==>
                  Wait(b', true, cost, now) == HintedWait(t, epoch, 0.0))
  {
    WaitAfterReport(b, Note(now, t, epoch), cost);
    HintIsBounded(t, epoch);
  }
}
