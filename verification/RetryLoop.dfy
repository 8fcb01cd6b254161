/** The retry loop of an unauthenticated `GET` (`get_page` in `src/client.rs`):
    one reservation, then attempts that draw on two separate budgets, one for
    `429`s and one for transient failures. The server and the network are an
    arbitrary sequence of replies. */
module RetryLoop {
  import opened Common
  import opened RateLimiting

  /** How one attempt ends. `Lost` is a transport failure and `Unavailable` a
      response that is worth retrying; `Rejected` is one that is not. */
  datatype Reply<T> =
    | Answered(body: T)
    | Rejected
    | Unavailable
    | Lost(retryable: bool)
    | TooMany(info: Throttle, epoch: Option<nat>)

  datatype Outcome<T> = Success(body: T) | RateLimited(retryAfter: Option<real>) | Failed

  /** What the call did, in order: waited for its reservation, sent, waited out a
      transient failure, waited out a `429`. */
  datatype Act = Paced(delay: real) | Sent | BackedOff(delay: real) | Throttling(delay: real)

  predicate Transient<T>(r: Reply<T>) { r.Unavailable? || r == Lost(true) }

  /** How many of the first `k` replies were `429`s, and how many transient. */
  function Throttles<T>(replies: nat -> Reply<T>, k: nat): nat {
    if k == 0 then 0 else Throttles(replies, k - 1) + (if replies(k - 1).TooMany? then 1 else 0)
  }

  function Transients<T>(replies: nat -> Reply<T>, k: nat): nat {
    if k == 0 then 0 else Transients(replies, k - 1) + (if Transient(replies(k - 1)) then 1 else 0)
  }

  /** Reply `k` ends the call: it is an answer or a refusal, or it is a failure
      whose own budget its own kind has already used up. */
  predicate Ends<T>(replies: nat -> Reply<T>, k: nat, throttleRetries: nat, transientRetries: nat) {
    if replies(k).TooMany? then Throttles(replies, k) >= throttleRetries
    else if Transient(replies(k)) then Transients(replies, k) >= transientRetries
    else true
  }

  function OutcomeOf<T>(r: Reply<T>): Outcome<T> {
    match r
    case Answered(body) => Success(body)
    case TooMany(info, _) => RateLimited(info.retryAfter)
    case _ => Failed
  }

  /** The first reply is retried exactly when it is a failure worth retrying and its kind has
      a retry to spend. */
  lemma FirstReplyIsFinalIff<T>(replies: nat -> Reply<T>, throttleRetries: nat, transientRetries: nat)
    ensures Ends(replies, 0, throttleRetries, transientRetries) <==>
              match replies(0)
              case Answered(_) => true
              case Rejected => true
              case Lost(retryable) => !retryable || transientRetries == 0
              case Unavailable => transientRetries == 0
              case TooMany(_, _) => throttleRetries == 0
  {
  }

  /** Only an answer is a success, and only a `429` a rate limit, with what it said. */
  lemma OutcomeTells<T>(r: Reply<T>, body: T, retryAfter: Option<real>)
    ensures OutcomeOf(r) == Success(body) <==> r == Answered(body)
    ensures OutcomeOf(r) == RateLimited(retryAfter) <==> r.TooMany? && r.info.retryAfter == retryAfter
  {
  }

  /** While nothing has ended the call, each kind is within its own budget. */
  lemma {:induction false} BudgetsHold<T>(replies: nat -> Reply<T>, k: nat, throttleRetries: nat, transientRetries: nat)
    requires forall i: nat :: i < k ==> !Ends(replies, i, throttleRetries, transientRetries)
    ensures Throttles(replies, k) + Transients(replies, k) == k
    ensures Throttles(replies, k) <= throttleRetries && Transients(replies, k) <= transientRetries
  {
    if k > 0 {
      BudgetsHold(replies, k - 1, throttleRetries, transientRetries);
      assert !Ends(replies, k - 1, throttleRetries, transientRetries);
    }
  }

  /** Against any server at all, some reply within the two budgets ends the call. */
  lemma SomeReplyEnds<T>(replies: nat -> Reply<T>, throttleRetries: nat, transientRetries: nat)
    ensures exists k: nat ::
              k <= throttleRetries + transientRetries && Ends(replies, k, throttleRetries, transientRetries)
  {
    var n := throttleRetries + transientRetries + 1;
    if forall i: nat :: i < n ==> !Ends(replies, i, throttleRetries, transientRetries) {
      BudgetsHold(replies, n, throttleRetries, transientRetries);
    }
  }

  function Doubling(n: nat): nat { if n == 0 then 1 else 2 * Doubling(n - 1) }

  /** Seconds to wait after the `attempt`-th `429` when the server gives no hint. */
  function Fallback(attempt: nat): real {
    0.25 * Doubling(if attempt < 6 then attempt else 6) as real
  }

  lemma FallbackIsShort(attempt: nat)
    ensures 0.0 < Fallback(attempt) <= 16.0
  {
    var n := if attempt < 6 then attempt else 6;
    assert Doubling(1) == 2 && Doubling(2) == 4 && Doubling(3) == 8;
    assert Doubling(4) == 16 && Doubling(5) == 32 && Doubling(6) == 64;
    assert n == 0 || n == 1 || n == 2 || n == 3 || n == 4 || n == 5 || n == 6;
  }

  /** Half a second after the first, and twice as long each time, up to 16 s. */
  lemma FallbackDoubles(attempt: nat)
    ensures Fallback(1) == 0.5
    ensures attempt < 6 ==> Fallback(attempt + 1) == 2.0 * Fallback(attempt)
    ensures attempt >= 6 ==> Fallback(attempt) == 16.0
  {
    assert Doubling(1) == 2 && Doubling(2) == 4 && Doubling(3) == 8;
    assert Doubling(4) == 16 && Doubling(5) == 32 && Doubling(6) == 64;
  }

  /** The one wait that follows a failure that is retried: the next of the back-off's
      delays, or what the `429` asks for, or else its fallback. */
  function WaitAfter<T>(replies: nat -> Reply<T>, transient: seq<real>, k: nat): Act {
    if replies(k).TooMany? then
      Throttling(HintedWait(replies(k).info, replies(k).epoch, Fallback(Throttles(replies, k) + 1)))
    else
      BackedOff(if Transients(replies, k) < |transient| then transient[Transients(replies, k)] else 0.0)
  }

  /** A `429` that gives no hint is waited for: half a second if it is the first `429` of the
      call, and for each one before it twice as long, up to 16 s. */
  lemma UnhintedWaitsDouble<T>(replies: nat -> Reply<T>, transient: seq<real>, k: nat)
    requires replies(k).TooMany? && replies(k).info.retryAfter.None? && replies(k).info.reset.None?
    ensures WaitAfter(replies, transient, k) == Throttling(Fallback(Throttles(replies, k) + 1))
    ensures Throttles(replies, k) == 0 ==> WaitAfter(replies, transient, k).delay == 0.5
    ensures 0 < Throttles(replies, k) <= 5 ==>
              WaitAfter(replies, transient, k).delay == 2.0 * Fallback(Throttles(replies, k))
  {
    FallbackDoubles(Throttles(replies, k));
  }

  /** What is done up to the `n`-th retry. */
  function Retried<T>(replies: nat -> Reply<T>, transient: seq<real>, n: nat): seq<Act> {
    if n == 0 then [] else Retried(replies, transient, n - 1) + [Sent, WaitAfter(replies, transient, n - 1)]
  }

  /** The `429`s among the first `n` replies, as the limiter hears of them. */
  function Notes<T>(replies: nat -> Reply<T>, clock: nat -> real, n: nat): seq<Op> {
    if n == 0 then []
    else
      var r := replies(n - 1);
      Notes(replies, clock, n - 1)
      + if r.TooMany? then [Note(clock(Throttles(replies, n - 1) + 1), r.info, r.epoch)] else []
  }

  // ----- what the waits add up to ---------------------------------------------------------

  /** The transient waits, and nothing else, among what was done. */
  function TransientWaits(acts: seq<Act>): seq<real> {
    if acts == [] then []
    else
      var front := TransientWaits(acts[..|acts| - 1]);
      if acts[|acts| - 1].BackedOff? then front + [acts[|acts| - 1].delay] else front
  }

  lemma TransientSnoc(acts: seq<Act>, act: Act)
    ensures TransientWaits(acts + [act]) == TransientWaits(acts) + if act.BackedOff? then [act.delay] else []
  {
    assert (acts + [act])[..|acts|] == acts;
  }

  /** The back-off's delays are used up in order, and by transient failures alone. */
  lemma {:induction false} TransientWaitsAreTheBackoffs<T>(replies: nat -> Reply<T>, transient: seq<real>, n: nat)
    requires Transients(replies, n) <= |transient|
    requires forall i: nat :: i < n ==> replies(i).TooMany? || Transient(replies(i))
    ensures TransientWaits(Retried(replies, transient, n)) == transient[..Transients(replies, n)]
  {
    if n > 0 {
      TransientWaitsAreTheBackoffs(replies, transient, n - 1);
      var front, wait := Retried(replies, transient, n - 1), WaitAfter(replies, transient, n - 1);
      TransientSnoc(front, Sent);
      TransientSnoc(front + [Sent], wait);
      assert front + [Sent, wait] == front + [Sent] + [wait];
      assert replies(n - 1).TooMany? || Transient(replies(n - 1));
    }
  }

  /** Every `429` that is retried is waited out, for no longer than the ceiling. */
  lemma {:induction false} ThrottleWaitsAreShort<T>(replies: nat -> Reply<T>, transient: seq<real>, n: nat)
    requires forall i: nat :: replies(i).TooMany? ==> Waits(replies(i).info)
    ensures forall act :: act in Retried(replies, transient, n) && act.Throttling? ==>
              0.0 <= act.delay <= MAX_RETRY_AFTER
  {
    if n > 0 {
      ThrottleWaitsAreShort(replies, transient, n - 1);
      if replies(n - 1).TooMany? {
        HintOrFallback(replies(n - 1).info, replies(n - 1).epoch, Throttles(replies, n - 1) + 1);
      }
    }
  }

  /** Up to the end of a call every reply was retried, so the two kinds of failure
      never wait on each other's account. */
  lemma WaitsAreSeparate<T>(replies: nat -> Reply<T>, throttleRetries: nat, transient: seq<real>, n: nat)
    requires forall i: nat :: i < n ==> !Ends(replies, i, throttleRetries, |transient|)
    ensures Transients(replies, n) <= |transient|
    ensures TransientWaits(Retried(replies, transient, n)) == transient[..Transients(replies, n)]
  {
    BudgetsHold(replies, n, throttleRetries, |transient|);
    forall i: nat | i < n ensures replies(i).TooMany? || Transient(replies(i)) {
      assert !Ends(replies, i, throttleRetries, |transient|);
    }
    TransientWaitsAreTheBackoffs(replies, transient, n);
  }

  lemma HintOrFallback(info: Throttle, epoch: Option<nat>, attempt: nat)
    requires Waits(info)
    ensures 0.0 <= HintedWait(info, epoch, Fallback(attempt)) <= MAX_RETRY_AFTER
  {
    FallbackIsShort(attempt);
  }

  lemma {:induction false} PlaySnoc(b: Bucket, enabled: bool, ops: seq<Op>, op: Op)
    ensures Play(b, enabled, ops + [op]) == Apply(Play(b, enabled, ops), enabled, op)
    decreases |ops|
  {
    if ops == [] {
      assert ops + [op] == [op];
    } else {
      assert (ops + [op])[1..] == ops[1..] + [op];
      PlaySnoc(Apply(b, enabled, ops[0]), enabled, ops[1..], op);
    }
  }

  // ----- the loop itself --------------------------------------------------------------------

  /** No reply so far has ended the call. */
  ghost predicate Unended<T>(replies: nat -> Reply<T>, n: nat, throttleRetries: nat, transientRetries: nat) {
    forall i: nat :: i < n ==> !Ends(replies, i, throttleRetries, transientRetries)
  }

  /** Where a call stands: still going after `n` replies, each waited out, or ended by
      the last of them. */
  ghost predicate Standing<T>(replies: nat -> Reply<T>, n: nat, throttleRetries: nat, transient: seq<real>,
                              paced: seq<Act>, acts: seq<Act>, outcome: Option<Outcome<T>>) {
    if outcome.None? then
      Unended(replies, n, throttleRetries, |transient|) && acts == paced + Retried(replies, transient, n)
    else
      && n >= 1 && Ends(replies, n - 1, throttleRetries, |transient|)
      && Unended(replies, n - 1, throttleRetries, |transient|)
      && outcome.value == OutcomeOf(replies(n - 1))
      && acts == paced + Retried(replies, transient, n - 1) + [Sent]
  }

  /** One attempt's reply: what to wait for, or the outcome. */
  method Digest<T>(replies: nat -> Reply<T>, n: nat, throttleRetries: nat, transient: seq<real>,
                   attempt: nat, used: nat, ghost paced: seq<Act>, acts: seq<Act>)
    returns (acts': seq<Act>, outcome: Option<Outcome<T>>, used': nat)
    requires Standing(replies, n, throttleRetries, transient, paced, acts, None)
    requires attempt == Throttles(replies, n) && used == Transients(replies, n)
    ensures Standing(replies, n + 1, throttleRetries, transient, paced, acts', outcome)
    ensures used' == Transients(replies, n + 1)
  {
    var reply := replies(n);
    acts', outcome, used' := acts + [Sent], None, used;
    if reply.TooMany? {
      if attempt < throttleRetries {
        acts' := acts' + [Throttling(HintedWait(reply.info, reply.epoch, Fallback(attempt + 1)))];
      } else {
        outcome := Some(RateLimited(reply.info.retryAfter));
      }
    } else if Transient(reply) {
      used' := used + 1;
      if used < |transient| {
        acts' := acts' + [BackedOff(transient[used])];
      } else {
        outcome := Some(Failed);
      }
    } else {
      outcome := Some(OutcomeOf(reply));
    }
    if outcome.None? {
      assert acts + [Sent] + [WaitAfter(replies, transient, n)] == acts + [Sent, WaitAfter(replies, transient, n)];
    }
  }

  /** What the limiter hears of a call: one reservation, and a note for every `429`. */
  function Told<T>(replies: nat -> Reply<T>, cost: real, clock: nat -> real, n: nat): seq<Op> {
    [Reserve(clock(0), cost)] + Notes(replies, clock, n)
  }

  /** Every `429` is noted in the limiter, whether or not it is retried. */
  method NoteReply<T>(limiter: RateLimiter, ghost before: Bucket, replies: nat -> Reply<T>, cost: real,
                      clock: nat -> real, n: nat, attempt: nat)
    returns (attempt': nat)
    requires limiter.refill > 0.0 && attempt == Throttles(replies, n)
    requires limiter.State() == Play(before, limiter.enabled, Told(replies, cost, clock, n))
    modifies limiter
    ensures limiter.refill > 0.0 && attempt' == Throttles(replies, n + 1)
    ensures limiter.State() == Play(before, limiter.enabled, Told(replies, cost, clock, n + 1))
  {
    attempt' := attempt;
    var reply := replies(n);
    OneMoreNote(before, limiter.enabled, replies, cost, clock, n);
    if reply.TooMany? {
      limiter.NoteThrottle(reply.info, reply.epoch, clock(attempt + 1));
      attempt' := attempt + 1;
    }
  }

  lemma OneMoreNote<T>(b: Bucket, enabled: bool, replies: nat -> Reply<T>, cost: real, clock: nat -> real, n: nat)
    ensures var r, before := replies(n), Play(b, enabled, Told(replies, cost, clock, n));
            Play(b, enabled, Told(replies, cost, clock, n + 1)) ==
              if r.TooMany? then Throttled(before, r.info, r.epoch, clock(Throttles(replies, n) + 1)) else before
  {
    var ops := Told(replies, cost, clock, n);
    if replies(n).TooMany? {
      var note := Note(clock(Throttles(replies, n) + 1), replies(n).info, replies(n).epoch);
      assert Told(replies, cost, clock, n + 1) == ops + [note];
      PlaySnoc(b, enabled, ops, note);
    } else {
      assert Told(replies, cost, clock, n + 1) == ops;
    }
  }

  /** The wait before the first attempt. */
  method Pace(limiter: RateLimiter, cost: real, now: real) returns (acts: seq<Act>)
    requires limiter.refill > 0.0
    modifies limiter
    ensures limiter.refill > 0.0
    ensures limiter.State() == Play(old(limiter.State()), limiter.enabled, [Reserve(now, cost)])
    ensures var wait := Wait(old(limiter.State()), limiter.enabled, cost, now);
            acts == if wait == 0.0 then [] else [Paced(wait)]
  {
    var wait := limiter.Reserve(cost, now);
    acts := if wait == 0.0 then [] else [Paced(wait)];
  }

  /** `transient` is the delay sequence the configured backoff yields, and
      `clock(i)` the time of the `i`-th use of the limiter. */
  method GetPage<T>(limiter: RateLimiter, cost: real, replies: nat -> Reply<T>, transient: seq<real>,
                    clock: nat -> real)
    returns (outcome: Outcome<T>, acts: seq<Act>, sends: nat)
    requires limiter.refill > 0.0
    modifies limiter
    // the first reply that ends the call decides it
    ensures sends >= 1 && Ends(replies, sends - 1, limiter.maxRetries, |transient|)
    ensures Unended(replies, sends - 1, limiter.maxRetries, |transient|)
    ensures outcome == OutcomeOf(replies(sends - 1))
    ensures sends <= 1 + limiter.maxRetries + |transient|
    // one wait for the reservation, and one after every failure that is retried
    ensures var wait := Wait(old(limiter.State()), limiter.enabled, cost, clock(0));
            acts == (if wait == 0.0 then [] else [Paced(wait)]) + Retried(replies, transient, sends - 1) + [Sent]
    // one reservation, and one note for every `429`
    ensures limiter.State() == Play(old(limiter.State()), limiter.enabled, Told(replies, cost, clock, sends))
  {
    ghost var before := old(limiter.State());
    var paced := Pace(limiter, cost, clock(0));
    assert Told(replies, cost, clock, 0) == [Reserve(clock(0), cost)];
    outcome, acts, sends := Attempts(limiter, before, cost, replies, transient, clock, paced);
  }

  /** The attempts, once the reservation has been waited out. */
  method Attempts<T>(limiter: RateLimiter, ghost before: Bucket, cost: real, replies: nat -> Reply<T>,
                     transient: seq<real>, clock: nat -> real, paced: seq<Act>)
    returns (outcome: Outcome<T>, acts: seq<Act>, sends: nat)
    requires limiter.refill > 0.0
    requires limiter.State() == Play(before, limiter.enabled, Told(replies, cost, clock, 0))
    modifies limiter
    ensures Standing(replies, sends, limiter.maxRetries, transient, paced, acts, Some(outcome))
    ensures sends <= 1 + limiter.maxRetries + |transient|
    ensures limiter.State() == Play(before, limiter.enabled, Told(replies, cost, clock, sends))
  {
    acts, sends := paced, 0;
    var attempt, used, result := 0, 0, None;
    while result.None?
      invariant Standing(replies, sends, limiter.maxRetries, transient, paced, acts, result)
      invariant attempt == Throttles(replies, sends) && used == Transients(replies, sends)
      invariant sends <= 1 + limiter.maxRetries + |transient|
      invariant limiter.State() == Play(before, limiter.enabled, Told(replies, cost, clock, sends))
      invariant limiter.refill > 0.0
      decreases result.None?, 1 + limiter.maxRetries + |transient| - sends
    {
      BudgetsHold(replies, sends, limiter.maxRetries, |transient|);
      acts, result, used := Digest(replies, sends, limiter.maxRetries, transient, attempt, used, paced, acts);
      attempt := NoteReply(limiter, before, replies, cost, clock, sends, attempt);
      sends := sends + 1;
    }
    outcome := result.value;
  }
}
