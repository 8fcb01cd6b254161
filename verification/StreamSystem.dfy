/** The typed client against a server, as a transition system: per stream an
    append-only log with a ring buffer in front of it, per connection two FIFO
    pipes and the server's subscriptions. The environment picks every step:
    appends, evictions, disconnects, commands, how far each write gets, and
    everything the server is free to choose. A step that is not possible in a
    state leaves it unchanged. */
module StreamSystem {
  import opened Common
  import opened Protocol
  import opened TypedClient

  /** `subs[k]` is the last seq of `k` the server has sent, or joined at; `joins[k]`
      is where it joined `k` at the live edge, until that is acknowledged. */
  datatype Conn = Conn(
    authed: bool, toServer: seq<Outbound>, toClient: seq<Frame>, subs: map<Key, nat>, joins: map<Key, nat>)

  /** Event number `n` of stream `k` is `logs[k][n - 1]`; the ring buffer still
      holds those numbered `oldest[k]` and above. */
  datatype System = System(client: Client, conn: Option<Conn>, logs: map<Key, seq<string>>, oldest: map<Key, nat>)

  datatype Step =
    | Append(key: Key, payload: string)
    | Evict(key: Key, upTo: nat)
    | Connect(authed: bool, sends: nat)
    | Disconnect
    | ServerRead(refuse: bool, oldestSeq: Option<nat>)
    | SendEvent(key: Key)
    | SendAck(key: Key, seqAtJoin: nat)
    | DropSubscriptions(reset: Key, oldestSeq: Option<nat>)
    | SendOther(frame: Frame)
    | ClientRead(sends: nat, gone: bool)
    | ClientCommand(cmd: Command, sends: nat)
    | BackoffCommand(cmd: Command)

  function Log(s: System, k: Key): seq<string> { if k in s.logs then s.logs[k] else [] }

  function Oldest(s: System, k: Key): nat { if k in s.oldest then s.oldest[k] else 1 }

  function EventFrame(k: Key, n: nat, payload: string): Frame { Data(Some(Event(k.name, k.market, None, n, payload))) }

  function AckFrame(k: Key, n: nat): Frame { Data(Some(Subscribed(k.name, k.market, None, n))) }

  function ResetFrame(k: Key, oldestSeq: Option<nat>): Frame { Data(Some(OutOfSync(k.name, k.market, oldestSeq))) }

  /** Frames that carry no cursor, invalidate nothing and confirm nothing. */
  predicate Harmless(f: Frame) {
    f.Data? && f.message.Some? ==>
      CursorAdvance(f.message.value).None? && CursorReset(f.message.value).None? && !f.message.value.Unsubscribed?
  }

  // ----- the server ------------------------------------------------------------------

  /** The server takes the next client message. A subscribe without a cursor joins
      at the live edge, to be acknowledged some time; one with a cursor resumes
      after it when the ring buffer still covers that, and otherwise (or when the
      server so chooses) is answered with `out_of_sync`. */
  function Serve(s: System, c: Conn, refuse: bool, oldestSeq: Option<nat>): Conn
    requires c.toServer != []
  {
    var rest := c.(toServer := c.toServer[1..]);
    match c.toServer[0]
    case Subscribe(name, market, _, since) =>
      var k := Key(name, market);
      if since.None? then
        rest.(subs := c.subs[k := |Log(s, k)|], joins := c.joins[k := |Log(s, k)|])
      else if !refuse && Oldest(s, k) <= since.value + 1 && since.value <= |Log(s, k)| then
        rest.(subs := c.subs[k := since.value], joins := c.joins - {k})
      else
        rest.(subs := c.subs - {k}, joins := c.joins - {k}, toClient := c.toClient + [ResetFrame(k, oldestSeq)])
    case Unsubscribe(name, market, interval) =>
      rest.(subs := c.subs - {Key(name, market)}, joins := c.joins - {Key(name, market)},
            toClient := c.toClient + [Data(Some(Unsubscribed(name, market, interval)))])
    case _ => rest
  }

  /** Acknowledgements go out at any time, or never, before or after events. What is
      asked of the server is that one of a live-edge join names where it joined, and
      that no other names a seq beyond the cursor or the events already sent. */
  function ServerStep(s: System, c: Conn, step: Step): Conn {
    match step
    case ServerRead(refuse, oldestSeq) => if c.toServer == [] then c else Serve(s, c, refuse, oldestSeq)
    case SendEvent(k) =>
      if k in c.subs && c.subs[k] < |Log(s, k)| && Oldest(s, k) <= c.subs[k] + 1 then
        c.(subs := c.subs[k := c.subs[k] + 1],
           toClient := c.toClient + [EventFrame(k, c.subs[k] + 1, Log(s, k)[c.subs[k]])])
      else c
    case SendAck(k, n) =>
      if k in c.subs && n <= c.subs[k] && (k in c.joins ==> n == c.joins[k]) then
        c.(joins := c.joins - {k}, toClient := c.toClient + [AckFrame(k, n)])
      else c
    case DropSubscriptions(reset, oldestSeq) =>
      c.(subs := map k | k in c.subs && !Covers(reset, k) :: c.subs[k],
         joins := map k | k in c.joins && !Covers(reset, k) :: c.joins[k],
         toClient := c.toClient + [ResetFrame(reset, oldestSeq)])
    case SendOther(f) => if Harmless(f) then c.(toClient := c.toClient + [f]) else c
    case _ => c
  }

  // ----- the whole system ------------------------------------------------------------

  /** A client step's outcome: what it wrote goes into the pipe, and an exit ends
      the connection along with everything in flight on it. */
  function AfterClient(s: System, c: Conn, r: Stepped): System {
    s.(client := r.client,
       conn := if r.exit.Some? then None else Some(c.(toServer := c.toServer + r.sent)))
  }

  function Do(s: System, step: Step): System {
    match step
    case Append(k, payload) => s.(logs := s.logs[k := Log(s, k) + [payload]])
    case Evict(k, upTo) =>
      if upTo <= |Log(s, k)| + 1 then s.(oldest := s.oldest[k := MaxNat(Oldest(s, k), upTo)]) else s
    case Connect(authed, sends) =>
      if s.conn.None? && |s.client.channels| <= sends then
        s.(conn := Some(Conn(authed, Replays(s.client.channels, s.client.cursors), [], map[], map[])))
      else s
    case Disconnect => s.(conn := None)
    case ClientRead(sends, gone) =>
      if s.conn.Some? && s.conn.value.toClient != [] then
        var c := s.conn.value;
        AfterClient(s, c.(toClient := c.toClient[1..]), HandleFrame(s.client, c.toClient[0], sends, gone))
      else s
    case ClientCommand(cmd, sends) =>
      if s.conn.Some? then AfterClient(s, s.conn.value, OnCommand(s.client, cmd, s.conn.value.authed, sends)) else s
    case BackoffCommand(cmd) => if s.conn.None? then s.(client := Apply(s.client, cmd)) else s
    case _ => if s.conn.Some? then s.(conn := Some(ServerStep(s, s.conn.value, step))) else s
  }

  function Run(s: System, steps: seq<Step>): System
    decreases |steps|
  {
    if steps == [] then s else Run(Do(s, steps[0]), steps[1..])
  }

  // ----- what is in flight about one stream --------------------------------------------

  datatype Ask = Asked(since: Option<nat>) | Left

  /** The subscribes and unsubscribes of `k` among client messages, in order. */
  function About(ms: seq<Outbound>, k: Key): seq<Ask> {
    if ms == [] then []
    else AboutOne(ms[0], k) + About(ms[1..], k)
  }

  function AboutOne(m: Outbound, k: Key): seq<Ask> {
    match m
    case Subscribe(name, market, _, since) => if Key(name, market) == k then [Asked(since)] else []
    case Unsubscribe(name, market, _) => if Key(name, market) == k then [Left] else []
    case _ => []
  }

  predicate Invalidates(f: Frame, k: Key) {
    f.Data? && f.message.Some? && CursorReset(f.message.value).Some? && Covers(CursorReset(f.message.value).value, k)
  }

  predicate Moves(f: Frame, k: Key) {
    f.Data? && f.message.Some? && CursorAdvance(f.message.value).Some? && CursorAdvance(f.message.value).value.0 == k
  }

  lemma {:induction false} AboutAppend(a: seq<Outbound>, b: seq<Outbound>, k: Key)
    ensures About(a + b, k) == About(a, k) + About(b, k)
  {
    if a == [] {
      assert a + b == b;
    } else {
      AboutAppend(a[1..], b, k);
      assert (a + b)[1..] == a[1..] + b;
    }
  }

  lemma AboutHead(ms: seq<Outbound>, k: Key)
    requires ms != []
    ensures var one, rest := AboutOne(ms[0], k), About(ms[1..], k);
            && (one == [] ==> About(ms, k) == rest)
            && (one != [] ==>
                  |one| == 1 && About(ms, k) != [] && About(ms, k)[0] == one[0] && About(ms, k)[1..] == rest)
  {
    var one, rest := AboutOne(ms[0], k), About(ms[1..], k);
    assert About(ms, k) == one + rest;
  }

  /** Reconnecting asks for each held stream once, from its cursor. */
  lemma {:induction false} ReplaysAskOnce(channels: seq<Channel>, cursors: map<Key, nat>, k: Key)
    requires DistinctKeys(channels)
    ensures About(Replays(channels, cursors), k) == if Holds(channels, k) then [Asked(Lookup(cursors, k))] else []
  {
    if channels != [] {
      var n := |channels| - 1;
      var front, last := channels[..n], channels[n];
      assert channels == front + [last];
      HoldsSnoc(front, last);
      ReplaysAskOnce(front, cursors, k);
      var frame := [SubscribeFrame(last, Lookup(cursors, CursorKey(last)))];
      AboutAppend(Replays(front, cursors), frame, k);
      assert About(frame, k) == AboutOne(frame[0], k) + About([], k);
      if CursorKey(last) == k {
        assert !Holds(front, k);
      }
    }
  }

  /** The last thing in flight about the stream is a subscribe. */
  predicate EndsAsking(asks: seq<Ask>) { asks != [] && asks[|asks| - 1].Asked? }

  /** A resync leaves the streams the reset does not cover alone. */
  lemma {:induction false} ResyncSparesOthers(channels: seq<Channel>, cursors: map<Key, nat>, reset: Key, sends: nat,
                                              k: Key)
    requires !Covers(reset, k)
    ensures var r := Resync(channels, cursors, reset, sends);
            About(r.1, k) == [] && Lookup(r.0, k) == Lookup(cursors, k)
  {
    if channels != [] {
      var c, rest := channels[0], channels[1..];
      if !Covers(reset, CursorKey(c)) {
        ResyncSparesOthers(rest, cursors, reset, sends, k);
      } else if sends > 0 {
        ResyncSparesOthers(rest, cursors - {CursorKey(c)}, reset, sends - 1, k);
      }
    }
  }

  /** A resync that gets through drops the cursor of each held stream it covers
      and asks for it again, once. */
  lemma {:induction false} ResyncAsksAgain(channels: seq<Channel>, cursors: map<Key, nat>, reset: Key, sends: nat,
                                           k: Key)
    requires Covers(reset, k) && Holds(channels, k)
    requires Resync(channels, cursors, reset, sends).2
    ensures var r := Resync(channels, cursors, reset, sends);
            EndsAsking(About(r.1, k)) && k !in r.0 && (DistinctKeys(channels) ==> About(r.1, k) == [Asked(None)])
  {
    var c, rest := channels[0], channels[1..];
    var h := CursorKey(c);
    var i :| 0 <= i < |channels| && CursorKey(channels[i]) == k;
    if i > 0 {
      assert CursorKey(rest[i - 1]) == k;
    }
    if !Covers(reset, h) {
      ResyncAsksAgain(rest, cursors, reset, sends, k);
    } else {
      ResyncDropsCursors(rest, cursors - {h}, reset, sends - 1, k);
      if Holds(rest, k) {
        ResyncAsksAgain(rest, cursors - {h}, reset, sends - 1, k);
      } else {
        NothingAskedUnlessHeld(rest, cursors - {h}, reset, sends - 1, k);
      }
    }
  }

  lemma {:induction false} ResyncDropsCursors(channels: seq<Channel>, cursors: map<Key, nat>, reset: Key, sends: nat,
                                              k: Key)
    ensures var r := Resync(channels, cursors, reset, sends); k in r.0 ==> k in cursors && r.0[k] == cursors[k]
  {
    if channels != [] {
      var h := CursorKey(channels[0]);
      ResyncDropsCursors(channels[1..], cursors, reset, sends, k);
      if sends > 0 {
        ResyncDropsCursors(channels[1..], cursors - {h}, reset, sends - 1, k);
      }
    }
  }

  lemma {:induction false} NothingAskedUnlessHeld(channels: seq<Channel>, cursors: map<Key, nat>, reset: Key,
                                                  sends: nat, k: Key)
    requires !Holds(channels, k)
    ensures About(Resync(channels, cursors, reset, sends).1, k) == []
  {
    if channels != [] {
      var c, rest := channels[0], channels[1..];
      assert CursorKey(c) != k;
      forall i | 0 <= i < |rest| ensures CursorKey(rest[i]) != k { assert CursorKey(channels[i + 1]) != k; }
      if !Covers(reset, CursorKey(c)) {
        NothingAskedUnlessHeld(rest, cursors, reset, sends, k);
      } else if sends > 0 {
        NothingAskedUnlessHeld(rest, cursors - {CursorKey(c)}, reset, sends - 1, k);
      }
    }
  }

  /** Any other frame asks nothing about the stream. */
  lemma OtherFramesAskNothing(cl: Client, f: Frame, sends: nat, gone: bool, k: Key)
    requires !Invalidates(f, k)
    ensures About(HandleFrame(cl, f, sends, gone).sent, k) == []
  {
    if f.Ping? {
      assert About([Pong], k) == AboutOne(Pong, k) + About([], k);
    } else if f.Data? && f.message.Some? && CursorReset(f.message.value).Some? {
      var reset := CursorReset(f.message.value).value;
      ResyncSparesOthers(cl.channels, Advance(cl.cursors, f.message.value), reset, sends, k);
    }
  }

  lemma ClientKeysStayDistinct(s: System, step: Step)
    requires DistinctKeys(s.client.channels)
    ensures DistinctKeys(Do(s, step).client.channels)
  {
    match step {
      case ClientCommand(cmd, _) => ApplyKeepsKeysDistinct(s.client, cmd);
      case BackoffCommand(cmd) => ApplyKeepsKeysDistinct(s.client, cmd);
      case _ =>
    }
  }
}
