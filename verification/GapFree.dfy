/** Gap-free resume: while a stream stays held and no `out_of_sync` for it is
    processed, the events the client processes, over any number of disconnects
    and reconnects, are one contiguous slice of the server's log. */
module GapFree {
  import opened Common
  import opened Protocol
  import opened TypedClient
  import opened StreamSystem

  /** What an observer of `decode` records about one stream: the seq it starts
      after, the events processed, and whether the stream was left alone. The start
      is the first `seq_at_join` or just before the first event, whichever is
      processed first. */
  datatype Track = Track(base: Option<nat>, seen: seq<(nat, string)>, clean: bool)

  function Observe(t: Track, s: System, step: Step, k: Key): Track {
    match step
    case ClientRead(_, _) =>
      if s.conn.Some? && s.conn.value.toClient != [] then ObserveFrame(t, s.conn.value.toClient[0], k) else t
    case ClientCommand(Remove(c), _) => if CursorKey(c) == k then t.(clean := false) else t
    case BackoffCommand(Remove(c)) => if CursorKey(c) == k then t.(clean := false) else t
    case _ => t
  }

  function ObserveFrame(t: Track, f: Frame, k: Key): Track {
    if Invalidates(f, k) then t.(clean := false)
    else if !Moves(f, k) then t
    else
      match f.message.value
      case Event(_, _, _, n, payload) =>
        Track(if t.base.None? && n > 0 then Some(n - 1) else t.base, t.seen + [(n, payload)], t.clean)
      case Subscribed(_, _, _, n) => if t.base.None? then t.(base := Some(n)) else t
      case _ => t
  }

  function Watch(t: Track, s: System, steps: seq<Step>, k: Key): Track
    decreases |steps|
  {
    if steps == [] then t else Watch(Observe(t, s, steps[0], k), Do(s, steps[0]), steps[1..], k)
  }

  /** A watch begins at the cursor the client already has, if any. */
  function Beginning(s: System, k: Key): Track { Track(Lookup(s.client.cursors, k), [], true) }

  /** Events `from + 1` up to and including `to` of a log. */
  function Slice(log: seq<string>, from: nat, to: nat): seq<(nat, string)>
    requires from <= to <= |log|
  {
    seq(to - from, i requires 0 <= i < to - from => (from + 1 + i, log[from + i]))
  }

  // ----- the frames in flight, read from the client's cursor ---------------------------

  /** The cursor as it will stand: not set, at a seq, or lost to an `out_of_sync`. */
  datatype Cur = Unset | At(n: nat) | Lost

  function CurOf(cl: Client, k: Key): Cur { if k in cl.cursors then At(cl.cursors[k]) else Unset }

  function AsSince(cur: Cur): Option<nat> { if cur.At? then Some(cur.n) else None }

  function Then(cur: Cur, f: Frame, k: Key): Cur {
    if cur.Lost? || Invalidates(f, k) then Lost
    else if !Moves(f, k) then cur
    else if f.message.value.Event? then At(f.message.value.sequence)
    else if cur.At? then cur
    else At(CursorAdvance(f.message.value).value.1)
  }

  /** An event continues the cursor, if there is one, and is the log's own; an
      acknowledgement does not run ahead of it. */
  predicate Continues(cur: Cur, f: Frame, k: Key, log: seq<string>) {
    cur.Lost? || !Moves(f, k) ||
    match f.message.value
    case Event(_, _, _, n, payload) => 1 <= n <= |log| && payload == log[n - 1] && (cur.At? ==> n == cur.n + 1)
    case Subscribed(_, _, _, n) => n <= (if cur.At? then cur.n else |log|)
    case _ => true
  }

  function After(cur: Cur, fs: seq<Frame>, k: Key): Cur
    decreases |fs|
  {
    if fs == [] then cur else After(Then(cur, fs[0], k), fs[1..], k)
  }

  predicate Smooth(cur: Cur, fs: seq<Frame>, k: Key, log: seq<string>)
    decreases |fs|
  {
    fs == [] || (Continues(cur, fs[0], k, log) && Smooth(Then(cur, fs[0], k), fs[1..], k, log))
  }

  lemma {:induction false} SmoothSnoc(cur: Cur, fs: seq<Frame>, f: Frame, k: Key, log: seq<string>)
    ensures Smooth(cur, fs + [f], k, log) <==> Smooth(cur, fs, k, log) && Continues(After(cur, fs, k), f, k, log)
    ensures After(cur, fs + [f], k) == Then(After(cur, fs, k), f, k)
    decreases |fs|
  {
    if fs == [] {
      assert fs + [f] == [f];
    } else {
      assert (fs + [f])[1..] == fs[1..] + [f];
      SmoothSnoc(Then(cur, fs[0], k), fs[1..], f, k, log);
    }
  }

  lemma {:induction false} SmoothGrows(cur: Cur, fs: seq<Frame>, k: Key, log: seq<string>, more: seq<string>)
    requires Smooth(cur, fs, k, log)
    ensures Smooth(cur, fs, k, log + more)
    decreases |fs|
  {
    if fs != [] {
      SmoothGrows(Then(cur, fs[0], k), fs[1..], k, log, more);
    }
  }

  // ----- the invariant ---------------------------------------------------------------------

  /** On a connection: either the server has taken the one subscribe for `k` and
      everything sent since leads from the cursor to its position, or that
      subscribe is still on its way with the cursor as it will stand. */
  ghost predicate InStep(s: System, c: Conn, k: Key) {
    var cur := CurOf(s.client, k);
    var end := After(cur, c.toClient, k);
    Smooth(cur, c.toClient, k, Log(s, k)) && Agrees(end, c, k, Log(s, k))
  }

  predicate Agrees(end: Cur, c: Conn, k: Key, log: seq<string>) {
    end.Lost? ||
    if k in c.subs then Placed(end, c, k) && c.subs[k] <= |log| && About(c.toServer, k) == []
    else OnlyAsk(About(c.toServer, k), AsSince(end))
  }

  /** One ask, after nothing but unsubscribes. */
  predicate OnlyAsk(asks: seq<Ask>, since: Option<nat>) {
    && asks != [] && asks[|asks| - 1] == Asked(since)
    && forall i :: 0 <= i < |asks| - 1 ==> asks[i].Left?
  }

  /** The frames in flight end at the server's position; or nothing has been sent
      since it joined there at the live edge. */
  predicate Placed(end: Cur, c: Conn, k: Key)
    requires k in c.subs
  {
    && (end == At(c.subs[k]) || (end.Unset? && k in c.joins && c.joins[k] == c.subs[k]))
    && (k in c.joins ==> c.joins[k] <= c.subs[k])
  }

  /** Nothing has been asked or answered about `k` on the connection yet except
      what `InStep` allows; true of every disconnected state. */
  ghost predicate Ready(s: System, k: Key) {
    && DistinctKeys(s.client.channels)
    && Holds(s.client.channels, k)
    && (k in s.client.cursors ==> s.client.cursors[k] <= |Log(s, k)|)
    && (s.conn.Some? ==> InStep(s, s.conn.value, k))
  }

  /** The record so far is the slice of the log from the base to the cursor. */
  ghost predicate Contiguous(s: System, t: Track, k: Key) {
    match Lookup(s.client.cursors, k)
    case None => t.base.None? && t.seen == []
    case Some(cursor) =>
      t.base.Some? && t.base.value <= cursor <= |Log(s, k)| && t.seen == Slice(Log(s, k), t.base.value, cursor)
  }

  ghost predicate Good(s: System, t: Track, k: Key) {
    t.clean ==> Ready(s, k) && Contiguous(s, t, k)
  }

  // ----- steps of the environment and the server -------------------------------------

  lemma AppendKeepsGood(s: System, t: Track, h: Key, payload: string, k: Key)
    requires Good(s, t, k) && t.clean
    ensures Good(Do(s, Append(h, payload)), t, k)
  {
    if h == k && s.conn.Some? {
      SmoothGrows(CurOf(s.client, k), s.conn.value.toClient, k, Log(s, k), [payload]);
    }
    if k in s.client.cursors {
      assert Slice(Log(s, k), t.base.value, s.client.cursors[k])
          == Slice(Log(Do(s, Append(h, payload)), k), t.base.value, s.client.cursors[k]);
    }
  }

  /** One more frame from the server keeps the two sides in step when it
      continues the stream from the server's position. */
  lemma SendingKeepsInStep(s: System, c: Conn, c': Conn, f: Frame, k: Key)
    requires InStep(s, c, k)
    requires c'.toClient == c.toClient + [f]
    requires var end := After(CurOf(s.client, k), c.toClient, k);
             Continues(end, f, k, Log(s, k)) && Agrees(Then(end, f, k), c', k, Log(s, k))
    ensures InStep(s, c', k)
  {
    SmoothSnoc(CurOf(s.client, k), c.toClient, f, k, Log(s, k));
  }

  lemma FramesAreAboutTheirKey(h: Key, n: nat, payload: string, oldestSeq: Option<nat>, k: Key)
    requires KnownName(k.name)
    ensures Moves(EventFrame(h, n, payload), k) <==> h == k
    ensures Moves(AckFrame(h, n), k) <==> h == k
    ensures Invalidates(ResetFrame(h, oldestSeq), k) <==> Covers(h, k)
    ensures !Invalidates(EventFrame(h, n, payload), k) && !Invalidates(AckFrame(h, n), k)
            && !Moves(ResetFrame(h, oldestSeq), k)
  {
  }

  lemma RestOfOnlyAsk(asks: seq<Ask>, since: Option<nat>)
    requires OnlyAsk(asks, since)
    ensures if asks[0].Left? then OnlyAsk(asks[1..], since) else asks == [Asked(since)]
  {
  }

  /** A subscribe is taken silently, or answered with a reset. */
  lemma TakingASubscribeAgrees(s: System, c: Conn, refuse: bool, oldestSeq: Option<nat>, k: Key, end: Cur)
    requires c.toServer != [] && c.toServer[0].Subscribe? && KnownName(k.name) && Agrees(end, c, k, Log(s, k))
    ensures var c', h := Serve(s, c, refuse, oldestSeq), Key(c.toServer[0].channel, c.toServer[0].market);
            || (c'.toClient == c.toClient && Agrees(end, c', k, Log(s, k)))
            || (c'.toClient == c.toClient + [ResetFrame(h, oldestSeq)]
                && Agrees(Then(end, ResetFrame(h, oldestSeq), k), c', k, Log(s, k)))
  {
    AboutHead(c.toServer, k);
    var h, c' := Key(c.toServer[0].channel, c.toServer[0].market), Serve(s, c, refuse, oldestSeq);
    SubscribesAreAnsweredByResets(s, c, refuse, oldestSeq);
    if h != k {
      assert AboutOne(c.toServer[0], k) == [];
      OtherSubscribeAgrees(s, c, refuse, oldestSeq, k, end);
      ResetAgrees(end, h, oldestSeq, c', k, Log(s, k));
    } else {
      if !end.Lost? { OwnSubscribeAgrees(s, c, refuse, oldestSeq, k, end); }
      ResetLoses(end, oldestSeq, k);
    }
  }

  lemma SubscribesAreAnsweredByResets(s: System, c: Conn, refuse: bool, oldestSeq: Option<nat>)
    requires c.toServer != [] && c.toServer[0].Subscribe?
    ensures var c', h := Serve(s, c, refuse, oldestSeq), Key(c.toServer[0].channel, c.toServer[0].market);
            c'.toClient == c.toClient || c'.toClient == c.toClient + [ResetFrame(h, oldestSeq)]
  {
  }

  /** A reset loses the cursor or leaves it. */
  lemma ResetAgrees(end: Cur, h: Key, oldestSeq: Option<nat>, c: Conn, k: Key, log: seq<string>)
    requires Agrees(end, c, k, log) && KnownName(k.name)
    ensures Agrees(Then(end, ResetFrame(h, oldestSeq), k), c, k, log)
  {
    FramesAreAboutTheirKey(h, 0, "", oldestSeq, k);
  }

  lemma ResetLoses(end: Cur, oldestSeq: Option<nat>, k: Key)
    requires KnownName(k.name)
    ensures Then(end, ResetFrame(k, oldestSeq), k).Lost?
  {
    FramesAreAboutTheirKey(k, 0, "", oldestSeq, k);
  }

  /** A subscribe for another stream changes nothing about this one. */
  lemma OtherSubscribeAgrees(s: System, c: Conn, refuse: bool, oldestSeq: Option<nat>, k: Key, end: Cur)
    requires c.toServer != [] && c.toServer[0].Subscribe? && Agrees(end, c, k, Log(s, k))
    requires Key(c.toServer[0].channel, c.toServer[0].market) != k && About(c.toServer, k) == About(c.toServer[1..], k)
    ensures Agrees(end, Serve(s, c, refuse, oldestSeq), k, Log(s, k))
  {
  }

  /** The one subscribe on its way is served from the cursor it carries, or reset. */
  lemma OwnSubscribeAgrees(s: System, c: Conn, refuse: bool, oldestSeq: Option<nat>, k: Key, end: Cur)
    requires c.toServer != [] && c.toServer[0].Subscribe? && Agrees(end, c, k, Log(s, k)) && !end.Lost?
    requires Key(c.toServer[0].channel, c.toServer[0].market) == k
    requires About(c.toServer, k) != [] && About(c.toServer, k)[0] == Asked(c.toServer[0].since)
    requires About(c.toServer, k)[1..] == About(c.toServer[1..], k)
    ensures var c' := Serve(s, c, refuse, oldestSeq); c'.toClient == c.toClient ==> Agrees(end, c', k, Log(s, k))
  {
    assert k !in c.subs;
    RestOfOnlyAsk(About(c.toServer, k), AsSince(end));
    assert About(c.toServer[1..], k) == [] && c.toServer[0].since == AsSince(end);
  }

  lemma TakingAnUnsubscribeAgrees(s: System, c: Conn, refuse: bool, oldestSeq: Option<nat>, k: Key, end: Cur)
    requires c.toServer != [] && !c.toServer[0].Subscribe? && Agrees(end, c, k, Log(s, k))
    ensures Agrees(end, Serve(s, c, refuse, oldestSeq), k, Log(s, k))
  {
    AboutHead(c.toServer, k);
    if c.toServer[0].Unsubscribe? && Key(c.toServer[0].channel, c.toServer[0].market) == k && !end.Lost? {
      assert k !in c.subs;
      RestOfOnlyAsk(About(c.toServer, k), AsSince(end));
    }
  }

  lemma ServingKeepsInStep(s: System, c: Conn, refuse: bool, oldestSeq: Option<nat>, k: Key)
    requires InStep(s, c, k) && KnownName(k.name) && c.toServer != []
    ensures InStep(s, Serve(s, c, refuse, oldestSeq), k)
  {
    var c', end := Serve(s, c, refuse, oldestSeq), After(CurOf(s.client, k), c.toClient, k);
    if c.toServer[0].Subscribe? {
      TakingASubscribeAgrees(s, c, refuse, oldestSeq, k, end);
    } else {
      TakingAnUnsubscribeAgrees(s, c, refuse, oldestSeq, k, end);
    }
    if |c'.toClient| > |c.toClient| {
      AnswersAreHarmless(k);
      SendingKeepsInStep(s, c, c', c'.toClient[|c.toClient|], k);
    }
  }

  /** Neither a reset nor the word that a stream was left moves a cursor. */
  lemma AnswersAreHarmless(k: Key)
    ensures forall m: ServerMessage :: m.OutOfSync? || m.Unsubscribed? ==> !Moves(Data(Some(m)), k)
  {
  }

  lemma EventKeepsInStep(s: System, c: Conn, h: Key, k: Key)
    requires InStep(s, c, k) && KnownName(k.name)
    ensures InStep(s, ServerStep(s, c, SendEvent(h)), k)
  {
    var c' := ServerStep(s, c, SendEvent(h));
    if |c'.toClient| > |c.toClient| {
      FramesAreAboutTheirKey(h, c.subs[h] + 1, Log(s, h)[c.subs[h]], None, k);
      SendingKeepsInStep(s, c, c', c'.toClient[|c.toClient|], k);
    }
  }

  lemma AckKeepsInStep(s: System, c: Conn, h: Key, n: nat, k: Key)
    requires InStep(s, c, k) && KnownName(k.name)
    ensures InStep(s, ServerStep(s, c, SendAck(h, n)), k)
  {
    var c' := ServerStep(s, c, SendAck(h, n));
    if |c'.toClient| > |c.toClient| {
      FramesAreAboutTheirKey(h, n, "", None, k);
      SendingKeepsInStep(s, c, c', AckFrame(h, n), k);
    }
  }

  lemma DroppingKeepsInStep(s: System, c: Conn, reset: Key, oldestSeq: Option<nat>, k: Key)
    requires InStep(s, c, k) && KnownName(k.name)
    ensures InStep(s, ServerStep(s, c, DropSubscriptions(reset, oldestSeq)), k)
  {
    FramesAreAboutTheirKey(reset, 0, "", oldestSeq, k);
    SendingKeepsInStep(s, c, ServerStep(s, c, DropSubscriptions(reset, oldestSeq)), ResetFrame(reset, oldestSeq), k);
  }

  lemma OtherKeepsInStep(s: System, c: Conn, f: Frame, k: Key)
    requires InStep(s, c, k)
    ensures InStep(s, ServerStep(s, c, SendOther(f)), k)
  {
    if Harmless(f) {
      SendingKeepsInStep(s, c, ServerStep(s, c, SendOther(f)), f, k);
    }
  }

  lemma ServerKeepsInStep(s: System, c: Conn, step: Step, k: Key)
    requires InStep(s, c, k) && KnownName(k.name)
    ensures InStep(s, ServerStep(s, c, step), k)
  {
    match step {
      case ServerRead(refuse, oldestSeq) =>
        if c.toServer != [] { ServingKeepsInStep(s, c, refuse, oldestSeq, k); }
      case SendEvent(h) => EventKeepsInStep(s, c, h, k);
      case SendAck(h, n) => AckKeepsInStep(s, c, h, n, k);
      case DropSubscriptions(reset, oldestSeq) => DroppingKeepsInStep(s, c, reset, oldestSeq, k);
      case SendOther(f) => OtherKeepsInStep(s, c, f, k);
      case _ =>
    }
  }

  // ----- steps of the client -----------------------------------------------------------

  lemma SliceGrows(log: seq<string>, from: nat, to: nat)
    requires from <= to < |log|
    ensures Slice(log, from, to + 1) == Slice(log, from, to) + [(to + 1, log[to])]
  {
  }

  /** What a frame that does not invalidate the stream does to its cursor. */
  lemma FrameMovesCursor(cl: Client, f: Frame, sends: nat, gone: bool, k: Key, log: seq<string>)
    requires !Invalidates(f, k) && Continues(CurOf(cl, k), f, k, log)
    ensures CurOf(HandleFrame(cl, f, sends, gone).client, k) == Then(CurOf(cl, k), f, k)
    ensures HandleFrame(cl, f, sends, gone).client.channels == cl.channels
  {
    if f.Data? && f.message.Some? {
      var m := f.message.value;
      var folded := Advance(cl.cursors, m);
      if CursorReset(m).Some? {
        ResyncSparesOthers(cl.channels, folded, CursorReset(m).value, sends, k);
        assert Lookup(HandleFrame(cl, f, sends, gone).client.cursors, k) == Lookup(folded, k);
      }
    }
  }

  lemma ReadingStaysInStep(s: System, c: Conn, sends: nat, gone: bool, k: Key)
    requires s.conn == Some(c) && c.toClient != [] && InStep(s, c, k) && !Invalidates(c.toClient[0], k)
    ensures var s' := Do(s, ClientRead(sends, gone)); s'.conn.Some? ==> InStep(s', s'.conn.value, k)
  {
    var f := c.toClient[0];
    FrameMovesCursor(s.client, f, sends, gone, k, Log(s, k));
    OtherFramesAskNothing(s.client, f, sends, gone, k);
    AboutAppend(c.toServer, HandleFrame(s.client, f, sends, gone).sent, k);
  }

  lemma ReadingKeepsGood(s: System, t: Track, sends: nat, gone: bool, k: Key)
    requires Good(s, t, k) && s.conn.Some? && s.conn.value.toClient != []
    ensures Good(Do(s, ClientRead(sends, gone)), ObserveFrame(t, s.conn.value.toClient[0], k), k)
  {
    var c := s.conn.value;
    var f := c.toClient[0];
    var cur, log := CurOf(s.client, k), Log(s, k);
    if t.clean && !Invalidates(f, k) {
      ReadingStaysInStep(s, c, sends, gone, k);
      FrameMovesCursor(s.client, f, sends, gone, k, log);
      RecordGrows(s, t, f, HandleFrame(s.client, f, sends, gone).client, k);
    }
  }

  /** The record follows the cursor. */
  lemma RecordGrows(s: System, t: Track, f: Frame, next: Client, k: Key)
    requires Contiguous(s, t, k) && !Invalidates(f, k) && Continues(CurOf(s.client, k), f, k, Log(s, k))
    requires CurOf(next, k) == Then(CurOf(s.client, k), f, k)
    ensures Contiguous(s.(client := next), ObserveFrame(t, f, k), k)
  {
    var cur, log := CurOf(s.client, k), Log(s, k);
    if Moves(f, k) && f.message.value.Event? {
      if cur.At? {
        SliceGrows(log, t.base.value, cur.n);
      } else {
        SliceGrows(log, f.message.value.sequence - 1, f.message.value.sequence - 1);
      }
    }
  }

  lemma CommandAsksNothing(cl: Client, cmd: Command, authed: bool, sends: nat, k: Key)
    requires Holds(cl.channels, k) && !(cmd.Remove? && CursorKey(cmd.channel) == k)
    ensures About(OnCommand(cl, cmd, authed, sends).sent, k) == []
  {
    var sent := OnCommand(cl, cmd, authed, sends).sent;
    if sent != [] {
      assert About(sent, k) == AboutOne(sent[0], k) + About([], k);
    }
  }

  lemma ApplyKeepsHeld(cl: Client, cmd: Command, k: Key)
    requires Holds(cl.channels, k) && !(cmd.Remove? && CursorKey(cmd.channel) == k)
    ensures Holds(Apply(cl, cmd).channels, k) && Lookup(Apply(cl, cmd).cursors, k) == Lookup(cl.cursors, k)
  {
    match cmd {
      case Add(ch) => HoldsSnoc(cl.channels, ch);
      case Remove(ch) => RetainFacts(cl.channels, CursorKey(ch));
      case Close =>
    }
  }

  lemma CommandKeepsReady(s: System, cmd: Command, sends: nat, k: Key)
    requires Ready(s, k) && s.conn.Some? && !(cmd.Remove? && CursorKey(cmd.channel) == k)
    ensures var s' := Do(s, ClientCommand(cmd, sends));
            Ready(s', k) && Lookup(s'.client.cursors, k) == Lookup(s.client.cursors, k)
  {
    var c := s.conn.value;
    ClientKeysStayDistinct(s, ClientCommand(cmd, sends));
    ApplyKeepsHeld(s.client, cmd, k);
    ConnectedCommandsApply(s.client, cmd, c.authed, sends);
    CommandAsksNothing(s.client, cmd, c.authed, sends, k);
    SilenceKeepsInStep(s, c, OnCommand(s.client, cmd, c.authed, sends), k);
  }

  /** A client step that writes nothing about a stream and leaves its cursor. */
  lemma SilenceKeepsInStep(s: System, c: Conn, r: Stepped, k: Key)
    requires s.conn == Some(c) && InStep(s, c, k)
    requires About(r.sent, k) == [] && Lookup(r.client.cursors, k) == Lookup(s.client.cursors, k)
    ensures var s' := AfterClient(s, c, r); s'.conn.Some? ==> InStep(s', s'.conn.value, k)
  {
    AboutAppend(c.toServer, r.sent, k);
    assert About(c.toServer, k) + [] == About(c.toServer, k);
  }

  lemma BackoffKeepsReady(s: System, cmd: Command, k: Key)
    requires Ready(s, k) && s.conn.None? && !(cmd.Remove? && CursorKey(cmd.channel) == k)
    ensures var s' := Do(s, BackoffCommand(cmd));
            Ready(s', k) && Lookup(s'.client.cursors, k) == Lookup(s.client.cursors, k)
  {
    ClientKeysStayDistinct(s, BackoffCommand(cmd));
    ApplyKeepsHeld(s.client, cmd, k);
  }

  lemma ServerStepKeepsGood(s: System, t: Track, step: Step, k: Key)
    requires Good(s, t, k) && t.clean && s.conn.Some?
    requires step.ServerRead? || step.SendEvent? || step.SendAck? || step.DropSubscriptions? || step.SendOther?
    ensures Good(Do(s, step), t, k)
  {
    var c := s.conn.value;
    var i :| 0 <= i < |s.client.channels| && CursorKey(s.client.channels[i]) == k;
    ServerKeepsInStep(s, c, step, k);
    assert InStep(s, ServerStep(s, c, step), k);
  }

  lemma FreshConnectionIsInStep(s: System, authed: bool, k: Key)
    requires DistinctKeys(s.client.channels) && Holds(s.client.channels, k)
    ensures InStep(s, Conn(authed, Replays(s.client.channels, s.client.cursors), [], map[], map[]), k)
  {
    ReplaysAskOnce(s.client.channels, s.client.cursors, k);
  }

  lemma ConnectKeepsGood(s: System, t: Track, authed: bool, sends: nat, k: Key)
    requires Good(s, t, k) && t.clean
    ensures Good(Do(s, Connect(authed, sends)), t, k)
  {
    if s.conn.None? { FreshConnectionIsInStep(s, authed, k); }
  }

  lemma ClientReadKeepsGood(s: System, t: Track, sends: nat, gone: bool, k: Key)
    requires Good(s, t, k)
    ensures var step := ClientRead(sends, gone); Good(Do(s, step), Observe(t, s, step, k), k)
  {
    if s.conn.Some? && s.conn.value.toClient != [] { ReadingKeepsGood(s, t, sends, gone, k); }
  }

  lemma ClientCommandKeepsGood(s: System, t: Track, cmd: Command, sends: nat, k: Key)
    requires Good(s, t, k) && t.clean
    ensures var step := ClientCommand(cmd, sends); Good(Do(s, step), Observe(t, s, step, k), k)
  {
    if s.conn.Some? && !(cmd.Remove? && CursorKey(cmd.channel) == k) { CommandKeepsReady(s, cmd, sends, k); }
  }

  lemma BackoffCommandKeepsGood(s: System, t: Track, cmd: Command, k: Key)
    requires Good(s, t, k) && t.clean
    ensures var step := BackoffCommand(cmd); Good(Do(s, step), Observe(t, s, step, k), k)
  {
    if s.conn.None? && !(cmd.Remove? && CursorKey(cmd.channel) == k) { BackoffKeepsReady(s, cmd, k); }
  }

  lemma QuietStepKeepsGood(s: System, t: Track, step: Step, k: Key)
    requires Good(s, t, k) && (step.Evict? || step.Disconnect?)
    ensures Good(Do(s, step), Observe(t, s, step, k), k)
  {
  }

  lemma StepKeepsGood(s: System, t: Track, step: Step, k: Key)
    requires Good(s, t, k)
    ensures Good(Do(s, step), Observe(t, s, step, k), k)
  {
    if t.clean {
      match step {
        case Append(h, payload) => AppendKeepsGood(s, t, h, payload, k);
        case Evict(_, _) => QuietStepKeepsGood(s, t, step, k);
        case Connect(authed, sends) => ConnectKeepsGood(s, t, authed, sends, k);
        case Disconnect => QuietStepKeepsGood(s, t, step, k);
        case ClientRead(sends, gone) => ClientReadKeepsGood(s, t, sends, gone, k);
        case ClientCommand(cmd, sends) => ClientCommandKeepsGood(s, t, cmd, sends, k);
        case BackoffCommand(cmd) => BackoffCommandKeepsGood(s, t, cmd, k);
        case _ => if s.conn.Some? { ServerStepKeepsGood(s, t, step, k); }
      }
    } else {
      UncleanStaysUnclean(t, s, step, k);
    }
  }

  lemma UncleanStaysUnclean(t: Track, s: System, step: Step, k: Key)
    requires !t.clean
    ensures !Observe(t, s, step, k).clean
  {
  }

  lemma {:induction false} WatchStaysGood(s: System, t: Track, steps: seq<Step>, k: Key)
    requires Good(s, t, k)
    ensures Good(Run(s, steps), Watch(t, s, steps, k), k)
    decreases |steps|
  {
    if steps != [] {
      StepKeepsGood(s, t, steps[0], k);
      WatchStaysGood(Do(s, steps[0]), Observe(t, s, steps[0], k), steps[1..], k);
    }
  }

  /** The headline. Start from any disconnected state holding the stream. As long
      as it stays held and no `out_of_sync` for it is processed, whatever else
      happens: every event processed, over all connections, is the slice of the
      server's log from the starting cursor up to the current one, with nothing
      missing, repeated or reordered. Without a starting cursor it starts at the
      first `seq_at_join`, or just before the first event if that comes first. */
  lemma GapFreeResume(s: System, steps: seq<Step>, k: Key)
    requires s.conn.None? && DistinctKeys(s.client.channels) && Holds(s.client.channels, k)
    requires k in s.client.cursors ==> s.client.cursors[k] <= |Log(s, k)|
    ensures var s', t := Run(s, steps), Watch(Beginning(s, k), s, steps, k);
            t.clean ==> Contiguous(s', t, k) && (k in s.client.cursors ==> t.base == Some(s.client.cursors[k]))
  {
    WatchStaysGood(s, Beginning(s, k), steps, k);
    if k in s.client.cursors {
      BaseIsKept(Beginning(s, k), s, steps, k);
    }
  }

  lemma {:induction false} BaseIsKept(t: Track, s: System, steps: seq<Step>, k: Key)
    requires t.base.Some?
    ensures Watch(t, s, steps, k).base == t.base
    decreases |steps|
  {
    if steps != [] {
      BaseIsKept(Observe(t, s, steps[0], k), Do(s, steps[0]), steps[1..], k);
    }
  }
}
