/** Asking for a stream on a connection that is up, in a subscribe of the caller's
    or after an `out_of_sync`: exactly when the events come without a gap. */
module Rejoin {
  import opened Common
  import opened Protocol
  import opened TypedClient
  import opened StreamSystem
  import opened GapFree
  import opened WithinLog
  import opened Confirmation

  // ----- a quiet stream is gap-free from the ask on ------------------------------------------

  /** What was just said of the stream is a subscribe, from the client's cursor. */
  ghost predicate JustAsked(s: System, k: Key) {
    && DistinctKeys(s.client.channels) && Holds(s.client.channels, k) && s.conn.Some?
    && LastAsk(About(s.conn.value.toServer, k)) == Some(Asked(Lookup(s.client.cursors, k)))
  }

  function LastAsk(asks: seq<Ask>): Option<Ask> { if asks == [] then None else Some(asks[|asks| - 1]) }

  /** That is all there is about the stream but unsubscribes. */
  ghost predicate Alone(c: Conn, k: Key, cursor: Option<nat>) {
    var asks := About(c.toServer, k);
    && k !in c.subs && asks != [] && AllLeft(asks[..|asks| - 1])
    && !SomeStirs(c.toClient, k, cursor)
  }

  ghost predicate SomeStirs(fs: seq<Frame>, k: Key, cursor: Option<nat>) { exists f :: f in fs && Stirs(f, k, cursor) }

  /** Whatever happens from here, the events processed until the stream is left or
      told `out_of_sync` are a slice of its log without a gap. */
  ghost predicate StaysGapFree(s: System, steps: seq<Step>, k: Key) {
    var t := Watch(Beginning(s, k), s, steps, k);
    t.clean ==> Contiguous(Run(s, steps), t, k)
  }

  lemma {:induction false} QuietFramesAreSmooth(cur: Cur, fs: seq<Frame>, k: Key, log: seq<string>)
    requires cur.Lost? || !SomeStirs(fs, k, AsSince(cur))
    ensures Smooth(cur, fs, k, log) && (After(cur, fs, k) == cur || After(cur, fs, k).Lost?)
    decreases |fs|
  {
    if fs != [] {
      assert fs[0] in fs && forall f :: f in fs[1..] ==> f in fs;
      QuietFramesAreSmooth(Then(cur, fs[0], k), fs[1..], k, log);
    }
  }

  lemma AskedAloneIsGapFree(s: System, steps: seq<Step>, k: Key)
    requires JustAsked(s, k) && Alone(s.conn.value, k, Lookup(s.client.cursors, k))
    requires k in s.client.cursors ==> s.client.cursors[k] <= |Log(s, k)|
    ensures StaysGapFree(s, steps, k)
  {
    var c := s.conn.value;
    var asks := About(c.toServer, k);
    QuietFramesAreSmooth(CurOf(s.client, k), c.toClient, k, Log(s, k));
    assert forall i :: 0 <= i < |asks| - 1 ==> asks[i] == asks[..|asks| - 1][i];
    assert OnlyAsk(asks, Lookup(s.client.cursors, k));
    WatchStaysGood(s, Beginning(s, k), steps, k);
  }

  lemma LostConnectionIsGapFree(s: System, steps: seq<Step>, k: Key)
    requires DistinctKeys(s.client.channels) && Holds(s.client.channels, k) && s.conn.None?
    requires k in s.client.cursors ==> s.client.cursors[k] <= |Log(s, k)|
    ensures StaysGapFree(s, steps, k)
  {
    GapFreeResume(s, steps, k);
  }

  // ----- and any other is not ------------------------------------------------------------------

  /** Nothing in flight ends the connection or the subscription. */
  ghost predicate Clear(fs: seq<Frame>, k: Key) { forall f :: f in fs ==> !f.Closing? && !Invalidates(f, k) }

  /** The ring buffer covers the live edge, where the server stands, and every ask
      in flight. */
  ghost predicate Servable(s: System, c: Conn, k: Key) {
    && Oldest(s, k) <= |Log(s, k)| + 1
    && (k in c.subs ==> Oldest(s, k) <= c.subs[k] + 1)
    && forall a :: a in About(c.toServer, k) ==> Buffered(a, Oldest(s, k))
  }

  predicate Buffered(a: Ask, oldest: nat) { a.Asked? && a.since.Some? ==> oldest <= a.since.value + 1 }

  /** A connection on which the stream is neither ended nor due to be. */
  ghost predicate Undisturbed(s: System, c: Conn, k: Key) {
    Clear(c.toClient, k) && Servable(s, c, k) && Sane(c, k, |Log(s, k)|)
  }

  ghost predicate Offstage(steps: seq<Step>) { forall step :: step in steps ==> Unseen(step) }

  predicate Unseen(step: Step) { step.Append? || step.ServerRead? || step.SendEvent? || step.SendAck? }

  lemma {:induction false} RunAppend(t: Track, s: System, a: seq<Step>, b: seq<Step>, k: Key)
    ensures Run(s, a + b) == Run(Run(s, a), b)
    ensures Watch(t, s, a + b, k) == Watch(Watch(t, s, a, k), Run(s, a), b, k)
    decreases |a|
  {
    if a == [] {
      assert a + b == b;
    } else {
      assert (a + b)[1..] == a[1..] + b;
      RunAppend(Observe(t, s, a[0], k), Do(s, a[0]), a[1..], b, k);
    }
  }

  lemma {:induction false} NothingIsSeen(t: Track, s: System, steps: seq<Step>, k: Key)
    requires Offstage(steps)
    ensures Watch(t, s, steps, k) == t
    decreases |steps|
  {
    if steps != [] {
      assert Unseen(steps[0]);
      NothingIsSeen(t, Do(s, steps[0]), steps[1..], k);
    }
  }

  lemma {:induction false} AppendMany(s: System, k: Key, n: nat) returns (steps: seq<Step>)
    ensures Offstage(steps)
    ensures var s' := Run(s, steps);
            s'.client == s.client && s'.conn == s.conn && s'.oldest == s.oldest && |Log(s', k)| == |Log(s, k)| + n
    decreases n
  {
    steps := [];
    if n > 0 {
      var rest := AppendMany(Do(s, Append(k, "")), k, n - 1);
      steps := [Append(k, "")] + rest;
      assert steps[1..] == rest;
    }
  }

  /** What taking a message does to the stream, when it is not refused. */
  predicate Taken(c: Conn, c': Conn, k: Key, one: seq<Ask>, log: nat) {
    && (one == [] ==> (k in c'.subs <==> k in c.subs) && (k in c.subs ==> c'.subs[k] == c.subs[k]))
    && (one != [] && one[0].Asked? ==> k in c'.subs && c'.subs[k] == Joined(one[0].since, log))
    && (one == [Left] ==> k !in c'.subs)
  }

  /** Where a subscribe joins. */
  function Joined(since: Option<nat>, log: nat): nat { if since.Some? then since.value else log }

  /** At most one frame in answer, which neither moves the stream nor ends anything. */
  ghost predicate Answered(c: Conn, c': Conn, k: Key) {
    || c'.toClient == c.toClient
    || exists f :: c'.toClient == c.toClient + [f] && !Moves(f, k) && !Invalidates(f, k) && !f.Closing?
  }

  lemma TakingAnOwnAsk(s: System, c: Conn, k: Key)
    requires c.toServer != [] && c.toServer[0].Subscribe? && Key(c.toServer[0].channel, c.toServer[0].market) == k
    requires var a := Asked(c.toServer[0].since); Buffered(a, Oldest(s, k)) && AsksWithin(a, |Log(s, k)|)
    ensures var c' := Serve(s, c, false, None);
            c'.toClient == c.toClient && Taken(c, c', k, [Asked(c.toServer[0].since)], |Log(s, k)|)
  {
  }

  lemma TakingAnotherAsk(s: System, c: Conn, k: Key)
    requires c.toServer != [] && c.toServer[0].Subscribe? && NamesAChannel(c.toServer[0]) && Formed(k)
    requires Key(c.toServer[0].channel, c.toServer[0].market) != k
    ensures var c' := Serve(s, c, false, None); Answered(c, c', k) && Taken(c, c', k, [], |Log(s, k)|)
  {
    FramesAreAboutTheirKey(Key(c.toServer[0].channel, c.toServer[0].market), 0, "", None, k);
  }

  lemma TakingAnythingElse(s: System, c: Conn, k: Key)
    requires c.toServer != [] && !c.toServer[0].Subscribe?
    ensures var c' := Serve(s, c, false, None);
            Answered(c, c', k) && Taken(c, c', k, AboutOne(c.toServer[0], k), |Log(s, k)|)
  {
  }

  lemma ServingOn(s: System, c: Conn, k: Key)
    requires Undisturbed(s, c, k) && c.toServer != [] && Formed(k)
    ensures var c' := Serve(s, c, false, None);
            && Undisturbed(s, c', k) && c'.toServer == c.toServer[1..]
            && Answered(c, c', k) && Taken(c, c', k, AboutOne(c.toServer[0], k), |Log(s, k)|)
  {
    var m := c.toServer[0];
    AboutHead(c.toServer, k);
    ServingStaysSane(s, c, false, None, k);
    assert m in c.toServer && NamesAChannel(m);
    if m.Subscribe? && Key(m.channel, m.market) == k {
      assert Asked(m.since) in About(c.toServer, k);
      TakingAnOwnAsk(s, c, k);
    } else if m.Subscribe? {
      TakingAnotherAsk(s, c, k);
    } else {
      TakingAnythingElse(s, c, k);
    }
    StaysUndisturbed(s, c, Serve(s, c, false, None), k);
  }

  lemma StaysUndisturbed(s: System, c: Conn, c': Conn, k: Key)
    requires Undisturbed(s, c, k) && Sane(c', k, |Log(s, k)|) && Answered(c, c', k)
    requires c.toServer != [] && c'.toServer == c.toServer[1..]
    requires Taken(c, c', k, AboutOne(c.toServer[0], k), |Log(s, k)|)
    ensures Undisturbed(s, c', k)
  {
    AboutHead(c.toServer, k);
    var one := AboutOne(c.toServer[0], k);
    assert one != [] ==> one[0] in About(c.toServer, k);
    forall a | a in About(c'.toServer, k) ensures Buffered(a, Oldest(s, k)) {
      assert a in About(c.toServer, k);
    }
  }

  lemma ServerReads(s: System)
    requires s.conn.Some? && s.conn.value.toServer != []
    ensures Do(s, ServerRead(false, None)) == s.(conn := Some(Serve(s, s.conn.value, false, None)))
  {
  }

  /** Everything in flight to the server taken: the stream is joined where the last
      ask says. */
  lemma {:induction false} ServeAll(s: System, k: Key, at: nat, log: nat) returns (steps: seq<Step>)
    requires s.conn.Some? && Undisturbed(s, s.conn.value, k) && Formed(k)
    requires forall f :: f in s.conn.value.toClient ==> Numbered(f, k, log)
    requires var c := s.conn.value;
             match LastAsk(About(c.toServer, k))
             case None => k in c.subs && c.subs[k] == at
             case Some(a) => a.Asked? && Joined(a.since, |Log(s, k)|) == at
    ensures Offstage(steps)
    ensures var s', c := Run(s, steps), s.conn.value;
            && s'.client == s.client && s'.logs == s.logs && s'.oldest == s.oldest && s'.conn.Some?
            && k in s'.conn.value.subs && s'.conn.value.subs[k] == at && Undisturbed(s', s'.conn.value, k)
            && c.toClient <= s'.conn.value.toClient
            && |s'.conn.value.toClient| <= |c.toClient| + |c.toServer|
            && (forall f :: f in s'.conn.value.toClient ==> Numbered(f, k, log))
    decreases |s.conn.value.toServer|
  {
    var c := s.conn.value;
    steps := [];
    if c.toServer != [] {
      AboutHead(c.toServer, k);
      ServingOn(s, c, k);
      ServerReads(s);
      var rest := ServeAll(Do(s, ServerRead(false, None)), k, at, log);
      steps := [ServerRead(false, None)] + rest;
      assert steps[1..] == rest;
    }
  }

  /** The next event after where the server stands. */
  function NextEvent(k: Key): seq<Step> { [Append(k, ""), SendEvent(k)] }

  lemma NextEventIsSent(s: System, k: Key) returns (f: Frame)
    requires s.conn.Some? && Undisturbed(s, s.conn.value, k) && k in s.conn.value.subs && KnownName(k.name)
    ensures var s', c := Run(s, NextEvent(k)), s.conn.value;
            && s'.client == s.client && s'.conn.Some? && Undisturbed(s', s'.conn.value, k)
            && s'.conn.value.toServer == c.toServer && s'.conn.value.toClient == c.toClient + [f]
            && Moves(f, k) && f.message.value.Event? && f.message.value.sequence == c.subs[k] + 1
  {
    var c, s1 := s.conn.value, Do(s, Append(k, ""));
    assert NextEvent(k)[1..] == [SendEvent(k)] && NextEvent(k)[1..][1..] == [];
    assert Run(s1, NextEvent(k)[1..]) == Run(Do(s1, SendEvent(k)), []);
    assert Log(s1, k) == Log(s, k) + [""];
    f := EventFrame(k, c.subs[k] + 1, Log(s1, k)[c.subs[k]]);
    FramesAreAboutTheirKey(k, c.subs[k] + 1, Log(s1, k)[c.subs[k]], None, k);
    GrowingIsUndisturbed(s, s1, c, k);
    SendingStaysSane(s1, c, SendEvent(k), k);
  }

  lemma GrowingIsUndisturbed(s: System, s': System, c: Conn, k: Key)
    requires Undisturbed(s, c, k) && |Log(s', k)| >= |Log(s, k)| && s'.oldest == s.oldest
    ensures Undisturbed(s', c, k)
  {
  }

  /** What is recorded of a stream that is not alone can be stirred from the past. */
  lemma {:induction false} StirredFromThePast(s: System, k: Key, cursor: Option<nat>) returns (steps: seq<Step>)
    requires s.conn.Some? && Undisturbed(s, s.conn.value, k) && Formed(k)
    requires LastAsk(About(s.conn.value.toServer, k)) == Some(Asked(cursor)) && !Alone(s.conn.value, k, cursor)
    ensures Offstage(steps)
    ensures var s' := Run(s, steps);
            && s'.client == s.client && s'.conn.Some?
            && Undisturbed(s', s'.conn.value, k) && SomeStirs(s'.conn.value.toClient, k, cursor)
            && LastAsk(About(s'.conn.value.toServer, k)) == Some(Asked(cursor))
    decreases |s.conn.value.toServer|
  {
    var c := s.conn.value;
    if SomeStirs(c.toClient, k, cursor) {
      steps := [];
    } else if k in c.subs {
      var f := NextEventIsSent(s, k);
      steps := NextEvent(k);
      assert f in Run(s, steps).conn.value.toClient && Stirs(f, k, cursor);
    } else {
      AboutHead(c.toServer, k);
      ServingOn(s, c, k);
      ServerReads(s);
      NotAloneYet(c, Serve(s, c, false, None), k, cursor, |Log(s, k)|);
      var rest := StirredFromThePast(Do(s, ServerRead(false, None)), k, cursor);
      steps := [ServerRead(false, None)] + rest;
      assert steps[1..] == rest;
    }
  }

  lemma NotAloneYet(c: Conn, c': Conn, k: Key, cursor: Option<nat>, log: nat)
    requires !Alone(c, k, cursor) && !SomeStirs(c.toClient, k, cursor) && k !in c.subs && c.toServer != []
    requires LastAsk(About(c.toServer, k)) == Some(Asked(cursor))
    requires c'.toServer == c.toServer[1..] && Taken(c, c', k, AboutOne(c.toServer[0], k), log)
    ensures LastAsk(About(c'.toServer, k)) == Some(Asked(cursor)) && !Alone(c', k, cursor)
  {
    var asks, one := About(c.toServer, k), AboutOne(c.toServer[0], k);
    AboutHead(c.toServer, k);
    assert !AllLeft(asks[..|asks| - 1]);
    var i :| 0 <= i < |asks| - 1 && asks[..|asks| - 1][i].Asked?;
    if one == [Left] {
      assert asks[1..][..|asks| - 2][i - 1] == asks[i];
    }
  }

  // ----- reading everything ---------------------------------------------------------------------

  function Recorded(t: Track, fs: seq<Frame>, k: Key): Track
    decreases |fs|
  {
    if fs == [] then t else Recorded(ObserveFrame(t, fs[0], k), fs[1..], k)
  }

  lemma {:induction false} RecordedSnoc(t: Track, fs: seq<Frame>, f: Frame, k: Key)
    ensures Recorded(t, fs + [f], k) == ObserveFrame(Recorded(t, fs, k), f, k)
    decreases |fs|
  {
    if fs == [] {
      assert fs + [f] == [f];
      assert Recorded(t, [f], k) == Recorded(ObserveFrame(t, f, k), [], k);
    } else {
      assert (fs + [f])[1..] == fs[1..] + [f];
      RecordedSnoc(ObserveFrame(t, fs[0], k), fs[1..], f, k);
    }
  }

  ghost predicate SomeEvents(fs: seq<Frame>, k: Key) {
    exists f :: f in fs && Moves(f, k) && f.message.value.Event?
  }

  /** A record starts no later than the first frame that moves the stream, and holds
      the events and nothing else. */
  lemma {:induction false} RecordOf(t: Track, fs: seq<Frame>, k: Key, log: nat)
    requires t.clean && Clear(fs, k) && (forall f :: f in fs ==> Numbered(f, k, log))
    ensures var r := Recorded(t, fs, k);
            && r.clean && |t.seen| <= |r.seen| <= |t.seen| + |fs|
            && (t.base.Some? ==> r.base == t.base)
            && (t.base.None? && SomeStirs(fs, k, None) ==> r.base.Some? && r.base.value <= log)
            && (SomeEvents(fs, k) <==> |r.seen| > |t.seen|)
    decreases |fs|
  {
    if fs != [] {
      var rest, t' := fs[1..], ObserveFrame(t, fs[0], k);
      assert fs == [fs[0]] + rest && fs[0] in fs;
      RecordOf(t', rest, k, log);
      assert SomeStirs(fs, k, None) <==> Stirs(fs[0], k, None) || SomeStirs(rest, k, None);
      assert SomeEvents(fs, k) <==> (Moves(fs[0], k) && fs[0].message.value.Event?) || SomeEvents(rest, k);
    }
  }

  predicate AtLeast(cursors: map<Key, nat>, k: Key, n: nat) { k in cursors && cursors[k] >= n }

  lemma {:induction false} ResyncGetsThrough(channels: seq<Channel>, cursors: map<Key, nat>, reset: Key, sends: nat)
    requires sends >= |channels|
    ensures Resync(channels, cursors, reset, sends).2
  {
    if channels != [] {
      ResyncGetsThrough(channels[1..], cursors, reset, sends);
      ResyncGetsThrough(channels[1..], cursors - {CursorKey(channels[0])}, reset, sends - 1);
    }
  }

  /** Reading a frame that ends nothing raises the cursor to what the frame says. */
  lemma ReadingOn(t: Track, s: System, k: Key)
    requires s.conn.Some? && s.conn.value.toClient != [] && Clear(s.conn.value.toClient, k)
    ensures var f, read := s.conn.value.toClient[0], ClientRead(|s.client.channels| + 1, false);
            var s' := Do(s, read);
            && s'.conn.Some? && s'.conn.value.toClient == s.conn.value.toClient[1..]
            && s'.client.channels == s.client.channels && Observe(t, s, read, k) == ObserveFrame(t, f, k)
            && (Moves(f, k) ==> AtLeast(s'.client.cursors, k, CursorAdvance(f.message.value).value.1))
            && forall n :: AtLeast(s.client.cursors, k, n) ==> AtLeast(s'.client.cursors, k, n)
  {
    var f, sends := s.conn.value.toClient[0], |s.client.channels| + 1;
    assert f in s.conn.value.toClient;
    if f.Data? && f.message.Some? && CursorReset(f.message.value).Some? {
      var reset, folded := CursorReset(f.message.value).value, Advance(s.client.cursors, f.message.value);
      ResyncGetsThrough(s.client.channels, folded, reset, sends);
      ResyncSparesOthers(s.client.channels, folded, reset, sends, k);
      assert Lookup(HandleFrame(s.client, f, sends, false).client.cursors, k) == Lookup(folded, k);
    }
  }

  lemma {:induction false} ReadAll(t: Track, s: System, k: Key) returns (steps: seq<Step>)
    requires s.conn.Some? && Clear(s.conn.value.toClient, k)
    ensures var s', fs := Run(s, steps), s.conn.value.toClient;
            && Watch(t, s, steps, k) == Recorded(t, fs, k)
            && (forall n :: AtLeast(s.client.cursors, k, n) ==> AtLeast(s'.client.cursors, k, n))
            && (forall f :: f in fs && Moves(f, k) ==>
                  AtLeast(s'.client.cursors, k, CursorAdvance(f.message.value).value.1))
    decreases |s.conn.value.toClient|
  {
    steps := [];
    if s.conn.value.toClient != [] {
      var read := ClientRead(|s.client.channels| + 1, false);
      ReadingOn(t, s, k);
      var rest := ReadAll(Observe(t, s, read, k), Do(s, read), k);
      steps := [read] + rest;
      assert steps[1..] == rest;
    }
  }

  // ----- the exact condition -----------------------------------------------------------------------

  /** The server takes everything, `n` events later, and sends the next one. */
  lemma JoinedAfter(s: System, k: Key, cursor: Option<nat>, n: nat)
    returns (steps: seq<Step>, front: seq<Frame>, f: Frame)
    requires s.conn.Some? && Undisturbed(s, s.conn.value, k) && Formed(k)
    requires LastAsk(About(s.conn.value.toServer, k)) == Some(Asked(cursor))
    ensures Offstage(steps)
    ensures var s', c := Run(s, steps), s.conn.value;
            && s'.client == s.client && s'.conn.Some? && s'.conn.value.toClient == front + [f]
            && Clear(front + [f], k) && c.toClient <= front && |front| <= |c.toClient| + |c.toServer|
            && (forall g :: g in front ==> Numbered(g, k, |Log(s, k)|))
            && Moves(f, k) && f.message.value.Event?
            && f.message.value.sequence == Joined(cursor, |Log(s, k)| + n) + 1
  {
    var c, t := s.conn.value, Beginning(s, k);
    var appends := AppendMany(s, k, n);
    var s1 := Run(s, appends);
    GrowingIsUndisturbed(s, s1, c, k);
    var serves := ServeAll(s1, k, Joined(cursor, |Log(s1, k)|), |Log(s, k)|);
    var s2 := Run(s1, serves);
    f := NextEventIsSent(s2, k);
    front := s2.conn.value.toClient;
    RunAppend(t, s, appends, serves, k);
    RunAppend(t, s, appends + serves, NextEvent(k), k);
    steps := appends + serves + NextEvent(k);
  }

  /** Without a cursor: what was on its way, and then an event far ahead of it. */
  lemma FarAheadIsAGap(s: System, k: Key, front: seq<Frame>, f: Frame, log: nat) returns (steps: seq<Step>)
    requires s.conn.Some? && s.conn.value.toClient == front + [f] && Clear(front + [f], k) && k !in s.client.cursors
    requires SomeStirs(front, k, None) && (forall g :: g in front ==> Numbered(g, k, log))
    requires Moves(f, k) && f.message.value.Event? && f.message.value.sequence > log + |front| + 1
    ensures !StaysGapFree(s, steps, k)
  {
    var t := Beginning(s, k);
    steps := ReadAll(t, s, k);
    assert f in front + [f] && Clear(front, k);
    RecordOf(t, front, k, log);
    RecordedSnoc(t, front, f, k);
    var cursors, r := Run(s, steps).client.cursors, Recorded(t, front + [f], k);
    assert AtLeast(cursors, k, f.message.value.sequence);
    assert r.clean && r.base.Some? && r.base.value <= log && |r.seen| <= |front| + 1;
  }

  /** From a cursor: an event that was on its way, and then the one after the cursor. */
  lemma RepeatIsAGap(s: System, k: Key, front: seq<Frame>, f: Frame, log: nat) returns (steps: seq<Step>)
    requires s.conn.Some? && s.conn.value.toClient == front + [f] && Clear(front + [f], k) && k in s.client.cursors
    requires SomeEvents(front, k) && (forall g :: g in front ==> Numbered(g, k, log))
    requires Moves(f, k) && f.message.value.Event? && f.message.value.sequence == s.client.cursors[k] + 1
    ensures !StaysGapFree(s, steps, k)
  {
    var t, m := Beginning(s, k), s.client.cursors[k];
    steps := ReadAll(t, s, k);
    assert Clear(front, k);
    RecordOf(t, front, k, log);
    RecordedSnoc(t, front, f, k);
    var s', r := Run(s, steps), Recorded(t, front + [f], k);
    assert r.clean && r.base == Some(m) && |r.seen| >= 2 && r.seen[|r.seen| - 1].0 == m + 1;
  }

  /** From a cursor: nothing on its way but word that the stream is further on. */
  lemma SkipIsAGap(s: System, k: Key, log: nat) returns (steps: seq<Step>)
    requires s.conn.Some? && Clear(s.conn.value.toClient, k) && k in s.client.cursors
    requires forall g :: g in s.conn.value.toClient ==> Numbered(g, k, log)
    requires SomeStirs(s.conn.value.toClient, k, Some(s.client.cursors[k])) && !SomeEvents(s.conn.value.toClient, k)
    ensures !StaysGapFree(s, steps, k)
  {
    var t, fs, m := Beginning(s, k), s.conn.value.toClient, s.client.cursors[k];
    steps := ReadAll(t, s, k);
    RecordOf(t, fs, k, log);
    var f :| f in fs && Stirs(f, k, Some(m));
    var cursors := Run(s, steps).client.cursors;
    assert AtLeast(cursors, k, CursorAdvance(f.message.value).value.1);
    assert AtLeast(cursors, k, m + 1);
  }

  lemma StirredIsAGap(s: System, k: Key) returns (steps: seq<Step>)
    requires s.conn.Some? && Undisturbed(s, s.conn.value, k) && Formed(k)
    requires var cursor := Lookup(s.client.cursors, k);
             && LastAsk(About(s.conn.value.toServer, k)) == Some(Asked(cursor))
             && SomeStirs(s.conn.value.toClient, k, cursor)
    ensures !StaysGapFree(s, steps, k)
  {
    var c, cursor, t, log := s.conn.value, Lookup(s.client.cursors, k), Beginning(s, k), |Log(s, k)|;
    if cursor.Some? && !SomeEvents(c.toClient, k) {
      steps := SkipIsAGap(s, k, log);
    } else {
      var joins, front, f := JoinedAfter(s, k, cursor, |c.toClient| + |c.toServer| + 1);
      var s' := Run(s, joins);
      assert forall g :: g in c.toClient ==> g in front;
      var rest;
      if cursor.None? {
        rest := FarAheadIsAGap(s', k, front, f, log);
      } else {
        rest := RepeatIsAGap(s', k, front, f, log);
      }
      GapAfter(s, joins, rest, k);
      steps := joins + rest;
    }
  }

  /** A gap found later is a gap, when nothing was seen until then. */
  lemma GapAfter(s: System, steps: seq<Step>, rest: seq<Step>, k: Key)
    requires Offstage(steps) && Run(s, steps).client == s.client && !StaysGapFree(Run(s, steps), rest, k)
    ensures !StaysGapFree(s, steps + rest, k)
  {
    RunAppend(Beginning(s, k), s, steps, rest, k);
    NothingIsSeen(Beginning(s, k), s, steps, k);
  }

  /** A stream just asked for stays gap-free whatever happens if and only if it is
      asked for alone: the server does not have it, and nothing of an earlier
      subscription that matters is on its way, in either direction. */
  lemma GapFreeIffAlone(s: System, k: Key)
    requires JustAsked(s, k) && SaneState(s, k) && Undisturbed(s, s.conn.value, k) && Formed(k)
    ensures Alone(s.conn.value, k, Lookup(s.client.cursors, k)) <==> forall steps :: StaysGapFree(s, steps, k)
  {
    var cursor := Lookup(s.client.cursors, k);
    if Alone(s.conn.value, k, cursor) {
      forall steps ensures StaysGapFree(s, steps, k) { AskedAloneIsGapFree(s, steps, k); }
    } else {
      var stirs := StirredFromThePast(s, k, cursor);
      var rest := StirredIsAGap(Run(s, stirs), k);
      GapAfter(s, stirs, rest, k);
      assert !StaysGapFree(s, stirs + rest, k);
    }
  }

  // ----- a stream subscribed to on a live connection --------------------------------------------------

  ghost predicate Joinable(s: System, c: Channel) {
    s.conn.Some? && DistinctKeys(s.client.channels) && !Holds(s.client.channels, CursorKey(c))
  }

  /** The subscribe is written, or the connection is given up. */
  lemma JoiningAsks(s: System, c: Channel, sends: nat)
    requires Joinable(s, c)
    ensures var k, s1 := CursorKey(c), Do(s, ClientCommand(Add(c), sends));
            && DistinctKeys(s1.client.channels) && Holds(s1.client.channels, k)
            && s1.client.cursors == s.client.cursors && s1.logs == s.logs && s1.oldest == s.oldest
            && (s1.conn.None? <==> sends == 0 || (IsPrivate(c) && !s.conn.value.authed))
            && (s1.conn.Some? ==>
                  s1.conn == Some(WithAsk(s.conn.value, SubscribeFrame(c, Lookup(s.client.cursors, k)))))
  {
    ClientKeysStayDistinct(s, ClientCommand(Add(c), sends));
    HoldsSnoc(s.client.channels, c);
  }

  function WithAsk(c: Conn, m: Outbound): Conn { c.(toServer := c.toServer + [m]) }

  lemma QuietThenAlone(c: Conn, ch: Channel, cursor: Option<nat>)
    ensures var k, c' := CursorKey(ch), WithAsk(c, SubscribeFrame(ch, cursor));
            && About(c'.toServer, k) == About(c.toServer, k) + [Asked(cursor)]
            && (Quiet(c, k, cursor) <==> Alone(c', k, cursor))
  {
    var k, m := CursorKey(ch), SubscribeFrame(ch, cursor);
    var c' := WithAsk(c, m);
    var asks, asks' := About(c.toServer, k), About(c'.toServer, k);
    AboutAppend(c.toServer, [m], k);
    OneAsk(m, k);
    assert asks'[..|asks'| - 1] == asks;
  }

  /** From a subscribe on a live connection, for a quiet stream that is not held. */
  lemma GapFreeFromALiveSubscribe(s: System, c: Channel, sends: nat, steps: seq<Step>)
    requires Joinable(s, c) && Quiet(s.conn.value, CursorKey(c), Lookup(s.client.cursors, CursorKey(c)))
    requires var k := CursorKey(c); k in s.client.cursors ==> s.client.cursors[k] <= |Log(s, k)|
    ensures StaysGapFree(Do(s, ClientCommand(Add(c), sends)), steps, CursorKey(c))
  {
    var k, s1 := CursorKey(c), Do(s, ClientCommand(Add(c), sends));
    JoiningAsks(s, c, sends);
    if s1.conn.Some? {
      QuietThenAlone(s.conn.value, c, Lookup(s.client.cursors, k));
      AskedAloneIsGapFree(s1, steps, k);
    } else {
      LostConnectionIsGapFree(s1, steps, k);
    }
  }

  /** The stream's next subscribe is one the ring buffer covers. */
  ghost predicate Resumable(s: System, k: Key) { Buffered(Asked(Lookup(s.client.cursors, k)), Oldest(s, k)) }

  /** Exactly when: no run leaves a gap if and only if the stream is quiet, or the
      connection is given up for one that has a token. */
  lemma RejoinIsGapFreeIff(s: System, c: Channel)
    requires Joinable(s, c) && SaneState(s, CursorKey(c)) && Undisturbed(s, s.conn.value, CursorKey(c))
    requires Resumable(s, CursorKey(c))
    ensures var k := CursorKey(c);
            Quiet(s.conn.value, k, Lookup(s.client.cursors, k)) || (IsPrivate(c) && !s.conn.value.authed) <==>
              forall sends, steps :: StaysGapFree(Do(s, ClientCommand(Add(c), sends)), steps, k)
  {
    var k, c0, cursor := CursorKey(c), s.conn.value, Lookup(s.client.cursors, CursorKey(c));
    if Quiet(c0, k, cursor) {
      forall sends, steps ensures StaysGapFree(Do(s, ClientCommand(Add(c), sends)), steps, k) {
        GapFreeFromALiveSubscribe(s, c, sends, steps);
      }
    } else if IsPrivate(c) && !c0.authed {
      forall sends, steps ensures StaysGapFree(Do(s, ClientCommand(Add(c), sends)), steps, k) {
        JoiningAsks(s, c, sends);
        LostConnectionIsGapFree(Do(s, ClientCommand(Add(c), sends)), steps, k);
      }
    } else {
      var s1 := Do(s, ClientCommand(Add(c), 1));
      JoiningAsks(s, c, 1);
      QuietThenAlone(c0, c, cursor);
      JoiningIsUndisturbed(s, c);
      GapFreeIffAlone(s1, k);
    }
  }

  lemma JoiningIsUndisturbed(s: System, c: Channel)
    requires Joinable(s, c) && SaneState(s, CursorKey(c)) && Undisturbed(s, s.conn.value, CursorKey(c))
    requires Resumable(s, CursorKey(c))
    ensures var k := CursorKey(c);
            Undisturbed(s, WithAsk(s.conn.value, SubscribeFrame(c, Lookup(s.client.cursors, k))), k) && Formed(k)
  {
    var k, m := CursorKey(c), SubscribeFrame(c, Lookup(s.client.cursors, CursorKey(c)));
    ChannelKeysAreFormed(c);
    OneAsk(m, k);
    AboutAppend(s.conn.value.toServer, [m], k);
    MoreSentStaysSane(s.conn.value, [m], k, |Log(s, k)|);
  }

  /** A caller that has read the server's word for every time it left a stream on
      this connection may ask for it again: whatever came before and comes after,
      there is no gap. */
  lemma RejoinAfterConfirmation(s: System, t: Tally, before: seq<Step>, c: Channel, sends: nat, after: seq<Step>)
    requires s.conn.None? && DistinctKeys(s.client.channels) && SaneState(s, CursorKey(c))
    requires var s', t' := Run(s, before), TallyOf(t, s, before, CursorKey(c));
             s'.conn.Some? && !Holds(s'.client.channels, CursorKey(c)) && t'.confirmed == t'.left
    ensures StaysGapFree(Do(Run(s, before), ClientCommand(Add(c), sends)), after, CursorKey(c))
  {
    var k := CursorKey(c);
    ConfirmedIsQuiet(s, t, before, k);
    RunStaysSane(s, before, k);
    GapFreeFromALiveSubscribe(Run(s, before), c, sends, after);
  }

  // ----- a stream told `out_of_sync` -----------------------------------------------------------------

  /** The stream is held, and the next frame to be read ends it. */
  ghost predicate Ending(s: System, k: Key) {
    && DistinctKeys(s.client.channels) && Holds(s.client.channels, k) && SaneState(s, k)
    && s.conn.Some? && s.conn.value.toClient != [] && Invalidates(s.conn.value.toClient[0], k)
  }

  function WithoutFirst(c: Conn): Conn
    requires c.toClient != []
  {
    c.(toClient := c.toClient[1..])
  }

  /** The stream is asked for once more, from the live edge, or the connection is given up. */
  lemma EndingAsksAgain(s: System, sends: nat, gone: bool, k: Key)
    requires Ending(s, k)
    ensures var c, s1 := s.conn.value, Do(s, ClientRead(sends, gone));
            && s1.client.channels == s.client.channels && s1.logs == s.logs && s1.oldest == s.oldest && SaneState(s1, k)
            && (s1.conn.Some? ==>
                  && k !in s1.client.cursors && s1.conn == Some(WithoutFirst(c).(toServer := s1.conn.value.toServer))
                  && About(s1.conn.value.toServer, k) == About(c.toServer, k) + [Asked(None)])
            && (sends >= |s.client.channels| && !gone ==> s1.conn.Some?)
  {
    var c, m := s.conn.value, s.conn.value.toClient[0].message.value;
    var r, folded, reset := HandleMessage(s.client, m, sends, gone), Advance(s.client.cursors, m), CursorReset(m).value;
    assert folded == s.client.cursors;
    ReadingStaysSane(s, sends, gone, k);
    if sends >= |s.client.channels| { ResyncGetsThrough(s.client.channels, folded, reset, sends); }
    if r.exit.None? {
      ResyncAsksAgain(s.client.channels, folded, reset, sends, k);
      AboutAppend(c.toServer, r.sent, k);
    }
  }

  lemma QuietThenAskedAlone(c: Conn, c': Conn, k: Key)
    requires c' == c.(toServer := c'.toServer) && About(c'.toServer, k) == About(c.toServer, k) + [Asked(None)]
    ensures Quiet(c, k, None) <==> Alone(c', k, None)
  {
    var asks := About(c'.toServer, k);
    assert asks[..|asks| - 1] == About(c.toServer, k);
  }

  /** Exactly when a stream starts afresh after an `out_of_sync`: when it is quiet
      behind it. */
  lemma ResyncIsGapFreeIff(s: System, k: Key)
    requires Ending(s, k) && Undisturbed(s, WithoutFirst(s.conn.value), k) && Formed(k)
    ensures Quiet(WithoutFirst(s.conn.value), k, None) <==>
              forall sends, gone, steps :: StaysGapFree(Do(s, ClientRead(sends, gone)), steps, k)
  {
    var c := WithoutFirst(s.conn.value);
    if Quiet(c, k, None) {
      forall sends, gone, steps ensures StaysGapFree(Do(s, ClientRead(sends, gone)), steps, k) {
        var s1 := Do(s, ClientRead(sends, gone));
        EndingAsksAgain(s, sends, gone, k);
        if s1.conn.Some? {
          QuietThenAskedAlone(c, s1.conn.value, k);
          AskedAloneIsGapFree(s1, steps, k);
        } else {
          LostConnectionIsGapFree(s1, steps, k);
        }
      }
    } else {
      var s1 := Do(s, ClientRead(|s.client.channels|, false));
      EndingAsksAgain(s, |s.client.channels|, false, k);
      QuietThenAskedAlone(c, s1.conn.value, k);
      assert Undisturbed(s1, s1.conn.value, k);
      GapFreeIffAlone(s1, k);
    }
  }

  // ----- an input that fails ------------------------------------------------------------------------

  /** A connection on which `c` was left while its first event was on its way. */
  function JustLeft(c: Channel, a: string): System {
    System(Client([], map[]), Some(Conn(true, [], [EventFrame(CursorKey(c), 1, a), LeftFrame(c)], map[], map[])),
           map[CursorKey(c) := [a]], map[])
  }

  function LeftFrame(c: Channel): Frame { Data(Some(Unsubscribed(Name(c), Market(c), Interval(c)))) }

  function Joining(c: Channel, a: string): System {
    var s := System(Client([c], map[]), None, map[], map[]);
    Do(Do(Do(Do(s, Connect(true, 1)), ServerRead(false, None)), Append(CursorKey(c), a)), SendEvent(CursorKey(c)))
  }

  lemma JoiningSendsTheEvent(c: Channel, a: string)
    ensures var k, s := CursorKey(c), Joining(c, a);
            && s.client == Client([c], map[]) && s.logs == map[k := [a]] && s.oldest == map[]
            && s.conn == Some(Conn(true, [], [EventFrame(k, 1, a)], map[][k := 0][k := 1], map[][k := 0]))
  {
    var k := CursorKey(c);
    var s1 := Do(System(Client([c], map[]), None, map[], map[]), Connect(true, 1));
    assert Replays([c], map[]) == Replays([], map[]) + [SubscribeFrame(c, None)] == [SubscribeFrame(c, None)];
    assert s1.conn == Some(Conn(true, [SubscribeFrame(c, None)], [], map[], map[]));
    var s2 := Do(s1, ServerRead(false, None));
    assert s2.conn.value.toServer == [] && Log(s2, k) + [a] == [a];
    assert s2.conn == Some(Conn(true, [], [], map[][k := 0], map[][k := 0]));
    var s3 := Do(s2, Append(k, a));
    assert s3.logs == map[k := [a]] && s3.conn == s2.conn;
    assert Joining(c, a) == Do(s3, SendEvent(k));
    assert Joining(c, a).conn.value.toClient == [EventFrame(k, 1, a)];
  }

  /** It takes six steps of a fresh client to get there. */
  lemma JustLeftIsReached(c: Channel, a: string)
    ensures Do(Do(Joining(c, a), ClientCommand(Remove(c), 1)), ServerRead(false, None)) == JustLeft(c, a)
  {
    var k := CursorKey(c);
    JoiningSendsTheEvent(c, a);
    var s1 := Do(Joining(c, a), ClientCommand(Remove(c), 1));
    assert Retain([c], k) == Retain([], k) == [];
    assert s1.client.cursors == map[];
    assert s1.conn.value.toServer == [UnsubscribeFrame(c)];
    var s2 := Do(s1, ServerRead(false, None));
    var c1, c2 := s1.conn.value, s2.conn.value;
    assert c2.toServer == [] && c2.toClient == c1.toClient + [LeftFrame(c)] == [EventFrame(k, 1, a), LeftFrame(c)];
    assert c2.subs == map[] && c2.joins == map[];
  }

  /** Asked for again there, the stream can miss events without a notice. */
  lemma ARejoinCanLeaveAGap(c: Channel, a: string)
    ensures exists sends, steps :: !StaysGapFree(Do(JustLeft(c, a), ClientCommand(Add(c), sends)), steps, CursorKey(c))
  {
    var k, s := CursorKey(c), JustLeft(c, a);
    ChannelKeysAreFormed(c);
    assert Stirs(EventFrame(k, 1, a), k, None) && EventFrame(k, 1, a) in s.conn.value.toClient;
    RejoinIsGapFreeIff(s, c);
  }
}
