/** What every reachable state of the system has: nothing in flight, and no cursor,
    is ahead of the log, and only channels are asked for. */
module WithinLog {
  import opened Common
  import opened Protocol
  import opened TypedClient
  import opened StreamSystem
  import opened GapFree

  /** The key of a channel names a market exactly when the channel has one. */
  predicate Formed(k: Key) {
    KnownName(k.name) && (k.market.Some? <==> k.name.TradesName? || k.name.BookName? || k.name.CandlesName?)
  }

  lemma ChannelKeysAreFormed(c: Channel)
    ensures Formed(CursorKey(c))
  {
  }

  predicate NamesAChannel(m: Outbound) { m.Subscribe? ==> Formed(Key(m.channel, m.market)) }

  ghost predicate NameChannels(ms: seq<Outbound>) { forall m :: m in ms ==> NamesAChannel(m) }

  /** What a frame says of a stream is numbered within its log. */
  predicate Numbered(f: Frame, k: Key, log: nat) {
    Moves(f, k) ==>
      CursorAdvance(f.message.value).value.1 <= log && (f.message.value.Event? ==> f.message.value.sequence > 0)
  }

  predicate AsksWithin(a: Ask, log: nat) { a.Asked? && a.since.Some? ==> a.since.value <= log }

  /** Nothing on a connection is ahead of the log. */
  ghost predicate Sane(c: Conn, k: Key, log: nat) {
    && NameChannels(c.toServer)
    && (forall a :: a in About(c.toServer, k) ==> AsksWithin(a, log))
    && (k in c.subs ==> c.subs[k] <= log)
    && (forall f :: f in c.toClient ==> Numbered(f, k, log))
  }

  ghost predicate SaneState(s: System, k: Key) {
    && Oldest(s, k) <= |Log(s, k)| + 1
    && (k in s.client.cursors ==> s.client.cursors[k] <= |Log(s, k)|)
    && (s.conn.Some? ==> Sane(s.conn.value, k, |Log(s, k)|))
  }

  lemma {:induction false} ReplaysNameChannels(channels: seq<Channel>, cursors: map<Key, nat>)
    ensures NameChannels(Replays(channels, cursors))
  {
    if channels != [] {
      var n := |channels| - 1;
      ReplaysNameChannels(channels[..n], cursors);
      ChannelKeysAreFormed(channels[n]);
    }
  }

  lemma {:induction false} ResyncNamesChannels(channels: seq<Channel>, cursors: map<Key, nat>, reset: Key, sends: nat,
                                               k: Key)
    ensures var r := Resync(channels, cursors, reset, sends);
            NameChannels(r.1) && forall a :: a in About(r.1, k) ==> a == Asked(None)
  {
    if channels != [] {
      var c, rest := channels[0], channels[1..];
      if !Covers(reset, CursorKey(c)) {
        ResyncNamesChannels(rest, cursors, reset, sends, k);
      } else if sends > 0 {
        ResyncNamesChannels(rest, cursors - {CursorKey(c)}, reset, sends - 1, k);
        ChannelKeysAreFormed(c);
        AboutAppend([SubscribeFrame(c, None)], Resync(rest, cursors - {CursorKey(c)}, reset, sends - 1).1, k);
        OneAsk(SubscribeFrame(c, None), k);
      }
    }
  }

  lemma OneAsk(m: Outbound, k: Key)
    ensures About([m], k) == AboutOne(m, k)
  {
    assert About([m], k) == AboutOne(m, k) + About([], k);
  }

  lemma AnswersAreNumbered(s: System, c: Conn, refuse: bool, oldestSeq: Option<nat>, k: Key, log: nat)
    requires c.toServer != [] && forall f :: f in c.toClient ==> Numbered(f, k, log)
    ensures forall f :: f in Serve(s, c, refuse, oldestSeq).toClient ==> Numbered(f, k, log)
  {
    AnswersAreHarmless(k);
  }

  lemma JoinsWithinTheLog(s: System, c: Conn, refuse: bool, oldestSeq: Option<nat>, k: Key)
    requires c.toServer != [] && (k in c.subs ==> c.subs[k] <= |Log(s, k)|)
    ensures var c' := Serve(s, c, refuse, oldestSeq);
            c'.toServer == c.toServer[1..] && (k in c'.subs ==> c'.subs[k] <= |Log(s, k)|)
  {
  }

  lemma ServingStaysSane(s: System, c: Conn, refuse: bool, oldestSeq: Option<nat>, k: Key)
    requires c.toServer != [] && Sane(c, k, |Log(s, k)|)
    ensures Sane(Serve(s, c, refuse, oldestSeq), k, |Log(s, k)|)
  {
    AboutHead(c.toServer, k);
    AnswersAreNumbered(s, c, refuse, oldestSeq, k, |Log(s, k)|);
    JoinsWithinTheLog(s, c, refuse, oldestSeq, k);
    forall a | a in About(c.toServer[1..], k) ensures AsksWithin(a, |Log(s, k)|) {
      assert a in About(c.toServer, k);
    }
  }

  lemma SendingStaysSane(s: System, c: Conn, step: Step, k: Key)
    requires Sane(c, k, |Log(s, k)|) && KnownName(k.name)
    requires step.SendEvent? || step.SendAck? || step.DropSubscriptions? || step.SendOther?
    ensures Sane(ServerStep(s, c, step), k, |Log(s, k)|)
  {
    match step {
      case SendEvent(h) =>
        if h in c.subs && c.subs[h] < |Log(s, h)| {
          FramesAreAboutTheirKey(h, c.subs[h] + 1, Log(s, h)[c.subs[h]], None, k);
        }
      case SendAck(h, n) => FramesAreAboutTheirKey(h, n, "", None, k);
      case DropSubscriptions(h, oldestSeq) => FramesAreAboutTheirKey(h, 0, "", oldestSeq, k);
      case SendOther(_) =>
    }
  }

  lemma MoreSentStaysSane(c: Conn, sent: seq<Outbound>, k: Key, log: nat)
    requires Sane(c, k, log) && NameChannels(sent) && forall a :: a in About(sent, k) ==> AsksWithin(a, log)
    ensures Sane(c.(toServer := c.toServer + sent), k, log)
  {
    AboutAppend(c.toServer, sent, k);
  }

  /** Reading a frame leaves no stream, and asks only for those held, from the live edge. */
  lemma FramesAskAfresh(cl: Client, f: Frame, sends: nat, gone: bool, k: Key)
    ensures var sent := HandleFrame(cl, f, sends, gone).sent;
            && NameChannels(sent) && (forall a :: a in About(sent, k) ==> a == Asked(None))
            && (!Holds(cl.channels, k) ==> About(sent, k) == [])
  {
    if f.Ping? {
      OneAsk(Pong, k);
    } else if f.Data? && f.message.Some? && CursorReset(f.message.value).Some? {
      var reset, folded := CursorReset(f.message.value).value, Advance(cl.cursors, f.message.value);
      ResyncNamesChannels(cl.channels, folded, reset, sends, k);
      if !Holds(cl.channels, k) { NothingAskedUnlessHeld(cl.channels, folded, reset, sends, k); }
    }
  }

  lemma FramesKeepWithin(cl: Client, f: Frame, sends: nat, gone: bool, k: Key, log: nat)
    requires Numbered(f, k, log) && (k in cl.cursors ==> cl.cursors[k] <= log)
    ensures var cursors := HandleFrame(cl, f, sends, gone).client.cursors; k in cursors ==> cursors[k] <= log
  {
    if f.Data? && f.message.Some? && CursorReset(f.message.value).Some? {
      var m := f.message.value;
      ResyncDropsCursors(cl.channels, Advance(cl.cursors, m), CursorReset(m).value, sends, k);
    }
  }

  lemma ReadingStaysSane(s: System, sends: nat, gone: bool, k: Key)
    requires SaneState(s, k) && s.conn.Some? && s.conn.value.toClient != []
    ensures SaneState(Do(s, ClientRead(sends, gone)), k)
  {
    var c := s.conn.value;
    var f := c.toClient[0];
    FramesAskAfresh(s.client, f, sends, gone, k);
    FramesKeepWithin(s.client, f, sends, gone, k, |Log(s, k)|);
    MoreSentStaysSane(c.(toClient := c.toClient[1..]), HandleFrame(s.client, f, sends, gone).sent, k, |Log(s, k)|);
  }

  lemma CommandStaysSane(s: System, cmd: Command, sends: nat, k: Key)
    requires SaneState(s, k) && s.conn.Some?
    ensures SaneState(Do(s, ClientCommand(cmd, sends)), k)
  {
    var r := OnCommand(s.client, cmd, s.conn.value.authed, sends);
    ConnectedCommandsApply(s.client, cmd, s.conn.value.authed, sends);
    if r.sent != [] {
      assert r.sent == [r.sent[0]];
      OneAsk(r.sent[0], k);
      if cmd.Add? { ChannelKeysAreFormed(cmd.channel); }
    }
    MoreSentStaysSane(s.conn.value, r.sent, k, |Log(s, k)|);
  }

  lemma ConnectingIsSane(s: System, authed: bool, sends: nat, k: Key)
    requires SaneState(s, k) && DistinctKeys(s.client.channels)
    ensures SaneState(Do(s, Connect(authed, sends)), k)
  {
    ReplaysNameChannels(s.client.channels, s.client.cursors);
    ReplaysAskOnce(s.client.channels, s.client.cursors, k);
  }

  lemma StepStaysSane(s: System, step: Step, k: Key)
    requires SaneState(s, k) && KnownName(k.name) && DistinctKeys(s.client.channels)
    ensures SaneState(Do(s, step), k)
  {
    match step {
      case Append(_, _) =>
      case Evict(_, _) =>
      case Connect(authed, sends) => ConnectingIsSane(s, authed, sends, k);
      case Disconnect =>
      case ClientRead(sends, gone) =>
        if s.conn.Some? && s.conn.value.toClient != [] { ReadingStaysSane(s, sends, gone, k); }
      case ClientCommand(cmd, sends) => if s.conn.Some? { CommandStaysSane(s, cmd, sends, k); }
      case BackoffCommand(_) =>
      case ServerRead(refuse, oldestSeq) =>
        if s.conn.Some? && s.conn.value.toServer != [] { ServingStaysSane(s, s.conn.value, refuse, oldestSeq, k); }
      case _ => if s.conn.Some? { SendingStaysSane(s, s.conn.value, step, k); }
    }
  }

  lemma {:induction false} RunStaysSane(s: System, steps: seq<Step>, k: Key)
    requires SaneState(s, k) && KnownName(k.name) && DistinctKeys(s.client.channels)
    ensures SaneState(Run(s, steps), k) && DistinctKeys(Run(s, steps).client.channels)
    decreases |steps|
  {
    if steps != [] {
      StepStaysSane(s, steps[0], k);
      ClientKeysStayDistinct(s, steps[0]);
      RunStaysSane(Do(s, steps[0]), steps[1..], k);
    }
  }
}
