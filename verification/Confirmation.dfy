/** How a caller can tell that a stream it has left is quiet: it counts how often it
    left the stream and how often the server said so. */
module Confirmation {
  import opened Common
  import opened Protocol
  import opened TypedClient
  import opened StreamSystem
  import opened GapFree
  import opened WithinLog

  // ----- a stream nothing more is coming of -------------------------------------------------

  /** A frame that changes what is recorded of a stream: an event, or a seq beyond
      the cursor. */
  predicate Stirs(f: Frame, k: Key, cursor: Option<nat>) {
    Moves(f, k) &&
    (f.message.value.Event? || cursor.None? || CursorAdvance(f.message.value).value.1 > cursor.value)
  }

  /** The server has let go of a stream, or will before it reads anything new about
      it, and nothing in flight stirs it. */
  ghost predicate Quiet(c: Conn, k: Key, cursor: Option<nat>) {
    k !in c.subs && AllLeft(About(c.toServer, k)) && forall f :: f in c.toClient ==> !Stirs(f, k, cursor)
  }

  predicate AllLeft(asks: seq<Ask>) { forall i :: 0 <= i < |asks| ==> asks[i].Left? }

  // ----- how a caller can tell -----------------------------------------------------------------

  /** How often a stream was left on the current connection, and how often the
      server's word that it was has been read. */
  datatype Tally = Tally(left: nat, confirmed: nat)

  predicate Confirms(f: Frame, k: Key) {
    && f.Data? && f.message.Some? && f.message.value.Unsubscribed?
    && Key(f.message.value.channel, f.message.value.market) == k
  }

  function Tallied(t: Tally, s: System, step: Step, k: Key): Tally {
    if s.conn.None? then Tally(0, 0)
    else
      match step
      case ClientCommand(Remove(c), _) => if CursorKey(c) == k then t.(left := t.left + 1) else t
      case ClientRead(_, _) =>
        var fs := s.conn.value.toClient;
        if fs != [] && Confirms(fs[0], k) then t.(confirmed := t.confirmed + 1) else t
      case _ => t
  }

  function TallyOf(t: Tally, s: System, steps: seq<Step>, k: Key): Tally
    decreases |steps|
  {
    if steps == [] then t else TallyOf(Tallied(t, s, steps[0], k), Do(s, steps[0]), steps[1..], k)
  }

  function Lefts(asks: seq<Ask>): nat {
    if asks == [] then 0 else (if asks[0].Left? then 1 else 0) + Lefts(asks[1..])
  }

  function Confirmations(fs: seq<Frame>, k: Key): nat {
    if fs == [] then 0 else (if Confirms(fs[0], k) then 1 else 0) + Confirmations(fs[1..], k)
  }

  lemma {:induction false} LeftsAppend(a: seq<Ask>, b: seq<Ask>)
    ensures Lefts(a + b) == Lefts(a) + Lefts(b)
  {
    if a == [] {
      assert a + b == b;
    } else {
      assert (a + b)[1..] == a[1..] + b;
      LeftsAppend(a[1..], b);
    }
  }

  lemma {:induction false} ConfirmationsSnoc(fs: seq<Frame>, f: Frame, k: Key)
    ensures Confirmations(fs + [f], k) == Confirmations(fs, k) + if Confirms(f, k) then 1 else 0
  {
    if fs == [] {
      assert fs + [f] == [f];
    } else {
      assert (fs + [f])[1..] == fs[1..] + [f];
      ConfirmationsSnoc(fs[1..], f, k);
    }
  }

  lemma {:induction false} NoneLeft(asks: seq<Ask>)
    requires Lefts(asks) == 0
    ensures forall i :: 0 <= i < |asks| ==> asks[i].Asked?
  {
    if asks != [] { NoneLeft(asks[1..]); }
  }

  lemma {:induction false} OnlyAsksAreNotLeft(asks: seq<Ask>)
    requires forall a :: a in asks ==> a.Asked?
    ensures Lefts(asks) == 0
  {
    if asks != [] {
      assert asks[0] in asks;
      OnlyAsksAreNotLeft(asks[1..]);
    }
  }

  lemma {:induction false} NoConfirmation(fs: seq<Frame>, k: Key)
    requires Confirmations(fs, k) == 0
    ensures forall f :: f in fs ==> !Confirms(f, k)
  {
    if fs != [] { NoConfirmation(fs[1..], k); }
  }

  /** Confirmations still to come: asked for, or on their way. */
  function Pending(c: Conn, k: Key): nat { Lefts(About(c.toServer, k)) + Confirmations(c.toClient, k) }

  /** The last word to the server is that the stream was left, or it has been taken
      and every frame that moves the stream has a confirmation behind it. */
  ghost predicate Leaving(c: Conn, k: Key) {
    var asks := About(c.toServer, k);
    if asks != [] then asks[|asks| - 1].Left? else k !in c.subs && Covered(c.toClient, k)
  }

  ghost predicate Covered(fs: seq<Frame>, k: Key) {
    forall i :: 0 <= i < |fs| && Moves(fs[i], k) ==> exists j :: i < j < |fs| && Confirms(fs[j], k)
  }

  /** No confirmation comes unasked, and when none is missing a stream that is not
      held is one being left. */
  ghost predicate Tells(s: System, t: Tally, k: Key) {
    s.conn.Some? ==> TellsOn(s.conn.value, t, Holds(s.client.channels, k), k)
  }

  ghost predicate TellsOn(c: Conn, t: Tally, held: bool, k: Key) {
    && t.confirmed + Pending(c, k) <= t.left
    && (!held && t.confirmed + Pending(c, k) == t.left ==> Leaving(c, k))
  }

  lemma MoreFramesTell(c: Conn, c': Conn, f: Frame, t: Tally, held: bool, k: Key)
    requires TellsOn(c, t, held, k) && c'.toClient == c.toClient + [f] && !Confirms(f, k)
    requires c'.toServer == c.toServer && (k in c'.subs ==> k in c.subs) && (Moves(f, k) ==> k in c.subs)
    ensures TellsOn(c', t, held, k)
  {
    ConfirmationsSnoc(c.toClient, f, k);
    if Covered(c.toClient, k) && !Moves(f, k) { CoveredGrows(c.toClient, f, k); }
  }

  lemma CoveredGrows(fs: seq<Frame>, f: Frame, k: Key)
    requires (Covered(fs, k) && !Moves(f, k)) || Confirms(f, k)
    ensures Covered(fs + [f], k)
  {
    var all := fs + [f];
    forall i | 0 <= i < |all| && Moves(all[i], k) ensures exists j :: i < j < |all| && Confirms(all[j], k) {
      assert i < |fs|;
      if Confirms(f, k) {
        assert Confirms(all[|fs|], k);
      } else {
        assert Moves(fs[i], k);
        var j :| i < j < |fs| && Confirms(fs[j], k);
        assert Confirms(all[j], k);
      }
    }
  }

  /** The server answers at most once, with a confirmation exactly when it was left. */
  lemma AnswersOnce(s: System, c: Conn, refuse: bool, oldestSeq: Option<nat>, k: Key)
    requires c.toServer != []
    ensures var c', one := Serve(s, c, refuse, oldestSeq), AboutOne(c.toServer[0], k);
            && c'.toServer == c.toServer[1..]
            && (c'.toClient == c.toClient || exists f :: c'.toClient == c.toClient + [f] && !Moves(f, k)
                                                         && (Confirms(f, k) <==> one == [Left]))
            && (one == [Left] ==> |c'.toClient| > |c.toClient| && k !in c'.subs)
            && (one == [] ==> (k in c'.subs <==> k in c.subs))
  {
  }

  lemma AnswerTells(c: Conn, c': Conn, f: Frame, t: Tally, held: bool, k: Key)
    requires TellsOn(c, t, held, k) && c.toServer != [] && c'.toServer == c.toServer[1..]
    requires c'.toClient == c.toClient + [f] && !Moves(f, k)
    requires var one := AboutOne(c.toServer[0], k);
             (Confirms(f, k) <==> one == [Left]) && (one == [Left] ==> k !in c'.subs)
             && (one == [] ==> (k in c'.subs <==> k in c.subs))
    ensures TellsOn(c', t, held, k)
  {
    AboutHead(c.toServer, k);
    ConfirmationsSnoc(c.toClient, f, k);
    if Confirms(f, k) || Covered(c.toClient, k) { CoveredGrows(c.toClient, f, k); }
  }

  lemma SilenceTells(c: Conn, c': Conn, t: Tally, held: bool, k: Key)
    requires TellsOn(c, t, held, k) && c.toServer != [] && c'.toServer == c.toServer[1..] && c'.toClient == c.toClient
    requires var one := AboutOne(c.toServer[0], k); one != [Left] && (one == [] ==> (k in c'.subs <==> k in c.subs))
    ensures TellsOn(c', t, held, k)
  {
    AboutHead(c.toServer, k);
  }

  lemma ServingTells(s: System, c: Conn, refuse: bool, oldestSeq: Option<nat>, t: Tally, held: bool, k: Key)
    requires TellsOn(c, t, held, k) && c.toServer != []
    ensures TellsOn(Serve(s, c, refuse, oldestSeq), t, held, k)
  {
    var c' := Serve(s, c, refuse, oldestSeq);
    AnswersOnce(s, c, refuse, oldestSeq, k);
    if c'.toClient == c.toClient {
      SilenceTells(c, c', t, held, k);
    } else {
      var f :| c'.toClient == c.toClient + [f] && !Moves(f, k)
               && (Confirms(f, k) <==> AboutOne(c.toServer[0], k) == [Left]);
      AnswerTells(c, c', f, t, held, k);
    }
  }

  lemma ServerTells(s: System, c: Conn, step: Step, t: Tally, held: bool, k: Key)
    requires TellsOn(c, t, held, k) && KnownName(k.name)
    ensures TellsOn(ServerStep(s, c, step), t, held, k)
  {
    var c' := ServerStep(s, c, step);
    if step.ServerRead? && c.toServer != [] {
      ServingTells(s, c, step.refuse, step.oldestSeq, t, held, k);
    } else if |c'.toClient| > |c.toClient| {
      MoreFramesTell(c, c', c'.toClient[|c.toClient|], t, held, k);
    }
  }

  lemma ReadingTells(s: System, t: Tally, sends: nat, gone: bool, k: Key)
    requires Tells(s, t, k) && s.conn.Some? && s.conn.value.toClient != []
    ensures Tells(Do(s, ClientRead(sends, gone)), Tallied(t, s, ClientRead(sends, gone), k), k)
  {
    var c, t' := s.conn.value, Tallied(t, s, ClientRead(sends, gone), k);
    var sent := HandleFrame(s.client, c.toClient[0], sends, gone).sent;
    var held, c1 := Holds(s.client.channels, k), c.(toClient := c.toClient[1..]);
    FramesKeepChannels(s.client, c.toClient[0], sends, gone);
    FramesAskAfresh(s.client, c.toClient[0], sends, gone, k);
    if Covered(c.toClient, k) { CoveredShrinks(c.toClient, k); }
    SpeakingTells(c1, c1.(toServer := c1.toServer + sent), sent, t', held, held, k);
  }

  lemma CoveredShrinks(fs: seq<Frame>, k: Key)
    requires fs != [] && Covered(fs, k)
    ensures Covered(fs[1..], k)
  {
    var rest := fs[1..];
    forall i | 0 <= i < |rest| && Moves(rest[i], k) ensures exists j :: i < j < |rest| && Confirms(rest[j], k) {
      assert Moves(fs[i + 1], k);
      var j :| i + 1 < j < |fs| && Confirms(fs[j], k);
      assert Confirms(rest[j - 1], k);
    }
  }

  /** Leaving a stream is one more confirmation to wait for, written or not. */
  lemma LeavingTells(c: Conn, c': Conn, sent: seq<Outbound>, t: Tally, held: bool, k: Key)
    requires TellsOn(c, t, held, k) && c' == c.(toServer := c.toServer + sent)
    requires sent == [] || About(sent, k) == [Left]
    ensures TellsOn(c', t.(left := t.left + 1), false, k)
  {
    AboutAppend(c.toServer, sent, k);
    LeftsAppend(About(c.toServer, k), About(sent, k));
    assert About(c.toServer, k) + [] == About(c.toServer, k);
    assert Lefts([Left]) == 1 + Lefts([]);
  }

  lemma SpeakingTells(c: Conn, c': Conn, sent: seq<Outbound>, t: Tally, held: bool, held': bool, k: Key)
    requires TellsOn(c, t, held, k) && c' == c.(toServer := c.toServer + sent)
    requires (forall a :: a in About(sent, k) ==> a.Asked?) && (!held' ==> !held && About(sent, k) == [])
    ensures TellsOn(c', t, held', k)
  {
    AboutAppend(c.toServer, sent, k);
    OnlyAsksAreNotLeft(About(sent, k));
    LeftsAppend(About(c.toServer, k), About(sent, k));
    assert About(c.toServer, k) + [] == About(c.toServer, k);
  }

  /** What a command says about a stream. */
  lemma CommandSays(cl: Client, cmd: Command, authed: bool, sends: nat, k: Key)
    ensures var r, removes := OnCommand(cl, cmd, authed, sends), cmd.Remove? && CursorKey(cmd.channel) == k;
            var asks := About(r.sent, k);
            && (removes ==> r.sent == [] || asks == [Left])
            && (!removes ==> forall a :: a in asks ==> a.Asked?)
            && (!removes && !Holds(r.client.channels, k) ==> !Holds(cl.channels, k) && asks == [])
  {
    var sent := OnCommand(cl, cmd, authed, sends).sent;
    ConnectedCommandsApply(cl, cmd, authed, sends);
    if sent != [] { OneAsk(sent[0], k); }
    if cmd.Add? { HoldsSnoc(cl.channels, cmd.channel); }
    if !(cmd.Remove? && CursorKey(cmd.channel) == k) && Holds(cl.channels, k) { ApplyKeepsHeld(cl, cmd, k); }
  }

  lemma CommandTells(s: System, t: Tally, cmd: Command, sends: nat, k: Key)
    requires Tells(s, t, k) && s.conn.Some?
    ensures Tells(Do(s, ClientCommand(cmd, sends)), Tallied(t, s, ClientCommand(cmd, sends), k), k)
  {
    var c, r := s.conn.value, OnCommand(s.client, cmd, s.conn.value.authed, sends);
    var held, c' := Holds(s.client.channels, k), c.(toServer := c.toServer + r.sent);
    CommandSays(s.client, cmd, c.authed, sends, k);
    if cmd.Remove? && CursorKey(cmd.channel) == k {
      ConnectedCommandsApply(s.client, cmd, c.authed, sends);
      RetainFacts(s.client.channels, k);
      LeavingTells(c, c', r.sent, t, held, k);
    } else {
      SpeakingTells(c, c', r.sent, t, held, Holds(r.client.channels, k), k);
    }
  }

  lemma StepTells(s: System, t: Tally, step: Step, k: Key)
    requires Tells(s, t, k) && KnownName(k.name) && DistinctKeys(s.client.channels)
    ensures Tells(Do(s, step), Tallied(t, s, step, k), k)
  {
    match step {
      case Append(_, _) =>
      case Evict(_, _) =>
      case Connect(authed, sends) =>
        ReplaysAskOnce(s.client.channels, s.client.cursors, k);
        OnlyAsksAreNotLeft(About(Replays(s.client.channels, s.client.cursors), k));
      case Disconnect =>
      case ClientRead(sends, gone) =>
        if s.conn.Some? && s.conn.value.toClient != [] { ReadingTells(s, t, sends, gone, k); }
      case ClientCommand(cmd, sends) => if s.conn.Some? { CommandTells(s, t, cmd, sends, k); }
      case BackoffCommand(_) =>
      case _ => if s.conn.Some? { ServerTells(s, s.conn.value, step, t, Holds(s.client.channels, k), k); }
    }
  }

  lemma {:induction false} RunTells(s: System, t: Tally, steps: seq<Step>, k: Key)
    requires Tells(s, t, k) && KnownName(k.name) && DistinctKeys(s.client.channels)
    ensures Tells(Run(s, steps), TallyOf(t, s, steps, k), k)
    decreases |steps|
  {
    if steps != [] {
      StepTells(s, t, steps[0], k);
      ClientKeysStayDistinct(s, steps[0]);
      RunTells(Do(s, steps[0]), Tallied(t, s, steps[0], k), steps[1..], k);
    }
  }

  lemma AllConfirmedIsQuiet(c: Conn, t: Tally, k: Key, cursor: Option<nat>)
    requires TellsOn(c, t, false, k) && t.confirmed == t.left
    ensures Quiet(c, k, cursor)
  {
    NoneLeft(About(c.toServer, k));
    NoConfirmation(c.toClient, k);
  }

  /** A stream that is not held is quiet once the server has confirmed, on this
      connection, every time it was left. */
  lemma ConfirmedIsQuiet(s: System, t: Tally, steps: seq<Step>, k: Key)
    requires s.conn.None? && DistinctKeys(s.client.channels) && KnownName(k.name)
    requires var s', t' := Run(s, steps), TallyOf(t, s, steps, k);
             s'.conn.Some? && !Holds(s'.client.channels, k) && t'.confirmed == t'.left
    ensures Quiet(Run(s, steps).conn.value, k, Lookup(Run(s, steps).client.cursors, k))
  {
    RunTells(s, t, steps, k);
    var s' := Run(s, steps);
    AllConfirmedIsQuiet(s'.conn.value, TallyOf(t, s, steps, k), k, Lookup(s'.client.cursors, k));
  }
}
