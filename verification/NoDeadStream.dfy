/** No held stream is ever silently dead on a live connection. */
module NoDeadStream {
  import opened Common
  import opened Protocol
  import opened TypedClient
  import opened StreamSystem

  ghost predicate ResetInFlight(c: Conn, k: Key) {
    exists i :: 0 <= i < |c.toClient| && Invalidates(c.toClient[i], k)
  }

  /** The server has `k` subscribed, or the last client message in flight about
      it is a subscribe, or an `out_of_sync` covering it is on its way. */
  ghost predicate Alive(c: Conn, k: Key) {
    var asks := About(c.toServer, k);
    if asks != [] then EndsAsking(asks) else k in c.subs || ResetInFlight(c, k)
  }

  ghost predicate HeldAreAlive(s: System) {
    s.conn.Some? ==> forall k :: Holds(s.client.channels, k) ==> Alive(s.conn.value, k)
  }

  lemma MoreFramesKeepResets(c: Conn, c': Conn, k: Key, f: Frame)
    requires c'.toClient == c.toClient + [f]
    ensures ResetInFlight(c, k) ==> ResetInFlight(c', k)
    ensures Invalidates(f, k) ==> ResetInFlight(c', k)
  {
    if ResetInFlight(c, k) {
      var i :| 0 <= i < |c.toClient| && Invalidates(c.toClient[i], k);
      assert c'.toClient[i] == c.toClient[i];
    }
    assert c'.toClient[|c.toClient|] == f;
  }

  /** A key a channel can have survives the trip through a frame. */
  predicate Nameable(k: Key) { KnownName(k.name) }

  lemma HeldIsNameable(channels: seq<Channel>, k: Key)
    requires Holds(channels, k)
    ensures Nameable(k)
  {
    var i :| 0 <= i < |channels| && CursorKey(channels[i]) == k;
  }

  lemma LaterAskDecides(ms: seq<Outbound>, k: Key)
    requires ms != [] && About(ms[1..], k) != []
    ensures EndsAsking(About(ms, k)) <==> EndsAsking(About(ms[1..], k))
  {
  }

  lemma TakenAskKeepsAlive(c: Conn, c': Conn, k: Key)
    requires Alive(c, k) && c.toServer != [] && About(c.toServer[1..], k) != [] && c'.toServer == c.toServer[1..]
    ensures Alive(c', k)
  {
    LaterAskDecides(c.toServer, k);
  }

  lemma ServingKeepsAlive(s: System, c: Conn, refuse: bool, oldestSeq: Option<nat>, k: Key)
    requires Alive(c, k) && Nameable(k) && c.toServer != []
    ensures Alive(Serve(s, c, refuse, oldestSeq), k)
  {
    if About(c.toServer[1..], k) != [] {
      TakenAskKeepsAlive(c, Serve(s, c, refuse, oldestSeq), k);
    } else {
      AboutHead(c.toServer, k);
      if AboutOne(c.toServer[0], k) == [] {
        ServingAnotherKeepsAlive(s, c, refuse, oldestSeq, k);
      } else {
        ServingTheAskKeepsAlive(s, c, refuse, oldestSeq, k);
      }
    }
  }

  /** The last message in flight was about another stream. */
  lemma ServingAnotherKeepsAlive(s: System, c: Conn, refuse: bool, oldestSeq: Option<nat>, k: Key)
    requires c.toServer != [] && AboutOne(c.toServer[0], k) == [] && About(c.toServer[1..], k) == []
    requires k in c.subs || ResetInFlight(c, k)
    ensures Alive(Serve(s, c, refuse, oldestSeq), k)
  {
    if k in c.subs {
      ServingAnotherKeepsSubscription(s, c, refuse, oldestSeq, k);
    } else {
      ServingKeepsResets(s, c, refuse, oldestSeq, k);
    }
  }

  lemma ServingAnotherKeepsSubscription(s: System, c: Conn, refuse: bool, oldestSeq: Option<nat>, k: Key)
    requires c.toServer != [] && AboutOne(c.toServer[0], k) == [] && k in c.subs
    ensures k in Serve(s, c, refuse, oldestSeq).subs
  {
  }

  lemma ServingKeepsResets(s: System, c: Conn, refuse: bool, oldestSeq: Option<nat>, k: Key)
    requires c.toServer != [] && ResetInFlight(c, k)
    ensures ResetInFlight(Serve(s, c, refuse, oldestSeq), k)
  {
    var c' := Serve(s, c, refuse, oldestSeq);
    var i :| 0 <= i < |c.toClient| && Invalidates(c.toClient[i], k);
    assert c'.toClient[i] == c.toClient[i];
  }

  /** The last message in flight asked for this one: it is served or reset. */
  lemma ServingTheAskKeepsAlive(s: System, c: Conn, refuse: bool, oldestSeq: Option<nat>, k: Key)
    requires c.toServer != [] && EndsAsking(AboutOne(c.toServer[0], k)) && About(c.toServer[1..], k) == []
    requires Nameable(k)
    ensures Alive(Serve(s, c, refuse, oldestSeq), k)
  {
    var c' := Serve(s, c, refuse, oldestSeq);
    if k !in c'.subs {
      MoreFramesKeepResets(c, c', k, ResetFrame(k, oldestSeq));
    }
  }

  lemma ServerKeepsAlive(s: System, c: Conn, step: Step, k: Key)
    requires Alive(c, k) && Nameable(k)
    ensures Alive(ServerStep(s, c, step), k)
  {
    var c' := ServerStep(s, c, step);
    if step.ServerRead? && c.toServer != [] {
      ServingKeepsAlive(s, c, step.refuse, step.oldestSeq, k);
    } else if |c'.toClient| > |c.toClient| {
      MoreFramesKeepResets(c, c', k, c'.toClient[|c.toClient|]);
    }
  }

  lemma ResettingKeepsAlive(s: System, c: Conn, sends: nat, gone: bool, k: Key)
    requires s.conn == Some(c) && c.toClient != [] && Invalidates(c.toClient[0], k)
    requires Holds(s.client.channels, k)
    ensures var s' := Do(s, ClientRead(sends, gone)); s'.conn.Some? ==> Alive(s'.conn.value, k)
  {
    var f := c.toClient[0];
    var r := HandleFrame(s.client, f, sends, gone);
    if r.exit.None? {
      var folded := Advance(s.client.cursors, f.message.value);
      ResyncAsksAgain(s.client.channels, folded, CursorReset(f.message.value).value, sends, k);
      MoreAsksKeepAlive(c.(toClient := c.toClient[1..]), r.sent, k);
    }
  }

  lemma SkippingAFrameKeepsAlive(c: Conn, c': Conn, k: Key)
    requires c.toClient != [] && !Invalidates(c.toClient[0], k) && Alive(c, k)
    requires c'.toClient == c.toClient[1..] && c'.subs == c.subs && About(c'.toServer, k) == About(c.toServer, k)
    ensures Alive(c', k)
  {
    if ResetInFlight(c, k) {
      var i :| 0 <= i < |c.toClient| && Invalidates(c.toClient[i], k);
      assert c'.toClient[i - 1] == c.toClient[i];
    }
  }

  lemma ReadingAnotherKeepsAlive(s: System, c: Conn, sent: seq<Outbound>, sends: nat, gone: bool, k: Key)
    requires c.toClient != [] && !Invalidates(c.toClient[0], k) && Alive(c, k)
    requires sent == HandleFrame(s.client, c.toClient[0], sends, gone).sent
    ensures Alive(c.(toClient := c.toClient[1..], toServer := c.toServer + sent), k)
  {
    OtherFramesAskNothing(s.client, c.toClient[0], sends, gone, k);
    AboutAppend(c.toServer, sent, k);
    assert About(c.toServer, k) + [] == About(c.toServer, k);
    SkippingAFrameKeepsAlive(c, c.(toClient := c.toClient[1..], toServer := c.toServer + sent), k);
  }

  lemma ReadingKeepsAlive(s: System, c: Conn, sends: nat, gone: bool, k: Key)
    requires s.conn == Some(c) && c.toClient != []
    requires Holds(s.client.channels, k) && Alive(c, k)
    ensures var s' := Do(s, ClientRead(sends, gone)); s'.conn.Some? ==> Alive(s'.conn.value, k)
  {
    var f := c.toClient[0];
    if Invalidates(f, k) {
      ResettingKeepsAlive(s, c, sends, gone, k);
    } else {
      ReadingAnotherKeepsAlive(s, c, HandleFrame(s.client, f, sends, gone).sent, sends, gone, k);
    }
  }

  /** A command that leaves a stream held says nothing about it, or asks for it last. */
  lemma CommandAsks(cl: Client, cmd: Command, authed: bool, sends: nat, k: Key)
    requires OnCommand(cl, cmd, authed, sends).exit.None? && Holds(OnCommand(cl, cmd, authed, sends).client.channels, k)
    ensures var asks := About(OnCommand(cl, cmd, authed, sends).sent, k);
            EndsAsking(asks) || (asks == [] && Holds(cl.channels, k))
  {
    var sent := OnCommand(cl, cmd, authed, sends).sent;
    if sent != [] {
      assert About(sent, k) == AboutOne(sent[0], k) + About([], k) == AboutOne(sent[0], k);
    }
    HeldAfterCommand(cl, cmd, k);
    ConnectedCommandsApply(cl, cmd, authed, sends);
  }

  lemma HeldAfterCommand(cl: Client, cmd: Command, k: Key)
    requires Holds(Apply(cl, cmd).channels, k)
    ensures (cmd.Add? && CursorKey(cmd.channel) == k) || Holds(cl.channels, k)
    ensures !(cmd.Remove? && CursorKey(cmd.channel) == k)
  {
    match cmd {
      case Add(ch) => HoldsSnoc(cl.channels, ch);
      case Remove(ch) => RetainFacts(cl.channels, CursorKey(ch));
      case Close =>
    }
  }

  lemma MoreAsksKeepAlive(c: Conn, sent: seq<Outbound>, k: Key)
    requires EndsAsking(About(sent, k)) || (About(sent, k) == [] && Alive(c, k))
    ensures Alive(c.(toServer := c.toServer + sent), k)
  {
    AboutAppend(c.toServer, sent, k);
    if About(sent, k) == [] {
      assert About(c.toServer + sent, k) == About(c.toServer, k);
    }
  }

  lemma SpeakingKeepsAlive(s: System, c: Conn, r: Stepped, k: Key)
    requires r.exit.None? && (Holds(s.client.channels, k) ==> Alive(c, k))
    requires var asks := About(r.sent, k); EndsAsking(asks) || (asks == [] && Holds(s.client.channels, k))
    ensures Alive(AfterClient(s, c, r).conn.value, k)
  {
    MoreAsksKeepAlive(c, r.sent, k);
  }

  lemma CommandKeepsAlive(s: System, c: Conn, cmd: Command, sends: nat, k: Key)
    requires s.conn == Some(c)
    requires Holds(s.client.channels, k) ==> Alive(c, k)
    ensures var s' := Do(s, ClientCommand(cmd, sends));
            s'.conn.Some? && Holds(s'.client.channels, k) ==> Alive(s'.conn.value, k)
  {
    var r := OnCommand(s.client, cmd, c.authed, sends);
    assert Do(s, ClientCommand(cmd, sends)) == AfterClient(s, c, r);
    if r.exit.None? && Holds(r.client.channels, k) {
      CommandAsks(s.client, cmd, c.authed, sends, k);
      SpeakingKeepsAlive(s, c, r, k);
    }
  }

  lemma StepKeepsAlive(s: System, step: Step)
    requires DistinctKeys(s.client.channels) && HeldAreAlive(s)
    ensures HeldAreAlive(Do(s, step))
  {
    var s' := Do(s, step);
    if s'.conn.Some? {
      forall k | Holds(s'.client.channels, k) ensures Alive(s'.conn.value, k) {
        match step {
          case Connect(_, _) =>
            ReplaysAskOnce(s.client.channels, s.client.cursors, k);
          case ClientRead(sends, gone) =>
            assert Holds(s.client.channels, k);
            if s.conn.value.toClient != [] { ReadingKeepsAlive(s, s.conn.value, sends, gone, k); }
          case ClientCommand(cmd, sends) =>
            CommandKeepsAlive(s, s.conn.value, cmd, sends, k);
          case Disconnect =>
          case BackoffCommand(_) =>
          case _ =>
            HeldIsNameable(s.client.channels, k);
            ServerKeepsAlive(s, s.conn.value, step, k);
        }
      }
    }
  }

  /** From any disconnected start with distinct opening keys, in every reachable
      state, every held stream is alive on the connection. */
  lemma {:induction false} NeverSilentlyDead(s: System, steps: seq<Step>)
    requires DistinctKeys(s.client.channels) && HeldAreAlive(s)
    ensures HeldAreAlive(Run(s, steps)) && DistinctKeys(Run(s, steps).client.channels)
    decreases |steps|
  {
    if steps != [] {
      ClientKeysStayDistinct(s, steps[0]);
      StepKeepsAlive(s, steps[0]);
      NeverSilentlyDead(Do(s, steps[0]), steps[1..]);
    }
  }
}
