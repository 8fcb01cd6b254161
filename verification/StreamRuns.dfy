/** What the inputs of the typed client's task decide (`src/ws/typed.rs`): when it ends,
    what it hands over, and what it answers. */
module StreamRuns {
  import opened Common
  import opened Protocol
  import opened TypedClient
  import opened Backoff
  import opened Reconnect
  import opened StreamTask
  import opened Handover

  // ----- one connection ----------------------------------------------------------------------

  /** The connection when it has read `n` inputs. */
  function Until(s: Stream, authed: bool, sends: nat, inputs: seq<Input>, n: nat): Serving
    requires n <= |inputs|
  {
    ProceedAll(Opening(s.client, s.outlet, sends), authed, inputs[..n])
  }

  /** Input `i` is read: nothing before it has ended the connection. */
  predicate Read(s: Stream, authed: bool, sends: nat, inputs: seq<Input>, i: nat) {
    i < |inputs| && Until(s, authed, sends, inputs, i).exit.None?
  }

  lemma OneMoreInput(s: Stream, authed: bool, sends: nat, inputs: seq<Input>, i: nat)
    requires i < |inputs|
    ensures Until(s, authed, sends, inputs, i + 1) == Proceed(Until(s, authed, sends, inputs, i), authed, inputs[i])
  {
    assert inputs[..i + 1][..i] == inputs[..i];
  }

  /** What the queue sees of an input. */
  function Seen(input: Input): seq<Delivery.Happening<ServerMessage>> {
    match input
    case FromServer(f, pause) => if f.Data? && f.message.Some? then [Delivery.Frame(f.message.value, pause)] else []
    case FromConsumer(act) => [Delivery.Consumer(act)]
    case _ => []
  }

  function SeenOf(inputs: seq<Input>): seq<Delivery.Happening<ServerMessage>> {
    if inputs == [] then [] else SeenOf(inputs[..|inputs| - 1]) + Seen(inputs[|inputs| - 1])
  }

  lemma ProceedingIsSeen(sv: Serving, authed: bool, input: Input)
    requires sv.exit.None?
    ensures Proceed(sv, authed, input).outlet == Delivery.Play(sv.outlet, Seen(input))
  {
    var seen := Seen(input);
    if seen != [] {
      assert seen == [seen[0]] && seen[1..] == [];
      assert Delivery.Play(sv.outlet, seen) == Delivery.Play(Delivery.Happen(sv.outlet, seen[0]), []);
    }
  }

  lemma {:induction false} SeenIsOneConnection(inputs: seq<Input>)
    ensures OneConnection(SeenOf(inputs))
  {
    if inputs != [] { SeenIsOneConnection(inputs[..|inputs| - 1]); }
  }

  lemma SeenSnoc(inputs: seq<Input>, n: nat)
    requires 0 < n <= |inputs|
    ensures SeenOf(inputs[..n]) == SeenOf(inputs[..n - 1]) + Seen(inputs[n - 1])
  {
    assert inputs[..n][..n - 1] == inputs[..n - 1];
  }

  /** Every frame that is read and says something is put to the queue, with its own
      message, in the order of the inputs; so is everything the consumer does. */
  lemma {:induction false} QueueSeesTheInputs(s: Stream, authed: bool, sends: nat, inputs: seq<Input>, n: nat)
    requires n <= |inputs| && (n > 0 ==> Read(s, authed, sends, inputs, n - 1))
    ensures Until(s, authed, sends, inputs, n).outlet
         == Delivery.Play(Delivery.BeginConnection(s.outlet), SeenOf(inputs[..n]))
    decreases n
  {
    var begun := Delivery.BeginConnection(s.outlet);
    if n == 0 {
      assert Delivery.Play(begun, SeenOf(inputs[..0])) == begun;
    } else {
      OneMoreInput(s, authed, sends, inputs, n - 1);
      ReadBefore(s, authed, sends, inputs, n - 1);
      QueueSeesTheInputs(s, authed, sends, inputs, n - 1);
      SeenSnoc(inputs, n);
      ProceedingIsSeen(Until(s, authed, sends, inputs, n - 1), authed, inputs[n - 1]);
      PlayAppend(begun, SeenOf(inputs[..n - 1]), Seen(inputs[n - 1]));
    }
  }

  lemma ReadBefore(s: Stream, authed: bool, sends: nat, inputs: seq<Input>, i: nat)
    requires Read(s, authed, sends, inputs, i)
    ensures i > 0 ==> Read(s, authed, sends, inputs, i - 1)
  {
    if i > 0 { OneMoreInput(s, authed, sends, inputs, i - 1); }
  }

  /** So every message handed over on a connection is one of the frames read, under its
      number among those that found the consumer there. */
  lemma MessagesAreTheFramesRead(s: Stream, authed: bool, sends: nat, inputs: seq<Input>, n: nat)
    requires n <= |inputs| && (n > 0 ==> Read(s, authed, sends, inputs, n - 1))
    ensures TheirFrames(Until(s, authed, sends, inputs, n).outlet, Heard(s.outlet.open, SeenOf(inputs[..n])))
  {
    QueueSeesTheInputs(s, authed, sends, inputs, n);
    SeenIsOneConnection(inputs[..n]);
    ConnectionHandsOverItsFrames(s.outlet, SeenOf(inputs[..n]));
  }

  // ----- commands ------------------------------------------------------------------------------

  function CommandsIn(inputs: seq<Input>): seq<Command> {
    if inputs == [] then []
    else
      var front, last := CommandsIn(inputs[..|inputs| - 1]), inputs[|inputs| - 1];
      if last.FromHandle? then front + [last.cmd] else front
  }

  /** A connection takes every command that is read, in order. */
  lemma {:induction false} CommandsAreTaken(s: Stream, authed: bool, sends: nat, inputs: seq<Input>, n: nat)
    requires n <= |inputs| && (n > 0 ==> Read(s, authed, sends, inputs, n - 1))
    ensures Until(s, authed, sends, inputs, n).consumed == CommandsIn(inputs[..n])
    decreases n
  {
    if n > 0 {
      OneMoreInput(s, authed, sends, inputs, n - 1);
      ReadBefore(s, authed, sends, inputs, n - 1);
      CommandsAreTaken(s, authed, sends, inputs, n - 1);
      assert inputs[..n][..n - 1] == inputs[..n - 1];
      OneMoreCommand(Until(s, authed, sends, inputs, n - 1), authed, inputs[n - 1]);
    }
  }

  lemma OneMoreCommand(sv: Serving, authed: bool, input: Input)
    requires sv.exit.None?
    ensures Proceed(sv, authed, input).consumed
         == if input.FromHandle? then sv.consumed + [input.cmd] else sv.consumed
  {
  }

  // ----- what is told without a connection --------------------------------------------------------

  /** An attempt that does not connect tells the consumer of a failed mint and of a refusal
      without a token, when there is room, and of nothing else. */
  lemma UnconnectedAttemptsTell(s: Stream, authed: bool, a: Attempt)
    requires a.upgrade.Failed? || (authed && !a.mints)
    ensures var t := AttemptMade(s, authed, a);
            Delivery.History(t.state.outlet) == Delivery.History(s.outlet)
              + if (authed && !a.mints) || (a.upgrade.refused && !authed)
                then (if s.outlet.open && !Delivery.Full(s.outlet) then [Delivery.Failure] else [])
                else []
  {
    var o := s.outlet;
    assert Delivery.History(Delivery.Enqueue(o, Delivery.Failure)) == Delivery.History(o) + [Delivery.Failure];
    assert Delivery.History(o) + [] == Delivery.History(o);
  }

  // ----- pings ---------------------------------------------------------------------------------

  predicate IsPing(input: Input) { input.FromServer? && input.frame.Ping? }

  function Pings(inputs: seq<Input>): nat {
    if inputs == [] then 0 else Pings(inputs[..|inputs| - 1]) + if IsPing(inputs[|inputs| - 1]) then 1 else 0
  }

  function Pongs(ms: seq<Outbound>): nat {
    if ms == [] then 0 else (if ms[0].Pong? then 1 else 0) + Pongs(ms[1..])
  }

  lemma {:induction false} PongsAppend(a: seq<Outbound>, b: seq<Outbound>)
    ensures Pongs(a + b) == Pongs(a) + Pongs(b)
  {
    if a == [] {
      assert a + b == b;
    } else {
      assert (a + b)[1..] == a[1..] + b;
      PongsAppend(a[1..], b);
    }
  }

  lemma {:induction false} ResyncHoldsNoPong(channels: seq<Channel>, cursors: map<Key, nat>, reset: Key, sends: nat)
    ensures Pongs(Resync(channels, cursors, reset, sends).1) == 0
  {
    if channels != [] {
      var c, rest := channels[0], channels[1..];
      ResyncHoldsNoPong(rest, cursors, reset, sends);
      if sends > 0 {
        ResyncHoldsNoPong(rest, cursors - {CursorKey(c)}, reset, sends - 1);
        PongsAppend([SubscribeFrame(c, None)], Resync(rest, cursors - {CursorKey(c)}, reset, sends - 1).1);
        OnePong(SubscribeFrame(c, None));
      }
    }
  }

  lemma OnePong(m: Outbound)
    ensures Pongs([m]) == if m.Pong? then 1 else 0
  {
    assert Pongs([m]) == (if m.Pong? then 1 else 0) + Pongs([]);
  }

  lemma {:induction false} ReplaysHoldNoPong(channels: seq<Channel>, cursors: map<Key, nat>)
    ensures Pongs(Replays(channels, cursors)) == 0
  {
    if channels != [] {
      var n := |channels| - 1;
      ReplaysHoldNoPong(channels[..n], cursors);
      var last := SubscribeFrame(channels[n], Lookup(cursors, CursorKey(channels[n])));
      PongsAppend(Replays(channels[..n], cursors), [last]);
      OnePong(last);
    }
  }

  lemma FramePongs(cl: Client, f: Frame, sends: nat, gone: bool)
    ensures var r := TypedClient.HandleFrame(cl, f, sends, gone);
            && (!f.Ping? ==> Pongs(r.sent) == 0)
            && (f.Ping? && r.exit.None? ==> Pongs(r.sent) == 1)
  {
    if f.Ping? { OnePong(Pong); }
    if f.Data? && f.message.Some? && CursorReset(f.message.value).Some? {
      ResyncHoldsNoPong(cl.channels, Advance(cl.cursors, f.message.value), CursorReset(f.message.value).value, sends);
    }
  }

  lemma CommandPongs(cl: Client, cmd: Command, authed: bool, sends: nat)
    ensures Pongs(OnCommand(cl, cmd, authed, sends).sent) == 0
  {
    var sent := OnCommand(cl, cmd, authed, sends).sent;
    if sent != [] { OnePong(sent[0]); }
  }

  /** While a connection is up it has answered each ping with one pong, and sent no other. */
  lemma {:induction false} PingsAreAnswered(s: Stream, authed: bool, sends: nat, inputs: seq<Input>, n: nat)
    requires n <= |inputs| && Until(s, authed, sends, inputs, n).exit.None?
    ensures Pongs(Until(s, authed, sends, inputs, n).sent) == Pings(inputs[..n])
    decreases n
  {
    if n == 0 {
      var all := if sends < |s.client.channels| then sends else |s.client.channels|;
      ReplaysHoldNoPong(s.client.channels[..all], s.client.cursors);
    } else {
      OneMoreInput(s, authed, sends, inputs, n - 1);
      var before := Until(s, authed, sends, inputs, n - 1);
      PingsAreAnswered(s, authed, sends, inputs, n - 1);
      assert inputs[..n][..n - 1] == inputs[..n - 1];
      InputPongs(before, authed, inputs[n - 1]);
    }
  }

  lemma InputPongs(sv: Serving, authed: bool, input: Input)
    requires sv.exit.None? && Proceed(sv, authed, input).exit.None?
    ensures Pongs(Proceed(sv, authed, input).sent) == Pongs(sv.sent) + if IsPing(input) then 1 else 0
  {
    match input {
      case FromServer(f, pause) =>
        var gone := FrameFindsConsumerGone(sv.outlet, f, pause);
        FramePongs(sv.client, f, sv.sends, gone);
        PongsAppend(sv.sent, TypedClient.HandleFrame(sv.client, f, sv.sends, gone).sent);
      case FromHandle(cmd) =>
        CommandPongs(sv.client, cmd, authed, sv.sends);
        PongsAppend(sv.sent, OnCommand(sv.client, cmd, authed, sv.sends).sent);
      case _ =>
    }
  }

  // ----- the end of the task ----------------------------------------------------------------------

  /** The consumer has hung up before input `i`. */
  predicate HungUpBefore(open: bool, inputs: seq<Input>, i: nat)
    requires i <= |inputs|
  {
    !open || FromConsumer(Delivery.Hangup) in inputs[..i]
  }

  /** Input `i` ends the task, if it is read: a close, the loss of the handle, or a message
      whose delivery finds the consumer gone. */
  predicate EndsTheTask(open: bool, inputs: seq<Input>, i: nat)
    requires i < |inputs|
  {
    match inputs[i]
    case FromHandle(cmd) => cmd.Close?
    case HandleDropped => true
    case FromServer(f, pause) =>
      f.Data? && f.message.Some? && (HungUpBefore(open, inputs, i) || Delivery.Hangup in pause)
    case _ => false
  }

  /** While a connection is up, its queue is open exactly until the consumer hangs up. */
  lemma {:induction false} OpenUntilHungUp(s: Stream, authed: bool, sends: nat, inputs: seq<Input>, n: nat)
    requires n <= |inputs| && Until(s, authed, sends, inputs, n).exit.None?
    ensures Until(s, authed, sends, inputs, n).outlet.open <==> !HungUpBefore(s.outlet.open, inputs, n)
    decreases n
  {
    if n > 0 {
      OneMoreInput(s, authed, sends, inputs, n - 1);
      OpenUntilHungUp(s, authed, sends, inputs, n - 1);
      assert inputs[..n] == inputs[..n - 1] + [inputs[n - 1]];
      var before := Until(s, authed, sends, inputs, n - 1);
      match inputs[n - 1] {
        case FromServer(f, pause) =>
          GoneIff(before.outlet, pause);
          if f.Data? && f.message.Some? { HappeningOpen(before.outlet, Delivery.Frame(f.message.value, pause)); }
        case _ =>
      }
    }
  }

  /** An input that is read ends the connection for good exactly when it is one of those. */
  lemma InputStopsIff(s: Stream, authed: bool, sends: nat, inputs: seq<Input>, i: nat)
    requires Read(s, authed, sends, inputs, i)
    ensures var exit := Until(s, authed, sends, inputs, i + 1).exit;
            exit.Some? && exit.value != Reconnect <==> EndsTheTask(s.outlet.open, inputs, i)
  {
    OneMoreInput(s, authed, sends, inputs, i);
    OpenUntilHungUp(s, authed, sends, inputs, i);
    if inputs[i].FromServer? { GoneIff(Until(s, authed, sends, inputs, i).outlet, inputs[i].pause); }
  }

  lemma {:induction false} ConnectionStopsIff(s: Stream, authed: bool, sends: nat, inputs: seq<Input>, n: nat)
    requires n <= |inputs|
    ensures var exit := Until(s, authed, sends, inputs, n).exit;
            exit.Some? && exit.value != Reconnect <==>
              exists i: nat :: i < n && Read(s, authed, sends, inputs, i) && EndsTheTask(s.outlet.open, inputs, i)
    decreases n
  {
    if n > 0 {
      OneMoreInput(s, authed, sends, inputs, n - 1);
      ConnectionStopsIff(s, authed, sends, inputs, n - 1);
      if Read(s, authed, sends, inputs, n - 1) {
        InputStopsIff(s, authed, sends, inputs, n - 1);
      }
    }
  }

  /** What ends the task in an attempt: a mint that fails with nobody left to tell, a refusal
      without a token, or an input that does. */
  ghost predicate AttemptEndsTheTask(s: Stream, authed: bool, a: Attempt) {
    if authed && !a.mints then !s.outlet.open
    else
      match a.upgrade
      case Failed(refused) => refused && !authed
      case Open(sends, inputs) =>
        exists i: nat :: i < |inputs| && Read(s, authed, sends, inputs, i) && EndsTheTask(s.outlet.open, inputs, i)
  }

  lemma AttemptStopsIff(s: Stream, authed: bool, a: Attempt)
    ensures AttemptMade(s, authed, a).stop <==> AttemptEndsTheTask(s, authed, a)
  {
    if a.upgrade.Open? {
      var inputs := a.upgrade.inputs;
      ConnectionStopsIff(s, authed, a.upgrade.sends, inputs, |inputs|);
      assert inputs[..|inputs|] == inputs;
    }
  }

  /** Attempt `n` was made, and it or the delay after it ended the task. */
  ghost predicate Ended(r: Rhythm, hasCredentials: bool, life: Life<Stream, Command>, attempts: seq<Attempt>, n: nat)
    requires n < |attempts|
  {
    var loop := TypedLoop(hasCredentials);
    var before := Lived(r, loop, life, attempts[..n]);
    && !before.stopped
    && (AttemptEndsTheTask(before.state, Authed(hasCredentials, before.state.client.channels), attempts[n])
        || WaitIsCut(r, loop, before, attempts[n]))
  }

  /** The task has ended exactly when one of these happened, over any attempts. */
  lemma TaskStopsIff(r: Rhythm, hasCredentials: bool, life: Life<Stream, Command>, attempts: seq<Attempt>)
    requires !life.stopped
    ensures Lived(r, TypedLoop(hasCredentials), life, attempts).stopped <==>
              exists n: nat :: n < |attempts| && Ended(r, hasCredentials, life, attempts, n)
  {
    var loop := TypedLoop(hasCredentials);
    LoopStopsIff(r, loop, life, attempts);
    forall n: nat | n < |attempts|
      ensures EndsWith(r, loop, life, attempts, n) <==>
                Ended(r, hasCredentials, life, attempts, n)
    {
      var before := Lived(r, loop, life, attempts[..n]);
      AttemptStopsIff(before.state, Authed(hasCredentials, before.state.client.channels), attempts[n]);
    }
  }
}
