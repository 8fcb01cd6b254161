/** The typed client's background task in its own form (`src/ws/typed.rs`): the
    reconnect loop, one connection, one frame, one command, the backoff wait.
    Every method is tied to the step functions of `TypedClient` and `Delivery`,
    which the whole-system results are about. What the environment does (which
    branch is ready, how far writes get, when things arrive) is an input. */
module StreamTask {
  import opened Common
  import opened Protocol
  import opened TypedClient
  import opened Backoff
  import opened Reconnect
  import Delivery

  type Outlet = Delivery.Outlet<ServerMessage>

  /** What a live connection's `select!` picks up next. */
  datatype Input =
    | FromServer(frame: Frame, pause: seq<Delivery.ConsumerAct>)
    | ReadFailed
    | FromHandle(cmd: Command)
    | HandleDropped
    | FromConsumer(act: Delivery.ConsumerAct)

  // ----- one connection, as a fold over its inputs -------------------------------------

  datatype Serving = Serving(
    client: Client, outlet: Outlet, sent: seq<Outbound>, sends: nat,
    consumed: seq<Command>, exit: Option<LoopExit>)

  /** The connection opens by replaying every subscribe, as far as writes go. */
  function Opening(cl: Client, outlet: Outlet, sends: nat): Serving {
    var n := if sends < |cl.channels| then sends else |cl.channels|;
    Serving(cl, Delivery.BeginConnection(outlet), Replays(cl.channels[..n], cl.cursors), sends - n, [],
            if n < |cl.channels| then Some(Reconnect) else None)
  }

  function Took(sv: Serving, r: Stepped): Serving
    requires |r.sent| <= sv.sends
  {
    sv.(client := r.client, sent := sv.sent + r.sent, sends := sv.sends - |r.sent|, exit := r.exit)
  }

  predicate FrameFindsConsumerGone(outlet: Outlet, f: Frame, pause: seq<Delivery.ConsumerAct>) {
    f.Data? && f.message.Some? && Delivery.Gone(outlet, pause)
  }

  function OutletAfterFrame(outlet: Outlet, f: Frame, pause: seq<Delivery.ConsumerAct>): Outlet {
    if f.Data? && f.message.Some? then Delivery.Deliver(outlet, f.message.value, pause) else outlet
  }

  lemma {:induction false} ResyncSendsWithinBudget(channels: seq<Channel>, cursors: map<Key, nat>, reset: Key,
                                                   sends: nat)
    ensures |Resync(channels, cursors, reset, sends).1| <= sends
  {
    if channels != [] {
      ResyncSendsWithinBudget(channels[1..], cursors, reset, sends);
      if sends > 0 {
        ResyncSendsWithinBudget(channels[1..], cursors - {CursorKey(channels[0])}, reset, sends - 1);
      }
    }
  }

  lemma FrameSendsWithinBudget(cl: Client, f: Frame, sends: nat, gone: bool)
    ensures |TypedClient.HandleFrame(cl, f, sends, gone).sent| <= sends
  {
    if f.Data? && f.message.Some? && CursorReset(f.message.value).Some? {
      var reset := CursorReset(f.message.value).value;
      ResyncSendsWithinBudget(cl.channels, Advance(cl.cursors, f.message.value), reset, sends);
    }
  }

  function Proceed(sv: Serving, authed: bool, input: Input): Serving {
    if sv.exit.Some? then sv
    else
      match input
      case FromServer(f, pause) =>
        var gone := FrameFindsConsumerGone(sv.outlet, f, pause);
        FrameSendsWithinBudget(sv.client, f, sv.sends, gone);
        Took(sv, TypedClient.HandleFrame(sv.client, f, sv.sends, gone))
          .(outlet := OutletAfterFrame(sv.outlet, f, pause))
      case ReadFailed => sv.(exit := Some(Reconnect))
      case FromHandle(cmd) =>
        Took(sv, TypedClient.OnCommand(sv.client, cmd, authed, sv.sends)).(consumed := sv.consumed + [cmd])
      case HandleDropped => sv.(exit := Some(ConsumerGone))
      case FromConsumer(act) => sv.(outlet := Delivery.Consume(sv.outlet, act))
  }

  function ProceedAll(sv: Serving, authed: bool, inputs: seq<Input>): Serving
  {
    if inputs == [] then sv
    else Proceed(ProceedAll(sv, authed, inputs[..|inputs| - 1]), authed, inputs[|inputs| - 1])
  }

  /** The replay set a command history leads to. */
  function ReplaySet(channels: seq<Channel>, cmds: seq<Command>): seq<Channel> {
    ApplyAll(Client(channels, map[]), cmds).channels
  }

  lemma ReplaySetSnoc(channels: seq<Channel>, cmds: seq<Command>, cursors: map<Key, nat>, cmd: Command)
    ensures Apply(Client(ReplaySet(channels, cmds), cursors), cmd).channels == ReplaySet(channels, cmds + [cmd])
  {
    assert (cmds + [cmd])[..|cmds|] == cmds;
  }

  lemma ReplaySetAppend(channels: seq<Channel>, a: seq<Command>, b: seq<Command>)
    ensures ReplaySet(channels, a + b) == ReplaySet(ReplaySet(channels, a), b)
  {
    ApplyAllAppend(Client(channels, map[]), a, b);
    CursorsDoNotMatter(ReplaySet(channels, a), ApplyAll(Client(channels, map[]), a).cursors, b);
  }

  lemma {:induction false} CursorsDoNotMatter(channels: seq<Channel>, cursors: map<Key, nat>, cmds: seq<Command>)
    ensures ApplyAll(Client(channels, cursors), cmds).channels == ReplaySet(channels, cmds)
  {
    if cmds != [] {
      CursorsDoNotMatter(channels, cursors, cmds[..|cmds| - 1]);
    }
  }

  /** On one connection, whatever its inputs: the replay set is the commands'
      doing alone, and every frame stays accounted for. */
  lemma {:induction false} ConnectionInvariants(cl: Client, outlet: Outlet, authed: bool, sends: nat,
                                                inputs: seq<Input>)
    requires Delivery.Sound(outlet)
    ensures var sv := ProceedAll(Opening(cl, outlet, sends), authed, inputs);
            && sv.client.channels == ReplaySet(cl.channels, sv.consumed)
            && Delivery.Sound(sv.outlet) && sv.outlet.start == |Delivery.History(outlet)|
  {
    if inputs == [] {
      Delivery.HappeningIsSound(outlet, Delivery.Connected);
    } else {
      var n := |inputs| - 1;
      ConnectionInvariants(cl, outlet, authed, sends, inputs[..n]);
      var before := ProceedAll(Opening(cl, outlet, sends), authed, inputs[..n]);
      ProceedKeepsInvariants(before, cl.channels, authed, inputs[n]);
    }
  }

  lemma ProceedKeepsInvariants(sv: Serving, channels: seq<Channel>, authed: bool, input: Input)
    requires sv.client.channels == ReplaySet(channels, sv.consumed) && Delivery.Sound(sv.outlet)
    ensures var sv' := Proceed(sv, authed, input);
            && sv'.client.channels == ReplaySet(channels, sv'.consumed)
            && Delivery.Sound(sv'.outlet) && sv'.outlet.start == sv.outlet.start
  {
    match input {
      case FromServer(f, pause) => FrameKeepsInvariants(sv, authed, f, pause);
      case FromHandle(cmd) => CommandKeepsInvariants(sv, channels, authed, cmd);
      case FromConsumer(act) =>
        Delivery.HappeningIsSound(sv.outlet, Delivery.Consumer(act));
      case _ =>
    }
  }

  lemma CommandKeepsInvariants(sv: Serving, channels: seq<Channel>, authed: bool, cmd: Command)
    requires sv.client.channels == ReplaySet(channels, sv.consumed)
    ensures var sv' := Proceed(sv, authed, FromHandle(cmd));
            sv'.client.channels == ReplaySet(channels, sv'.consumed) && sv'.outlet == sv.outlet
  {
    ConnectedCommandsApply(sv.client, cmd, authed, sv.sends);
    ReplaySetSnoc(channels, sv.consumed, sv.client.cursors, cmd);
  }

  lemma FrameKeepsInvariants(sv: Serving, authed: bool, f: Frame, pause: seq<Delivery.ConsumerAct>)
    requires Delivery.Sound(sv.outlet)
    ensures var sv' := Proceed(sv, authed, FromServer(f, pause));
            && sv'.client.channels == sv.client.channels && sv'.consumed == sv.consumed
            && Delivery.Sound(sv'.outlet) && sv'.outlet.start == sv.outlet.start
  {
    FramesKeepChannels(sv.client, f, sv.sends, FrameFindsConsumerGone(sv.outlet, f, pause));
    if f.Data? && f.message.Some? {
      Delivery.HappeningIsSound(sv.outlet, Delivery.Frame(f.message.value, pause));
    }
  }

  // ----- the reconnect loop ---------------------------------------------------------------

  /** How an upgrade goes. `refused` is a 401 or 403. */
  datatype Upgrade = Failed(refused: bool) | Open(sends: nat, inputs: seq<Input>)

  /** One turn of the loop as the environment makes it: whether a token can be
      minted, how the upgrade goes, how long it takes, what reaches the task
      during the wait, and what the consumer does then. */
  datatype Attempt = Attempt(mints: bool, upgrade: Upgrade, timing: Timing<Command>,
      meanwhile: seq<Delivery.ConsumerAct>)

  datatype Stream = Stream(client: Client, outlet: Outlet)

  /** The client always presents a token when it has credentials or needs one. */
  function Authed(hasCredentials: bool, channels: seq<Channel>): bool {
    hasCredentials || exists c :: c in channels && IsPrivate(c)
  }

  /** A whole connection, to the end of its inputs or its exit. */
  function Served(s: Stream, authed: bool, sends: nat, inputs: seq<Input>): Serving {
    ProceedAll(Opening(s.client, s.outlet, sends), authed, inputs)
  }

  /** Running out of inputs is the stream ending. */
  function ExitOf(sv: Serving): LoopExit { if sv.exit.Some? then sv.exit.value else Reconnect }

  function AttemptMade(s: Stream, authed: bool, a: Attempt): Tried<Stream, Command> {
    if authed && !a.mints then Tried(s.(outlet := Delivery.Emit(s.outlet)), [], false, !s.outlet.open)
    else
      match a.upgrade
      case Failed(refused) =>
        if refused && !authed then Tried(s.(outlet := Delivery.Emit(s.outlet)), [], false, true)
        else Tried(s, [], false, false)
      case Open(sends, inputs) => HungUp(Served(s, authed, sends, inputs))
  }

  /** Only a message that was handed over makes a connection count. */
  function HungUp(sv: Serving): Tried<Stream, Command> {
    Tried(Stream(sv.client, sv.outlet), sv.consumed, sv.outlet.delivered, ExitOf(sv) != Reconnect)
  }

  predicate IsClose(cmd: Command) { cmd.Close? }

  function Queued(s: Stream, cmd: Command): Stream { s.(client := Apply(s.client, cmd)) }

  function TypedLoop(hasCredentials: bool): Loop<Stream, Command, Attempt> {
    Loop((s: Stream, a: Attempt) => AttemptMade(s, Authed(hasCredentials, s.client.channels), a),
         Queued, IsClose,
         (s: Stream, a: Attempt) => s.(outlet := Delivery.ConsumeAll(s.outlet, a.meanwhile)),
         (a: Attempt) => a.timing)
  }

  // ----- what holds over the whole loop --------------------------------------------------------

  lemma ExitIsFinal(sv: Serving, authed: bool, inputs: seq<Input>, n: nat)
    requires n <= |inputs| && ProceedAll(sv, authed, inputs[..n]).exit.Some?
    ensures ProceedAll(sv, authed, inputs) == ProceedAll(sv, authed, inputs[..n])
    decreases |inputs| - n
  {
    if n == |inputs| {
      assert inputs[..n] == inputs;
    } else {
      assert inputs[..n + 1][..n] == inputs[..n];
      ExitIsFinal(sv, authed, inputs, n + 1);
    }
  }

  /** An attempt counts as fed exactly when its own connection handed a message to
      the consumer. */
  lemma FedMeansAMessage(s: Stream, authed: bool, a: Attempt)
    requires Delivery.Sound(s.outlet)
    ensures var t := AttemptMade(s, authed, a);
            t.fed <==> a.upgrade.Open? && (authed ==> a.mints)
                       && Delivery.HandedOver(Delivery.History(t.state.outlet), |Delivery.History(s.outlet)|)
  {
    if a.upgrade.Open? {
      ServedKeepsInvariants(s, authed, a.upgrade.sends, a.upgrade.inputs);
    }
  }

  lemma ServedKeepsInvariants(s: Stream, authed: bool, sends: nat, inputs: seq<Input>)
    requires Delivery.Sound(s.outlet)
    ensures var t := HungUp(Served(s, authed, sends, inputs));
            && t.state.client.channels == ReplaySet(s.client.channels, t.consumed) && Delivery.Sound(t.state.outlet)
            && (t.fed <==> Delivery.HandedOver(Delivery.History(t.state.outlet), |Delivery.History(s.outlet)|))
  {
    ConnectionInvariants(s.client, s.outlet, authed, sends, inputs);
  }

  lemma AttemptKeepsInvariants(s: Stream, authed: bool, a: Attempt)
    requires Delivery.Sound(s.outlet)
    ensures var t := AttemptMade(s, authed, a);
            t.state.client.channels == ReplaySet(s.client.channels, t.consumed) && Delivery.Sound(t.state.outlet)
  {
    if a.upgrade.Open? && (authed ==> a.mints) {
      ServedKeepsInvariants(s, authed, a.upgrade.sends, a.upgrade.inputs);
      assert AttemptMade(s, authed, a) == HungUp(Served(s, authed, a.upgrade.sends, a.upgrade.inputs));
    } else {
      Delivery.HappeningIsSound(s.outlet, Delivery.Surfaced);
      UnconnectedAttempts(s, authed, a);
    }
  }

  lemma UnconnectedAttempts(s: Stream, authed: bool, a: Attempt)
    requires a.upgrade.Failed? || (authed && !a.mints)
    ensures var t := AttemptMade(s, authed, a);
            && t.state.client == s.client && t.consumed == [] && !t.fed
            && t.state.outlet in {s.outlet, Delivery.Emit(s.outlet)}
  {
  }

  /** The replay set is the history of the commands taken, and every frame is accounted for. */
  ghost predicate Faithful(first: seq<Channel>, s: Stream, taken: seq<Command>) {
    s.client.channels == ReplaySet(first, taken) && Delivery.Sound(s.outlet)
  }

  lemma AttemptIsFaithful(first: seq<Channel>, hasCredentials: bool, s: Stream, taken: seq<Command>, a: Attempt)
    requires Faithful(first, s, taken)
    ensures var t := AttemptMade(s, Authed(hasCredentials, s.client.channels), a);
            Faithful(first, t.state, taken + t.consumed)
  {
    var authed := Authed(hasCredentials, s.client.channels);
    AttemptKeepsInvariants(s, authed, a);
    ReplaySetAppend(first, taken, AttemptMade(s, authed, a).consumed);
  }

  lemma QueueingIsFaithful(first: seq<Channel>, s: Stream, taken: seq<Command>, cmd: Command)
    requires Faithful(first, s, taken)
    ensures Faithful(first, Queued(s, cmd), taken + [cmd])
  {
    ReplaySetSnoc(first, taken, s.client.cursors, cmd);
  }

  /** Over the whole loop, connected or not: the replay set is a function of the
      commands taken, and no frame goes unaccounted for. */
  lemma LoopKeepsHistory(r: Rhythm, hasCredentials: bool, life: Life<Stream, Command>, attempts: seq<Attempt>)
    requires life.consumed == [] && Delivery.Sound(life.state.outlet)
    ensures var end := Lived(r, TypedLoop(hasCredentials), life, attempts);
            Faithful(life.state.client.channels, end.state, end.consumed)
  {
    var first, loop := life.state.client.channels, TypedLoop(hasCredentials);
    var keeps := (s: Stream, taken: seq<Command>) => Faithful(first, s, taken);
    forall s, taken, a | keeps(s, taken)
      ensures AttemptKeeps(loop, keeps, s, taken, a) && IdlingKeeps(loop, keeps, s, taken, a)
    {
      AttemptIsFaithful(first, hasCredentials, s, taken, a);
      Delivery.ConsumingIsSound(s.outlet, a.meanwhile);
    }
    forall s, taken, cmd | keeps(s, taken) ensures CommandKeeps(loop.apply, loop.closes, keeps, s, taken, cmd) {
      QueueingIsFaithful(first, s, taken, cmd);
    }
    LoopKeeps(r, loop, keeps, life, attempts);
  }

  /** The replay set of a stream opened with distinct keys is, at every moment, the
      channels of the adds in force, in order; and its keys stay distinct. */
  lemma LoopReplaysAddsInForce(r: Rhythm, hasCredentials: bool, life: Life<Stream, Command>, attempts: seq<Attempt>)
    requires life.consumed == [] && Delivery.Sound(life.state.outlet) && DistinctKeys(life.state.client.channels)
    ensures var end := Lived(r, TypedLoop(hasCredentials), life, attempts);
            var history := AsAdds(life.state.client.channels) + end.consumed;
            end.state.client.channels == InForceUpTo(history, |history|) && DistinctKeys(end.state.client.channels)
  {
    LoopKeepsHistory(r, hasCredentials, life, attempts);
    var end := Lived(r, TypedLoop(hasCredentials), life, attempts);
    ReplaySetFromOpening(life.state.client.channels, map[], end.consumed);
  }

  /** Attempt `i` opened a connection that handed a message to the consumer. */
  ghost predicate Delivers(r: Rhythm, hasCredentials: bool, life: Life<Stream, Command>, attempts: seq<Attempt>, i: nat)
    requires i < |attempts|
  {
    var s, a := Lived(r, TypedLoop(hasCredentials), life, attempts[..i]).state, attempts[i];
    var authed := Authed(hasCredentials, s.client.channels);
    && a.upgrade.Open? && (authed ==> a.mints)
    && Delivery.HandedOver(Delivery.History(AttemptMade(s, authed, a).state.outlet), |Delivery.History(s.outlet)|)
  }

  /** The pace of the whole loop, from a fresh timer: one delay between consecutive
      attempts, waited out, and the n-th since the last connection that handed over
      a message is one the policy allows for n. */
  lemma TypedLoopIsPaced(r: Rhythm, p: Policy, hasCredentials: bool, life: Life<Stream, Command>,
                         attempts: seq<Attempt>)
    requires Follows(r, p) && ValidPolicy(p) && Drawn(p, life.clock.timer, 0) && Delivery.Sound(life.state.outlet)
    requires life.clock.pacing == Pacing([], [], []) && life.consumed == [] && !life.stopped
    requires forall i :: 0 <= i < |attempts| ==> ValidTiming(attempts[i].timing)
    ensures var end := Lived(r, TypedLoop(hasCredentials), life, attempts);
            && Paced(May(p), end.clock.pacing) && |end.clock.pacing.fed| <= |attempts|
            && (!end.stopped ==> |end.clock.pacing.starts| == |attempts|)
            && forall i :: 0 <= i < |end.clock.pacing.fed| ==>
                 (end.clock.pacing.fed[i] <==> Delivers(r, hasCredentials, life, attempts, i))
  {
    var loop := TypedLoop(hasCredentials);
    forall i | 0 <= i < |attempts| ensures ValidTiming(loop.timing(attempts[i])) {}
    LoopIsPaced(r, p, loop, life, attempts);
    var fed := Lived(r, loop, life, attempts).clock.pacing.fed;
    forall i | 0 <= i < |fed| ensures fed[i] <==> Delivers(r, hasCredentials, life, attempts, i) {
      assert MadeAs(r, loop, life, attempts, i, fed[i]);
      var s := Lived(r, loop, life, attempts[..i]).state;
      LoopKeepsHistory(r, hasCredentials, life, attempts[..i]);
      FedMeansAMessage(s, Authed(hasCredentials, s.client.channels), attempts[i]);
    }
  }

  /** The whole resync, when `sent` has been written and `rest` is still to come. */
  predicate AfterPrefix(whole: (map<Key, nat>, seq<Outbound>, bool), sent: seq<Outbound>,
                        rest: (map<Key, nat>, seq<Outbound>, bool)) {
    whole.0 == rest.0 && whole.1 == sent + rest.1 && whole.2 == rest.2
  }

  lemma ResyncUnfolds(whole: (map<Key, nat>, seq<Outbound>, bool), sent: seq<Outbound>,
                      channels: seq<Channel>, i: nat, cursors: map<Key, nat>, reset: Key, sends: nat)
    requires i < |channels| && AfterPrefix(whole, sent, Resync(channels[i..], cursors, reset, sends))
    ensures var k := CursorKey(channels[i]);
            if !Covers(reset, k) then AfterPrefix(whole, sent, Resync(channels[i + 1..], cursors, reset, sends))
            else if sends == 0 then whole == (cursors - {k}, sent, false)
            else AfterPrefix(whole, sent + [SubscribeFrame(channels[i], None)],
                Resync(channels[i + 1..], cursors - {k}, reset, sends - 1))
  {
    assert channels[i..][1..] == channels[i + 1..];
    assert sent + [] == sent;
  }

  class Task {
    const hasCredentials: bool
    var channels: seq<Channel>
    var cursors: map<Key, nat>
    var outlet: Outlet
    /** Written on the current connection, and how many more writes it accepts. */
    var wire: seq<Outbound>
    var sends: nat
    var clock: real

    constructor (hasCredentials: bool, channels: seq<Channel>, capacity: nat)
      ensures this.hasCredentials == hasCredentials && State() == Client(channels, map[])
      ensures outlet == Delivery.Opened(capacity) && clock == 0.0
    {
      this.hasCredentials := hasCredentials;
      this.channels, cursors, wire, sends, clock := channels, map[], [], 0, 0.0;
      outlet := Delivery.Opened(capacity);
    }

    function State(): Client reads this { Client(channels, cursors) }

    function Now(): Stream reads this { Stream(State(), outlet) }

    method Write(m: Outbound) returns (ok: bool)
      modifies this`wire, this`sends
      ensures ok <==> old(sends) > 0
      ensures wire == old(wire) + (if ok then [m] else []) && sends == old(sends) - (if ok then 1 else 0)
    {
      ok := sends > 0;
      if ok {
        wire, sends := wire + [m], sends - 1;
      } else {
        assert wire == wire + [];
      }
    }

    method Deliver(body: ServerMessage, pause: seq<Delivery.ConsumerAct>) returns (exit: Option<LoopExit>)
      modifies this`outlet
      ensures outlet == Delivery.Deliver(old(outlet), body, pause)
      ensures exit == if Delivery.Gone(old(outlet), pause) then Some(ConsumerGone) else None
    {
      var gone;
      outlet, gone := Delivery.TryDeliver(outlet, body, pause);
      exit := if gone then Some(ConsumerGone) else None;
    }

    method Emit() returns (alive: bool)
      modifies this`outlet
      ensures outlet == Delivery.Emit(old(outlet)) && alive == old(outlet).open
    {
      alive := outlet.open;
      if outlet.open && !Delivery.Full(outlet) {
        outlet := Delivery.Enqueue(outlet, Delivery.Failure);
      }
    }

    /** `message` is what the payload parses to, if it does. */
    method Decode(message: Option<ServerMessage>, pause: seq<Delivery.ConsumerAct>)
      returns (exit: Option<LoopExit>, reset: Option<Key>)
      modifies this`cursors, this`outlet
      ensures message.None? ==> cursors == old(cursors) && outlet == old(outlet) && exit.None? && reset.None?
      ensures message.Some? ==>
                && cursors == Advance(old(cursors), message.value)
                && outlet == Delivery.Deliver(old(outlet), message.value, pause)
                && exit == (if Delivery.Gone(old(outlet), pause) then Some(ConsumerGone) else None)
                && reset == CursorReset(message.value)
    {
      if message.None? {
        return None, None;
      }
      var m := message.value;
      var advance := CursorAdvance(m);
      if advance.Some? {
        var (key, n) := advance.value;
        if key !in cursors || cursors[key] < n {
          cursors := cursors[key := n];
        }
      }
      reset := CursorReset(m);
      exit := Deliver(m, pause);
    }

    /** Subscribe again, from the live edge, every held stream a reset covers. */
    method Resubscribe(reset: Key) returns (ok: bool)
      modifies this`cursors, this`wire, this`sends
      ensures var (cs, sent, done) := Resync(channels, old(cursors), reset, old(sends));
              cursors == cs && wire == old(wire) + sent && sends == old(sends) - |sent| && ok == done
    {
      var i := 0;
      ghost var sent: seq<Outbound> := [];
      ghost var whole := Resync(channels, cursors, reset, sends);
      assert channels[0..] == channels;
      while i < |channels|
        invariant 0 <= i <= |channels|
        invariant wire == old(wire) + sent && sends == old(sends) - |sent|
        invariant AfterPrefix(whole, sent, Resync(channels[i..], cursors, reset, sends))
      {
        var c := channels[i];
        ResyncUnfolds(whole, sent, channels, i, cursors, reset, sends);
        if Covers(reset, CursorKey(c)) {
          cursors := cursors - {CursorKey(c)};
          var written := Write(SubscribeFrame(c, None));
          if !written {
            return false;
          }
          sent := sent + [SubscribeFrame(c, None)];
        }
        i := i + 1;
      }
      return true;
    }

    method HandleFrame(f: Frame, pause: seq<Delivery.ConsumerAct>) returns (exit: Option<LoopExit>)
      modifies this`cursors, this`outlet, this`wire, this`sends
      ensures var gone := FrameFindsConsumerGone(old(outlet), f, pause);
              var r := TypedClient.HandleFrame(old(State()), f, old(sends), gone);
              State() == r.client && wire == old(wire) + r.sent && sends == old(sends) - |r.sent| && exit == r.exit
      ensures outlet == OutletAfterFrame(old(outlet), f, pause)
    {
      match f {
        case Data(message) =>
          var reset;
          exit, reset := Decode(message, pause);
          assert wire == wire + [];
          if exit.None? && reset.Some? {
            var ok := Resubscribe(reset.value);
            if !ok {
              exit := Some(Reconnect);
            }
          }
        case Ping =>
          var ok := Write(Pong);
          exit := if ok then None else Some(Reconnect);
        case Closing => exit := Some(Reconnect); assert wire == wire + [];
        case Other => exit := None; assert wire == wire + [];
      }
    }

    method OnCommand(cmd: Command, authed: bool) returns (exit: Option<LoopExit>)
      modifies this`channels, this`cursors, this`wire, this`sends
      ensures var r := TypedClient.OnCommand(old(State()), cmd, authed, old(sends));
              State() == r.client && wire == old(wire) + r.sent && sends == old(sends) - |r.sent| && exit == r.exit
    {
      exit := None;
      assert wire == wire + [];
      match cmd {
        case Add(c) =>
          var key := CursorKey(c);
          if exists i :: 0 <= i < |channels| && CursorKey(channels[i]) == key {
            return;
          }
          if IsPrivate(c) && !authed {
            channels := channels + [c];
            return Some(Reconnect);
          }
          var ok := Write(SubscribeFrame(c, Lookup(cursors, key)));
          channels := channels + [c];
          if !ok {
            exit := Some(Reconnect);
          }
        case Remove(c) =>
          channels := Retain(channels, CursorKey(c));
          cursors := cursors - {CursorKey(c)};
          var ok := Write(UnsubscribeFrame(c));
        case Close =>
          var ok := Write(CloseFrame);
          exit := Some(Closed);
      }
    }

    /** Open a connection: replay every subscribe, as far as writes go. */
    method Replay(acceptedWrites: nat) returns (ok: bool)
      modifies this`outlet, this`wire, this`sends
      ensures var sv := Opening(State(), old(outlet), acceptedWrites);
              outlet == sv.outlet && wire == sv.sent && sends == sv.sends && (ok <==> sv.exit.None?)
    {
      outlet := Delivery.BeginConnection(outlet);
      wire, sends := [], acceptedWrites;
      var i := 0;
      while i < |channels|
        invariant 0 <= i <= |channels| && i <= acceptedWrites
        invariant outlet == Delivery.BeginConnection(old(outlet))
        invariant wire == Replays(channels[..i], cursors) && sends == acceptedWrites - i
      {
        var since := Lookup(cursors, CursorKey(channels[i]));
        assert channels[..i + 1][..i] == channels[..i];
        ok := Write(SubscribeFrame(channels[i], since));
        if !ok {
          assert wire == Replays(channels[..i], cursors) + [];
          return;
        }
        i := i + 1;
      }
      ok := true;
    }

    /** What the loop does with the branch that is ready. */
    method React(authed: bool, input: Input, ghost consumed: seq<Command>)
      returns (stopped: Option<LoopExit>, took: seq<Command>)
      modifies this`channels, this`cursors, this`outlet, this`wire, this`sends
      ensures Proceed(Serving(old(State()), old(outlet), old(wire), old(sends), consumed, None), authed, input)
           == Serving(State(), outlet, wire, sends, consumed + took, stopped)
    {
      assert consumed + [] == consumed;
      stopped, took := None, [];
      match input {
        case FromServer(f, pause) => stopped := HandleFrame(f, pause);
        case ReadFailed => stopped := Some(Reconnect);
        case FromHandle(cmd) =>
          took := [cmd];
          stopped := OnCommand(cmd, authed);
        case HandleDropped => stopped := Some(ConsumerGone);
        case FromConsumer(act) => outlet := Delivery.Consume(outlet, act);
      }
    }

    /** Serve one connection. Running out of inputs is the stream ending. */
    method Serve(authed: bool, acceptedWrites: nat, inputs: seq<Input>)
      returns (exit: LoopExit, consumed: seq<Command>)
      modifies this`channels, this`cursors, this`outlet, this`wire, this`sends
      ensures var sv := Served(old(Now()), authed, acceptedWrites, inputs);
              && Now() == Stream(sv.client, sv.outlet) && wire == sv.sent && sends == sv.sends
              && consumed == sv.consumed && exit == ExitOf(sv)
    {
      ghost var opening := Opening(State(), outlet, acceptedWrites);
      var ok := Replay(acceptedWrites);
      consumed := [];
      assert ProceedAll(opening, authed, inputs[..0]) == opening;
      if !ok {
        ExitIsFinal(opening, authed, inputs, 0);
        return Reconnect, [];
      }
      var i := 0;
      while i < |inputs|
        invariant 0 <= i <= |inputs|
        invariant ProceedAll(opening, authed, inputs[..i]) == Serving(State(), outlet, wire, sends, consumed, None)
      {
        assert inputs[..i + 1][..i] == inputs[..i];
        var stopped, took := React(authed, inputs[i], consumed);
        consumed := consumed + took;
        if stopped.Some? {
          ExitIsFinal(opening, authed, inputs, i + 1);
          return stopped.value, consumed;
        }
        i := i + 1;
      }
      assert inputs[..i] == inputs;
      return Reconnect, consumed;
    }

    /** A command with no connection to send it on. */
    method Queue(cmd: Command)
      modifies this`channels, this`cursors
      ensures Now() == Queued(old(Now()), cmd)
    {
      match cmd {
        case Add(c) =>
          if !exists i :: 0 <= i < |channels| && CursorKey(channels[i]) == CursorKey(c) {
            channels := channels + [c];
          }
        case Remove(c) =>
          channels := Retain(channels, CursorKey(c));
          cursors := cursors - {CursorKey(c)};
        case Close =>
      }
    }

    /** Wait out one delay. Commands are applied but never shorten it. */
    method BackoffWait(delays: BackoffIter, arrivals: seq<Arrival<Command>>, lateness: real)
      returns (stopped: bool, delay: real, consumed: seq<Command>)
      requires Follows(delays.rhythm, delays.policy)
      modifies this`channels, this`cursors, this`clock, delays, delays.rng
      ensures delay == delays.rhythm.delay(old(delays.State()))
      ensures delays.State() == delays.rhythm.next(old(delays.State()))
      ensures Waited(Now(), clock, consumed, stopped)
           == WaitUntil(Queued, IsClose, old(Now()), old(clock), old(clock) + delay + lateness, arrivals)
    {
      delay := delays.NextDelay();
      stopped, consumed := Wait(clock + delay + lateness, arrivals);
    }

    /** Take what arrives until `end`. */
    method Wait(end: real, arrivals: seq<Arrival<Command>>) returns (stopped: bool, consumed: seq<Command>)
      modifies this`channels, this`cursors, this`clock
      ensures Waited(Now(), clock, consumed, stopped)
           == WaitUntil(Queued, IsClose, old(Now()), old(clock), end, arrivals)
    {
      ghost var whole := WaitUntil(Queued, IsClose, Now(), clock, end, arrivals);
      consumed := [];
      var i := 0;
      NothingTaken(Queued, IsClose, Now(), clock, end, arrivals);
      while i < |arrivals| && arrivals[i].at <= end
        invariant 0 <= i <= |arrivals|
        invariant AfterTaking(whole, consumed, WaitUntil(Queued, IsClose, Now(), clock, end, arrivals[i..]))
      {
        OneMoreArrival(Queued, IsClose, whole, consumed, Now(), clock, end, arrivals, i);
        clock := Max(clock, arrivals[i].at);
        var command := arrivals[i].command;
        if command.None? {
          return true, consumed;
        }
        consumed := consumed + [command.value];
        if command.value.Close? {
          return true, consumed;
        }
        Queue(command.value);
        i := i + 1;
      }
      NoMoreArrivals(Queued, IsClose, whole, consumed, Now(), clock, end, arrivals, i);
      clock := end;
      return false, consumed;
    }

    /** One attempt: mint, connect, serve. `stop` ends the task. */
    method Try(authed: bool, a: Attempt) returns (stop: bool, fed: bool, consumed: seq<Command>)
      modifies this`channels, this`cursors, this`outlet, this`wire, this`sends
      ensures Tried(Now(), consumed, fed, stop) == AttemptMade(old(Now()), authed, a)
    {
      stop, fed, consumed := false, false, [];
      if authed && !a.mints {
        var alive := Emit();
        return !alive, false, [];
      }
      match a.upgrade {
        case Failed(refused) =>
          if refused && !authed {
            var alive := Emit();
            stop := true;
          }
        case Open(acceptedWrites, inputs) =>
          var exit;
          exit, consumed := Serve(authed, acceptedWrites, inputs);
          fed := outlet.delivered;
          stop := exit != Reconnect;
      }
    }

    /** The task now, given what its loop has recorded and taken so far. */
    function LifeNow(delays: BackoffIter, pacing: Pacing, consumed: seq<Command>, stopped: bool): Life<Stream, Command>
      reads this, delays, delays.rng
    {
      Life(Now(), Clock(clock, delays.State(), pacing), consumed, stopped)
    }

    /** One turn of the loop: an attempt and, unless it ends the task, one delay. */
    method Turn(delays: BackoffIter, past: Pacing, before: seq<Command>, a: Attempt)
      returns (stop: bool, pacing: Pacing, consumed: seq<Command>)
      requires Follows(delays.rhythm, delays.policy)
      modifies this, delays, delays.rng
      ensures LifeNow(delays, pacing, consumed, stop)
           == Turned(delays.rhythm, TypedLoop(hasCredentials), old(LifeNow(delays, past, before, false)), a)
    {
      var authed := hasCredentials || exists c :: c in channels && IsPrivate(c);
      var start := clock;
      var fed;
      assert authed == Authed(hasCredentials, channels);
      stop, fed, consumed := Try(authed, a);
      assert Tried(Now(), consumed, fed, stop) == TypedLoop(hasCredentials).attempt(old(Now()), a);
      stop, pacing, consumed := Settle(delays, past, start, before, fed, stop, consumed, a);
    }

    /** What follows an attempt. */
    method Settle(delays: BackoffIter, past: Pacing, start: real, before: seq<Command>,
                  fed: bool, stops: bool, took: seq<Command>, a: Attempt)
      returns (stop: bool, pacing: Pacing, consumed: seq<Command>)
      requires Follows(delays.rhythm, delays.policy) && start == clock
      modifies this`channels, this`cursors, this`clock, this`outlet, delays, delays.rng
      ensures LifeNow(delays, pacing, consumed, stop)
           == Settled(delays.rhythm, TypedLoop(hasCredentials), Clock(start, old(delays.State()), past), before,
                      Tried(old(Now()), took, fed, stops), a)
    {
      stop, consumed := stops, before + took;
      clock := clock + a.timing.duration;
      pacing := past.(starts := past.starts + [start], fed := past.fed + [fed]);
      if fed {
        delays.Reset();
      }
      if !stop {
        stop, pacing, consumed := Pause(delays, pacing, consumed, a);
      }
    }

    /** The delay after an attempt, while the consumer goes on reading. */
    method Pause(delays: BackoffIter, past: Pacing, before: seq<Command>, a: Attempt)
      returns (stop: bool, pacing: Pacing, consumed: seq<Command>)
      requires Follows(delays.rhythm, delays.policy)
      modifies this`channels, this`cursors, this`clock, this`outlet, delays, delays.rng
      ensures LifeNow(delays, pacing, consumed, stop)
           == Rested(delays.rhythm, TypedLoop(hasCredentials), Clock(old(clock), old(delays.State()), past), before,
                     old(Now()), a)
    {
      var delay, taken;
      stop, delay, taken := BackoffWait(delays, a.timing.arrivals, a.timing.lateness);
      pacing := past.(waits := past.waits + [delay]);
      outlet := Delivery.ConsumeAll(outlet, a.meanwhile);
      consumed := before + taken;
    }

    /** The reconnect loop, over the attempts the environment makes of it. */
    method Run(delays: BackoffIter, attempts: seq<Attempt>)
      returns (stopped: bool, pacing: Pacing, consumed: seq<Command>)
      requires Follows(delays.rhythm, delays.policy)
      modifies this, delays, delays.rng
      ensures LifeNow(delays, pacing, consumed, stopped)
           == Lived(delays.rhythm, TypedLoop(hasCredentials),
                    old(LifeNow(delays, Pacing([], [], []), [], false)), attempts)
    {
      ghost var life, loop := LifeNow(delays, Pacing([], [], []), [], false), TypedLoop(hasCredentials);
      stopped, pacing, consumed := false, Pacing([], [], []), [];
      var i := 0;
      while !stopped && i < |attempts|
        invariant 0 <= i <= |attempts|
        invariant LifeNow(delays, pacing, consumed, stopped) == Lived(delays.rhythm, loop, life, attempts[..i])
        decreases |attempts| - i
      {
        OneMoreTurn(delays.rhythm, loop, life, attempts, i);
        stopped, pacing, consumed := Turn(delays, pacing, consumed, attempts[i]);
        i := i + 1;
      }
      if stopped {
        StopIsFinal(delays.rhythm, loop, life, attempts, i);
      } else {
        assert attempts[..i] == attempts;
      }
    }
  }
}
