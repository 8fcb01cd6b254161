/** What one step of the typed client does to its replay set and cursors, and
    what it writes (`src/ws/typed.rs`). `sends` is how many more writes the
    socket accepts before it fails. */
module TypedClient {
  import opened Common
  import opened Protocol

  datatype Command = Add(channel: Channel) | Remove(channel: Channel) | Close

  datatype LoopExit = Reconnect | Closed | ConsumerGone

  datatype Client = Client(channels: seq<Channel>, cursors: map<Key, nat>)

  datatype Stepped = Stepped(client: Client, sent: seq<Outbound>, exit: Option<LoopExit>)

  predicate Holds(channels: seq<Channel>, k: Key) {
    exists i :: 0 <= i < |channels| && CursorKey(channels[i]) == k
  }

  predicate DistinctKeys(channels: seq<Channel>) {
    forall i, j :: 0 <= i < j < |channels| ==> CursorKey(channels[i]) != CursorKey(channels[j])
  }

  function Lookup(cursors: map<Key, nat>, k: Key): Option<nat> {
    if k in cursors then Some(cursors[k]) else None
  }

  /** Drop every channel with key `k`, keeping the order of the rest. */
  function Retain(channels: seq<Channel>, k: Key): seq<Channel> {
    if channels == [] then []
    else
      var front := Retain(channels[..|channels| - 1], k);
      var last := channels[|channels| - 1];
      if CursorKey(last) == k then front else front + [last]
  }

  // ----- the subscribe replay at the start of a connection ----------------------

  function Replays(channels: seq<Channel>, cursors: map<Key, nat>): seq<Outbound> {
    if channels == [] then []
    else
      var last := channels[|channels| - 1];
      Replays(channels[..|channels| - 1], cursors) + [SubscribeFrame(last, Lookup(cursors, CursorKey(last)))]
  }

  // ----- one inbound frame --------------------------------------------------------

  /** Fold a frame's cursor forward; a lower seq never rewinds it. */
  function Advance(cursors: map<Key, nat>, m: ServerMessage): map<Key, nat> {
    match CursorAdvance(m)
    case None => cursors
    case Some((k, n)) => cursors[k := if k in cursors then MaxNat(cursors[k], n) else n]
  }

  /** Drop the cursor of, and subscribe again, each channel the reset covers, in
      replay order, until a write fails. */
  function Resync(channels: seq<Channel>, cursors: map<Key, nat>, reset: Key, sends: nat)
    : (map<Key, nat>, seq<Outbound>, bool)
  {
    if channels == [] then (cursors, [], true)
    else
      var c := channels[0];
      if !Covers(reset, CursorKey(c)) then Resync(channels[1..], cursors, reset, sends)
      else if sends == 0 then (cursors - {CursorKey(c)}, [], false)
      else
        var (cs, sent, ok) := Resync(channels[1..], cursors - {CursorKey(c)}, reset, sends - 1);
        (cs, [SubscribeFrame(c, None)] + sent, ok)
  }

  /** `gone` says the delivery found the consumer gone. */
  function HandleMessage(cl: Client, m: ServerMessage, sends: nat, gone: bool): Stepped {
    var folded := Advance(cl.cursors, m);
    if gone then Stepped(cl.(cursors := folded), [], Some(ConsumerGone))
    else
      match CursorReset(m)
      case None => Stepped(cl.(cursors := folded), [], None)
      case Some(reset) =>
        var (cs, sent, ok) := Resync(cl.channels, folded, reset, sends);
        Stepped(cl.(cursors := cs), sent, if ok then None else Some(Reconnect))
  }

  function HandleFrame(cl: Client, f: Frame, sends: nat, gone: bool): Stepped {
    match f
    case Data(None) => Stepped(cl, [], None)
    case Data(Some(m)) => HandleMessage(cl, m, sends, gone)
    case Ping => if sends == 0 then Stepped(cl, [], Some(Reconnect)) else Stepped(cl, [Pong], None)
    case Closing => Stepped(cl, [], Some(Reconnect))
    case Other => Stepped(cl, [], None)
  }

  lemma FramesKeepChannels(cl: Client, f: Frame, sends: nat, gone: bool)
    ensures HandleFrame(cl, f, sends, gone).client.channels == cl.channels
  {
  }

  // ----- one command ---------------------------------------------------------------

  /** What a command does to the replay set and cursors, connected or not. */
  function Apply(cl: Client, cmd: Command): Client {
    match cmd
    case Add(c) => if Holds(cl.channels, CursorKey(c)) then cl else cl.(channels := cl.channels + [c])
    case Remove(c) => Client(Retain(cl.channels, CursorKey(c)), cl.cursors - {CursorKey(c)})
    case Close => cl
  }

  function ApplyAll(cl: Client, cmds: seq<Command>): Client {
    if cmds == [] then cl else Apply(ApplyAll(cl, cmds[..|cmds| - 1]), cmds[|cmds| - 1])
  }

  /** A command on a live connection opened with (`authed`) or without a token. */
  function OnCommand(cl: Client, cmd: Command, authed: bool, sends: nat): Stepped {
    match cmd
    case Add(c) =>
      if Holds(cl.channels, CursorKey(c)) then Stepped(cl, [], None)
      else if IsPrivate(c) && !authed then Stepped(Apply(cl, cmd), [], Some(Reconnect))
      else if sends == 0 then Stepped(Apply(cl, cmd), [], Some(Reconnect))
      else Stepped(Apply(cl, cmd), [SubscribeFrame(c, Lookup(cl.cursors, CursorKey(c)))], None)
    case Remove(c) => Stepped(Apply(cl, cmd), if sends == 0 then [] else [UnsubscribeFrame(c)], None)
    case Close => Stepped(cl, if sends == 0 then [] else [CloseFrame], Some(Closed))
  }

  lemma ConnectedCommandsApply(cl: Client, cmd: Command, authed: bool, sends: nat)
    ensures OnCommand(cl, cmd, authed, sends).client == Apply(cl, cmd)
  {
  }

  // ----- the replay set as a function of command history --------------------------

  predicate Adds(cmds: seq<Command>, i: int, k: Key) {
    0 <= i < |cmds| && cmds[i].Add? && CursorKey(cmds[i].channel) == k
  }

  predicate Removes(cmds: seq<Command>, i: int, k: Key) {
    0 <= i < |cmds| && cmds[i].Remove? && CursorKey(cmds[i].channel) == k
  }

  /** The add at `i` is the one in force: nothing removes its key later, and
      every earlier add of the key was removed before `i`. */
  predicate InForce(cmds: seq<Command>, i: nat)
  {
    && i < |cmds| && cmds[i].Add?
    && (forall u :: i < u < |cmds| ==> !Removes(cmds, u, CursorKey(cmds[i].channel)))
    && (forall j :: 0 <= j < i && Adds(cmds, j, CursorKey(cmds[i].channel)) ==>
                      exists u :: j < u < i && Removes(cmds, u, CursorKey(cmds[i].channel)))
  }

  /** The channels of the adds in force among the first `n`, in order. */
  function InForceUpTo(cmds: seq<Command>, n: nat): seq<Channel>
    requires n <= |cmds|
  {
    if n == 0 then []
    else if InForce(cmds, n - 1) then InForceUpTo(cmds, n - 1) + [cmds[n - 1].channel]
    else InForceUpTo(cmds, n - 1)
  }

  lemma {:induction false} RetainHolds(channels: seq<Channel>, k: Key, h: Key)
    ensures Holds(Retain(channels, k), h) <==> h != k && Holds(channels, h)
  {
    if channels != [] {
      var n := |channels| - 1;
      RetainHolds(channels[..n], k, h);
      HoldsSnoc(channels[..n], channels[n]);
      HoldsSnoc(Retain(channels[..n], k), channels[n]);
      assert channels == channels[..n] + [channels[n]];
    }
  }

  lemma {:induction false} RetainKeepsKeysDistinct(channels: seq<Channel>, k: Key)
    requires DistinctKeys(channels)
    ensures DistinctKeys(Retain(channels, k))
  {
    if channels != [] {
      var front, last := channels[..|channels| - 1], channels[|channels| - 1];
      assert channels == front + [last];
      DistinctSnoc(front, last);
      RetainKeepsKeysDistinct(front, k);
      RetainHolds(front, k, CursorKey(last));
      DistinctSnoc(Retain(front, k), last);
    }
  }

  lemma RetainFacts(channels: seq<Channel>, k: Key)
    ensures var r := Retain(channels, k);
            && (forall h :: Holds(r, h) <==> h != k && Holds(channels, h))
            && (DistinctKeys(channels) ==> DistinctKeys(r))
  {
    forall h ensures Holds(Retain(channels, k), h) <==> h != k && Holds(channels, h) {
      RetainHolds(channels, k, h);
    }
    if DistinctKeys(channels) {
      RetainKeepsKeysDistinct(channels, k);
    }
  }

  lemma DistinctSnoc(channels: seq<Channel>, c: Channel)
    ensures DistinctKeys(channels + [c]) <==> DistinctKeys(channels) && !Holds(channels, CursorKey(c))
  {
    var all, n := channels + [c], |channels|;
    if DistinctKeys(all) {
      forall i, j | 0 <= i < j < n ensures CursorKey(channels[i]) != CursorKey(channels[j]) {
        assert CursorKey(all[i]) != CursorKey(all[j]);
      }
      forall i | 0 <= i < n ensures CursorKey(channels[i]) != CursorKey(c) {
        assert CursorKey(all[i]) != CursorKey(all[n]);
      }
    } else {
      var i, j :| 0 <= i < j < |all| && CursorKey(all[i]) == CursorKey(all[j]);
      assert CursorKey(channels[i]) == CursorKey(if j < n then channels[j] else c);
    }
  }

  lemma HoldsSnoc(channels: seq<Channel>, c: Channel)
    ensures forall h :: Holds(channels + [c], h) <==> Holds(channels, h) || CursorKey(c) == h
  {
    var all := channels + [c];
    forall h ensures Holds(all, h) <==> Holds(channels, h) || CursorKey(c) == h {
      if Holds(channels, h) {
        var i :| 0 <= i < |channels| && CursorKey(channels[i]) == h;
        assert CursorKey(all[i]) == h;
      }
      if CursorKey(c) == h {
        assert CursorKey(all[|channels|]) == h;
      }
    }
  }

  lemma ApplyKeepsKeysDistinct(cl: Client, cmd: Command)
    requires DistinctKeys(cl.channels)
    ensures DistinctKeys(Apply(cl, cmd).channels)
  {
    match cmd {
      case Add(c) => HoldsSnoc(cl.channels, c);
      case Remove(c) => RetainFacts(cl.channels, CursorKey(c));
      case Close =>
    }
  }

  // ----- history determines the replay set -----------------------------------------

  /** Some add of `k` was never removed. */
  ghost predicate Open(cmds: seq<Command>, k: Key, j: nat) {
    Adds(cmds, j, k) && forall u :: j < u < |cmds| ==> !Removes(cmds, u, k)
  }

  lemma {:induction false} OpenHasAnAddInForce(cmds: seq<Command>, k: Key, j: nat) returns (i: nat)
    requires Open(cmds, k, j)
    ensures i <= j && Adds(cmds, i, k) && InForce(cmds, i)
    decreases j
  {
    if InForce(cmds, j) {
      i := j;
    } else {
      var earlier :| 0 <= earlier < j && Adds(cmds, earlier, k)
                     && !exists u :: earlier < u < j && Removes(cmds, u, k);
      forall u | earlier < u < |cmds| ensures !Removes(cmds, u, k) {}
      i := OpenHasAnAddInForce(cmds, k, earlier);
    }
  }

  lemma {:induction false} InForceHolds(cmds: seq<Command>, n: nat, k: Key)
    requires n <= |cmds|
    ensures Holds(InForceUpTo(cmds, n), k) <==> exists i :: 0 <= i < n && Adds(cmds, i, k) && InForce(cmds, i)
  {
    if n > 0 {
      InForceHolds(cmds, n - 1, k);
      if InForce(cmds, n - 1) {
        HoldsSnoc(InForceUpTo(cmds, n - 1), cmds[n - 1].channel);
        assert Adds(cmds, n - 1, k) <==> CursorKey(cmds[n - 1].channel) == k;
      }
    }
  }

  /** Adding a command at the end: an add or a close leaves earlier adds in
      force, a remove retires those of its key. */
  lemma {:induction false} InForceSnoc(pre: seq<Command>, cmd: Command, n: nat)
    requires n <= |pre|
    ensures var all := pre + [cmd];
            InForceUpTo(all, n) ==
            if cmd.Remove? then Retain(InForceUpTo(pre, n), CursorKey(cmd.channel)) else InForceUpTo(pre, n)
  {
    if n > 0 {
      var all := pre + [cmd];
      InForceSnoc(pre, cmd, n - 1);
      InForceAtSnoc(pre, cmd, n - 1);
      if cmd.Remove? && InForce(pre, n - 1) {
        var front := InForceUpTo(pre, n - 1);
        assert (front + [pre[n - 1].channel])[..|front|] == front;
      }
    }
  }

  lemma InForceAtSnoc(pre: seq<Command>, cmd: Command, i: nat)
    requires i < |pre|
    ensures InForce(pre + [cmd], i) <==>
            InForce(pre, i) && !(cmd.Remove? && CursorKey(cmd.channel) == CursorKey(pre[i].channel))
  {
    var all := pre + [cmd];
    if pre[i].Add? {
      var k := CursorKey(pre[i].channel);
      assert forall u :: 0 <= u < |pre| ==>
          (Removes(all, u, k) <==> Removes(pre, u, k)) && (Adds(all, u, k) <==> Adds(pre, u, k));
      assert Removes(all, |pre|, k) <==> cmd.Remove? && CursorKey(cmd.channel) == k;
      if InForce(all, i) {
        forall j | 0 <= j < i && Adds(pre, j, k) ensures exists u :: j < u < i && Removes(pre, u, k) {
          assert Adds(all, j, k);
          var u :| j < u < i && Removes(all, u, k);
          assert Removes(pre, u, k);
        }
      }
      if InForce(pre, i) {
        forall j | 0 <= j < i && Adds(all, j, k) ensures exists u :: j < u < i && Removes(all, u, k) {
          assert Adds(pre, j, k);
          var u :| j < u < i && Removes(pre, u, k);
          assert Removes(all, u, k);
        }
      }
    }
  }

  /** The replay set is exactly the channels of the adds in force, in the order
      they were added, whatever connections came and went meanwhile. */
  lemma {:induction false} ReplaySetIsCommandHistory(cursors: map<Key, nat>, cmds: seq<Command>)
    ensures ApplyAll(Client([], cursors), cmds).channels == InForceUpTo(cmds, |cmds|)
  {
    if cmds != [] {
      var n := |cmds| - 1;
      var pre, cmd := cmds[..n], cmds[n];
      ReplaySetIsCommandHistory(cursors, pre);
      assert cmds == pre + [cmd];
      InForceSnoc(pre, cmd, n);
      if cmd.Add? {
        AddInForceIffNotHeld(pre, cmd);
      }
    }
  }

  lemma AddInForceIffNotHeld(pre: seq<Command>, cmd: Command)
    requires cmd.Add?
    ensures InForce(pre + [cmd], |pre|) <==> !Holds(InForceUpTo(pre, |pre|), CursorKey(cmd.channel))
  {
    var n, k := |pre|, CursorKey(cmd.channel);
    var all := pre + [cmd];
    assert forall u :: 0 <= u < n ==>
        (Removes(all, u, k) <==> Removes(pre, u, k)) && (Adds(all, u, k) <==> Adds(pre, u, k));
    InForceHolds(pre, n, k);
    if !InForce(all, n) {
      var j :| 0 <= j < n && Adds(all, j, k) && !exists u :: j < u < n && Removes(all, u, k);
      assert Adds(pre, j, k);
      forall u | j < u < |pre| ensures !Removes(pre, u, k) {
        assert !Removes(all, u, k);
      }
      var i := OpenHasAnAddInForce(pre, k, j);
    }
    if Holds(InForceUpTo(pre, n), k) {
      var i :| 0 <= i < n && Adds(pre, i, k) && InForce(pre, i);
      assert Adds(all, i, k);
      forall u | i < u < n ensures !Removes(all, u, k) {
        assert !Removes(pre, u, k);
      }
    }
  }

  /** The list a stream is opened with counts as adds, when its keys are distinct. */
  function AsAdds(channels: seq<Channel>): seq<Command> {
    seq(|channels|, i requires 0 <= i < |channels| => Add(channels[i]))
  }

  lemma {:induction false} OpeningListCountsAsAdds(channels: seq<Channel>, cursors: map<Key, nat>)
    requires DistinctKeys(channels)
    ensures ApplyAll(Client([], cursors), AsAdds(channels)) == Client(channels, cursors)
  {
    if channels != [] {
      var n := |channels| - 1;
      var front, last := channels[..n], channels[n];
      OpeningListCountsAsAdds(front, cursors);
      assert AsAdds(channels)[..n] == AsAdds(front);
      assert channels == front + [last];
    }
  }

  lemma {:induction false} ApplyAllAppend(cl: Client, a: seq<Command>, b: seq<Command>)
    ensures ApplyAll(cl, a + b) == ApplyAll(ApplyAll(cl, a), b)
  {
    if b == [] {
      assert a + b == a;
    } else {
      var n := |b| - 1;
      ApplyAllAppend(cl, a, b[..n]);
      assert (a + b)[..|a + b| - 1] == a + b[..n];
    }
  }

  /** From the opening list on, and distinct keys stay distinct. */
  lemma ReplaySetFromOpening(channels: seq<Channel>, cursors: map<Key, nat>, cmds: seq<Command>)
    requires DistinctKeys(channels)
    ensures var history := AsAdds(channels) + cmds;
            var now := ApplyAll(Client(channels, cursors), cmds).channels;
            now == InForceUpTo(history, |history|) && DistinctKeys(now)
  {
    OpeningListCountsAsAdds(channels, cursors);
    ApplyAllAppend(Client([], cursors), AsAdds(channels), cmds);
    ReplaySetIsCommandHistory(cursors, AsAdds(channels) + cmds);
    ApplyAllKeepsKeysDistinct(Client(channels, cursors), cmds);
  }

  lemma {:induction false} ApplyAllKeepsKeysDistinct(cl: Client, cmds: seq<Command>)
    requires DistinctKeys(cl.channels)
    ensures DistinctKeys(ApplyAll(cl, cmds).channels)
  {
    if cmds != [] {
      var n := |cmds| - 1;
      ApplyAllKeepsKeysDistinct(cl, cmds[..n]);
      ApplyKeepsKeysDistinct(ApplyAll(cl, cmds[..n]), cmds[n]);
    }
  }
}
