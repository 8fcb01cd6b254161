/** The raw websocket task behind `connect` and `connect_ws` (`src/ws.rs`): the
    reconnect loop with single-use tokens, the subscription list it replays, and
    the reasons it reports. Frames are their text; the queue, the delays and the
    shape of the loop are those of `Delivery`, `Backoff` and `Reconnect`. */
module AccountSocket {
  import opened Common
  import opened Backoff
  import opened Reconnect
  import Delivery
  import Redaction

  type Box = Delivery.Outlet<string>

  datatype Request = Subscribe(text: string) | Close

  datatype Written = Asking(text: string) | Pong | Goodbye

  datatype Inbound = Payload(json: Option<string>) | Ping | Closing(reason: string) | Other

  datatype Ready =
    | FromServer(frame: Inbound, pause: seq<Delivery.ConsumerAct>)
    | ReadFailed(reason: string)
    | FromHandle(request: Request)
    | HandleDropped
    | FromConsumer(act: Delivery.ConsumerAct)

  datatype Exit = Lost(reason: string) | Closed | Abandoned

  datatype Notice = Up | Down(reason: string) | Rejected

  // ----- one connection, as a fold over its inputs -------------------------------------

  /** `sends` more writes succeed; the one after them fails for the reason `fault`. */
  datatype Live = Live(
    subscriptions: seq<string>, outlet: Box, wire: seq<Written>, sends: nat, fault: string,
    consumed: seq<Request>, exit: Option<Exit>)

  function Asks(texts: seq<string>): seq<Written> {
    seq(|texts|, i requires 0 <= i < |texts| => Asking(texts[i]))
  }

  /** A connection opens by asking for every known subscription, as far as writes go. */
  function Opening(subscriptions: seq<string>, outlet: Box, sends: nat, fault: string): Live {
    var n := if sends < |subscriptions| then sends else |subscriptions|;
    Live(subscriptions, Delivery.BeginConnection(outlet), Asks(subscriptions[..n]), sends - n, fault, [],
         if n < |subscriptions| then Some(Lost(fault)) else None)
  }

  /** The connection after an attempt to write. */
  function Sent(l: Live, w: Written): Live {
    if l.sends > 0 then l.(wire := l.wire + [w], sends := l.sends - 1) else l.(exit := Some(Lost(l.fault)))
  }

  function Framed(l: Live, frame: Inbound, pause: seq<Delivery.ConsumerAct>): Live {
    match frame
    case Payload(None) => l
    case Payload(Some(json)) =>
      l.(outlet := Delivery.Deliver(l.outlet, json, pause),
         exit := if Delivery.Gone(l.outlet, pause) then Some(Abandoned) else None)
    case Ping => Sent(l, Pong)
    case Closing(reason) => l.(exit := Some(Lost(reason)))
    case Other => l
  }

  function Obeyed(l: Live, request: Request): Live {
    var heard := l.(consumed := l.consumed + [request]);
    match request
    case Subscribe(text) => Sent(heard.(subscriptions := l.subscriptions + [text]), Asking(text))
    case Close => Sent(heard, Goodbye).(exit := Some(Closed))
  }

  function Proceed(l: Live, input: Ready): Live {
    if l.exit.Some? then l
    else
      match input
      case FromServer(frame, pause) => Framed(l, frame, pause)
      case ReadFailed(reason) => l.(exit := Some(Lost(reason)))
      case FromHandle(request) => Obeyed(l, request)
      case HandleDropped => l.(exit := Some(Abandoned))
      case FromConsumer(act) => l.(outlet := Delivery.Consume(l.outlet, act))
  }

  function ProceedAll(l: Live, inputs: seq<Ready>): Live {
    if inputs == [] then l else Proceed(ProceedAll(l, inputs[..|inputs| - 1]), inputs[|inputs| - 1])
  }

  /** Running out of inputs is the stream ending. */
  function ExitOf(l: Live): Exit { if l.exit.Some? then l.exit.value else Lost("stream ended") }

  lemma ExitIsFinal(l: Live, inputs: seq<Ready>, n: nat)
    requires n <= |inputs| && ProceedAll(l, inputs[..n]).exit.Some?
    ensures ProceedAll(l, inputs) == ProceedAll(l, inputs[..n])
    decreases |inputs| - n
  {
    if n == |inputs| {
      assert inputs[..n] == inputs;
    } else {
      assert inputs[..n + 1][..n] == inputs[..n];
      ExitIsFinal(l, inputs, n + 1);
    }
  }

  /** The frames asked for by a list of commands, in order. */
  function Texts(requests: seq<Request>): seq<string> {
    if requests == [] then []
    else
      var front, last := Texts(requests[..|requests| - 1]), requests[|requests| - 1];
      if last.Subscribe? then front + [last.text] else front
  }

  lemma {:induction false} TextsAppend(a: seq<Request>, b: seq<Request>)
    ensures Texts(a + b) == Texts(a) + Texts(b)
  {
    if b == [] {
      assert a + b == a;
    } else {
      var n := |b| - 1;
      TextsAppend(a, b[..n]);
      assert (a + b)[..|a + b| - 1] == a + b[..n];
    }
  }

  /** The subscriptions written on a connection, in order. */
  function Asked(wire: seq<Written>): seq<string> {
    if wire == [] then []
    else
      var front, last := Asked(wire[..|wire| - 1]), wire[|wire| - 1];
      if last.Asking? then front + [last.text] else front
  }

  lemma AskedSnoc(wire: seq<Written>, w: Written)
    ensures Asked(wire + [w]) == if w.Asking? then Asked(wire) + [w.text] else Asked(wire)
  {
    assert (wire + [w])[..|wire|] == wire;
  }

  lemma {:induction false} AsksAreAsked(texts: seq<string>)
    ensures Asked(Asks(texts)) == texts
  {
    if texts != [] {
      var n := |texts| - 1;
      AsksAreAsked(texts[..n]);
      assert Asks(texts)[..n] == Asks(texts[..n]);
    }
  }

  /** The list has grown by what the commands asked for, and the connection has
      asked for all of it, in order, or for a prefix once a write has failed. */
  ghost predicate Served(first: seq<string>, before: Box, l: Live) {
    && l.subscriptions == first + Texts(l.consumed) && AsksAll(l)
    && Delivery.Sound(l.outlet) && l.outlet.start == |Delivery.History(before)|
  }

  predicate AsksAll(l: Live) {
    Asked(l.wire) <= l.subscriptions && (l.exit.None? || l.sends > 0 ==> Asked(l.wire) == l.subscriptions)
  }

  lemma OpeningServes(first: seq<string>, before: Box, sends: nat, fault: string)
    requires Delivery.Sound(before)
    ensures Served(first, before, Opening(first, before, sends, fault))
  {
    OpeningAsks(first, before, sends, fault);
    Delivery.HappeningIsSound(before, Delivery.Connected);
    assert first + Texts([]) == first;
  }

  lemma OpeningAsks(first: seq<string>, before: Box, sends: nat, fault: string)
    ensures AsksAll(Opening(first, before, sends, fault))
  {
    var n := if sends < |first| then sends else |first|;
    AsksAreAsked(first[..n]);
    assert n == |first| ==> first[..n] == first;
  }

  lemma FramedServes(first: seq<string>, before: Box, l: Live, frame: Inbound, pause: seq<Delivery.ConsumerAct>)
    requires Served(first, before, l) && l.exit.None?
    ensures Served(first, before, Framed(l, frame, pause))
  {
    AskedSnoc(l.wire, Pong);
    if frame.Payload? && frame.json.Some? {
      Delivery.HappeningIsSound(l.outlet, Delivery.Frame(frame.json.value, pause));
    }
  }

  lemma ObeyedServes(first: seq<string>, before: Box, l: Live, request: Request)
    requires Served(first, before, l) && l.exit.None?
    ensures Served(first, before, Obeyed(l, request))
  {
    assert (l.consumed + [request])[..|l.consumed|] == l.consumed;
    AskedSnoc(l.wire, if request.Close? then Goodbye else Asking(request.text));
    if request.Subscribe? {
      assert first + (Texts(l.consumed) + [request.text]) == l.subscriptions + [request.text];
    }
  }

  lemma ProceedServes(first: seq<string>, before: Box, l: Live, input: Ready)
    requires Served(first, before, l)
    ensures Served(first, before, Proceed(l, input))
  {
    if l.exit.None? {
      match input {
        case FromServer(frame, pause) => FramedServes(first, before, l, frame, pause);
        case FromHandle(request) => ObeyedServes(first, before, l, request);
        case FromConsumer(act) => Delivery.HappeningIsSound(l.outlet, Delivery.Consumer(act));
        case ReadFailed(_) =>
        case HandleDropped =>
      }
    }
  }

  /** So it is at the end of every connection, whatever its inputs. */
  lemma {:induction false} ConnectionServes(first: seq<string>, before: Box, sends: nat, fault: string,
                                            inputs: seq<Ready>)
    requires Delivery.Sound(before)
    ensures Served(first, before, ProceedAll(Opening(first, before, sends, fault), inputs))
  {
    if inputs == [] {
      OpeningServes(first, before, sends, fault);
    } else {
      var n := |inputs| - 1;
      ConnectionServes(first, before, sends, fault, inputs[..n]);
      ProceedServes(first, before, ProceedAll(Opening(first, before, sends, fault), inputs[..n]), inputs[n]);
    }
  }

  // ----- the reconnect loop ---------------------------------------------------------------

  /** How an upgrade goes. `refused` is a 401 or 403. */
  datatype Upgrade = Failed(reason: string, refused: bool) | Open(sends: nat, fault: string, inputs: seq<Ready>)

  /** One turn of the loop as the environment makes it. `mint` is what minting a
      token gives, if the task does mint one. */
  datatype Round = Round(
    mint: Result<string, string>, upgrade: Upgrade, timing: Timing<Request>, meanwhile: seq<Delivery.ConsumerAct>)

  /** `token` was minted before the task began and has not been used. `presented`
      holds, for each attempt so far, the token put into its URL, if any; `notices`
      every notice given. */
  datatype Socket = Socket(
    subscriptions: seq<string>, outlet: Box, token: Option<string>,
    presented: seq<Option<string>>, notices: seq<Notice>)

  /** The token of an attempt, or why there is none. */
  function TokenFor(authed: bool, token: Option<string>, mint: Result<string, string>): Result<Option<string>, string> {
    if !authed then Ok(None)
    else if token.Some? then Ok(token)
    else if mint.Ok? then Ok(Some(mint.value))
    else Err(mint.error)
  }

  function Notified(s: Socket, n: Notice): Socket {
    s.(outlet := Delivery.Emit(s.outlet), notices := s.notices + [n])
  }

  function Reported(s: Socket, reason: string): Socket { Notified(s, Down(Redaction.Redacted(reason))) }

  /** A spent token is never kept. */
  function Presenting(authed: bool, s: Socket, mint: Result<string, string>): Socket {
    var t := TokenFor(authed, s.token, mint);
    s.(token := if authed then None else s.token, presented := s.presented + [if t.Ok? then t.value else None])
  }

  function AttemptMade(authed: bool, s: Socket, round: Round): Tried<Socket, Request> {
    var token, ready := TokenFor(authed, s.token, round.mint), Presenting(authed, s, round.mint);
    if token.Err? then Tried(Reported(ready, token.error), [], false, !s.outlet.open)
    else Connected(authed, ready, round.upgrade)
  }

  function Connected(authed: bool, s: Socket, upgrade: Upgrade): Tried<Socket, Request> {
    match upgrade
    case Failed(reason, refused) =>
      if refused && !authed then Tried(Notified(s, Rejected), [], false, true)
      else Tried(Reported(s, reason), [], false, !s.outlet.open)
    case Open(sends, fault, inputs) =>
      var told := Notified(s, Up);
      if !s.outlet.open then Tried(told, [], false, true)
      else HungUp(told, ProceedAll(Opening(told.subscriptions, told.outlet, sends, fault), inputs))
  }

  /** Only a message that was handed over makes a connection count. */
  function HungUp(s: Socket, l: Live): Tried<Socket, Request> {
    var left := s.(subscriptions := l.subscriptions, outlet := l.outlet);
    match ExitOf(l)
    case Lost(reason) => Tried(Reported(left, reason), l.consumed, l.outlet.delivered, !l.outlet.open)
    case Closed => Tried(left, l.consumed, l.outlet.delivered, true)
    case Abandoned => Tried(left, l.consumed, l.outlet.delivered, true)
  }

  predicate IsClose(request: Request) { request.Close? }

  function Queued(s: Socket, request: Request): Socket {
    if request.Subscribe? then s.(subscriptions := s.subscriptions + [request.text]) else s
  }

  function RawLoop(authed: bool): Loop<Socket, Request, Round> {
    Loop((s: Socket, round: Round) => AttemptMade(authed, s, round), Queued, IsClose,
         (s: Socket, round: Round) => s.(outlet := Delivery.ConsumeAll(s.outlet, round.meanwhile)),
         (round: Round) => round.timing)
  }

  // ----- what holds over the whole loop --------------------------------------------------------

  /** No notice shows a token, and only a tokenless socket is rejected. */
  ghost predicate Discreet(authed: bool, notices: seq<Notice>) {
    forall n :: n in notices ==> Proper(authed, n)
  }

  ghost predicate Proper(authed: bool, n: Notice) {
    (n.Down? ==> Redaction.Sealed(n.reason)) && (n.Rejected? ==> !authed)
  }

  /** The subscriptions are the first ones and those asked for since, in order;
      every frame is accounted for; and the notices are discreet. */
  ghost predicate Steady(authed: bool, first: seq<string>, s: Socket, taken: seq<Request>) {
    s.subscriptions == first + Texts(taken) && Delivery.Sound(s.outlet) && Discreet(authed, s.notices)
  }

  lemma NoticeIsSteady(authed: bool, first: seq<string>, s: Socket, taken: seq<Request>, n: Notice)
    requires Steady(authed, first, s, taken) && Proper(authed, n)
    ensures Steady(authed, first, Notified(s, n), taken)
  {
    Delivery.HappeningIsSound(s.outlet, Delivery.Surfaced);
  }

  lemma ReportIsSteady(authed: bool, first: seq<string>, s: Socket, taken: seq<Request>, reason: string)
    requires Steady(authed, first, s, taken)
    ensures Steady(authed, first, Reported(s, reason), taken)
  {
    Redaction.RedactedIsSealed(reason);
    NoticeIsSteady(authed, first, s, taken, Down(Redaction.Redacted(reason)));
  }

  lemma HangingUpIsSteady(authed: bool, first: seq<string>, s: Socket, taken: seq<Request>, before: Box, l: Live)
    requires Steady(authed, first, s, taken) && Served(s.subscriptions, before, l)
    ensures var t := HungUp(s, l); Steady(authed, first, t.state, taken + t.consumed)
  {
    var left := s.(subscriptions := l.subscriptions, outlet := l.outlet);
    LeavingIsSteady(authed, first, s, taken, l);
    if ExitOf(l).Lost? {
      ReportIsSteady(authed, first, left, taken + l.consumed, ExitOf(l).reason);
    }
  }

  lemma LeavingIsSteady(authed: bool, first: seq<string>, s: Socket, taken: seq<Request>, l: Live)
    requires Steady(authed, first, s, taken)
    requires l.subscriptions == s.subscriptions + Texts(l.consumed) && Delivery.Sound(l.outlet)
    ensures Steady(authed, first, s.(subscriptions := l.subscriptions, outlet := l.outlet), taken + l.consumed)
  {
    MoreTexts(first, taken, l.consumed);
  }

  lemma MoreTexts(first: seq<string>, a: seq<Request>, b: seq<Request>)
    ensures first + Texts(a) + Texts(b) == first + Texts(a + b)
  {
    TextsAppend(a, b);
  }

  lemma ConnectingIsSteady(authed: bool, first: seq<string>, s: Socket, taken: seq<Request>, upgrade: Upgrade)
    requires Steady(authed, first, s, taken)
    ensures var t := Connected(authed, s, upgrade); Steady(authed, first, t.state, taken + t.consumed)
  {
    assert taken + [] == taken;
    match upgrade {
      case Failed(reason, refused) =>
        if refused && !authed {
          NoticeIsSteady(authed, first, s, taken, Rejected);
        } else {
          ReportIsSteady(authed, first, s, taken, reason);
        }
      case Open(sends, fault, inputs) =>
        NoticeIsSteady(authed, first, s, taken, Up);
        if s.outlet.open {
          var told := Notified(s, Up);
          ConnectionServes(told.subscriptions, told.outlet, sends, fault, inputs);
          var l := ProceedAll(Opening(told.subscriptions, told.outlet, sends, fault), inputs);
          HangingUpIsSteady(authed, first, told, taken, told.outlet, l);
        }
    }
  }

  lemma AttemptIsSteady(authed: bool, first: seq<string>, s: Socket, taken: seq<Request>, round: Round)
    requires Steady(authed, first, s, taken)
    ensures var t := AttemptMade(authed, s, round); Steady(authed, first, t.state, taken + t.consumed)
  {
    var ready := Presenting(authed, s, round.mint);
    assert taken + [] == taken;
    if TokenFor(authed, s.token, round.mint).Err? {
      ReportIsSteady(authed, first, ready, taken, round.mint.error);
    } else {
      ConnectingIsSteady(authed, first, ready, taken, round.upgrade);
    }
  }

  lemma QueueingIsSteady(authed: bool, first: seq<string>, s: Socket, taken: seq<Request>, request: Request)
    requires Steady(authed, first, s, taken)
    ensures Steady(authed, first, if IsClose(request) then s else Queued(s, request), taken + [request])
  {
    assert (taken + [request])[..|taken|] == taken;
    if request.Subscribe? {
      assert first + (Texts(taken) + [request.text]) == s.subscriptions + [request.text];
    }
  }

  /** Over the whole loop the subscriptions are the first ones and those asked for
      since, every frame is accounted for, no notice shows a token, and only a
      tokenless socket is ever rejected. */
  lemma LoopIsSteady(r: Rhythm, authed: bool, life: Life<Socket, Request>, rounds: seq<Round>)
    requires life.consumed == [] && Delivery.Sound(life.state.outlet) && life.state.notices == []
    ensures var end := Lived(r, RawLoop(authed), life, rounds);
            Steady(authed, life.state.subscriptions, end.state, end.consumed)
  {
    var first, loop := life.state.subscriptions, RawLoop(authed);
    var keeps := (s: Socket, taken: seq<Request>) => Steady(authed, first, s, taken);
    assert first + Texts([]) == first;
    forall s, taken, round | keeps(s, taken)
      ensures AttemptKeeps(loop, keeps, s, taken, round) && IdlingKeeps(loop, keeps, s, taken, round)
    {
      AttemptIsSteady(authed, first, s, taken, round);
      Delivery.ConsumingIsSound(s.outlet, round.meanwhile);
    }
    forall s, taken, request | keeps(s, taken) ensures CommandKeeps(loop.apply, loop.closes, keeps, s, taken, request) {
      QueueingIsSteady(authed, first, s, taken, request);
    }
    LoopKeeps(r, loop, keeps, life, rounds);
  }

  // ----- tokens ---------------------------------------------------------------------------------

  lemma AttemptPresents(authed: bool, s: Socket, round: Round)
    ensures var t, ready := AttemptMade(authed, s, round).state, Presenting(authed, s, round.mint);
            t.presented == ready.presented && t.token == ready.token
  {
  }

  lemma {:induction false} WaitPresentsNothing(state: Socket, now: real, end: real, arrivals: seq<Arrival<Request>>)
    ensures var w := WaitUntil(Queued, IsClose, state, now, end, arrivals);
            w.state.presented == state.presented && w.state.token == state.token
    decreases |arrivals|
  {
    if arrivals != [] && arrivals[0].at <= end && arrivals[0].command.Some? {
      WaitPresentsNothing(Queued(state, arrivals[0].command.value), Max(now, arrivals[0].at), end, arrivals[1..]);
    }
  }

  lemma TurnPresents(r: Rhythm, authed: bool, life: Life<Socket, Request>, round: Round)
    requires !life.stopped
    ensures var next := Turned(r, RawLoop(authed), life, round).state;
            var ready := Presenting(authed, life.state, round.mint);
            next.presented == ready.presented && next.token == ready.token
  {
    AttemptPresents(authed, life.state, round);
    var t := AttemptMade(authed, life.state, round);
    assert RawLoop(authed).attempt(life.state, round) == t;
    SettlingPresentsNothing(r, authed, life.clock, life.consumed, t, round);
  }

  lemma SettlingPresentsNothing(r: Rhythm, authed: bool, clock: Clock, before: seq<Request>, t: Tried<Socket, Request>,
                                round: Round)
    ensures var next := Settled(r, RawLoop(authed), clock, before, t, round).state;
            next.presented == t.state.presented && next.token == t.state.token
  {
    var over := AttemptOver(r, clock, round.timing.duration, t.fed);
    WaitPresentsNothing(t.state, over.now, over.now + r.delay(over.timer) + round.timing.lateness,
        round.timing.arrivals);
  }

  /** The token minted beforehand goes to the first attempt and no other; every
      other attempt presents the token minted for it, or none. */
  ghost predicate OncePerAttempt(first: Option<string>, rounds: seq<Round>, s: Socket) {
    && |s.presented| <= |rounds| && s.token == (if s.presented == [] then first else None)
    && forall i :: 0 <= i < |s.presented| ==>
         s.presented[i] == if i == 0 && first.Some? then first else Minted(rounds[i])
  }

  function Minted(round: Round): Option<string> { if round.mint.Ok? then Some(round.mint.value) else None }

  lemma {:induction false} LoopPresentsOnce(r: Rhythm, life: Life<Socket, Request>, rounds: seq<Round>)
    requires life.state.presented == [] && !life.stopped
    ensures var end := Lived(r, RawLoop(true), life, rounds);
            OncePerAttempt(life.state.token, rounds, end.state) && (!end.stopped ==> |end.state.presented| == |rounds|)
  {
    if rounds != [] {
      var n := |rounds| - 1;
      LoopPresentsOnce(r, life, rounds[..n]);
      var before := Lived(r, RawLoop(true), life, rounds[..n]);
      if !before.stopped {
        TurnPresents(r, true, before, rounds[n]);
        var next := Lived(r, RawLoop(true), life, rounds).state;
        OneMorePresented(life.state.token, rounds, before.state, next);
      } else {
        MoreRoundsPresentNothing(life.state.token, rounds, before.state);
      }
    }
  }

  lemma OneMorePresented(first: Option<string>, rounds: seq<Round>, s: Socket, next: Socket)
    requires rounds != [] && |s.presented| == |rounds| - 1 && OncePerAttempt(first, rounds[..|rounds| - 1], s)
    requires var ready := Presenting(true, s, rounds[|rounds| - 1].mint);
             next.presented == ready.presented && next.token == ready.token
    ensures OncePerAttempt(first, rounds, next)
  {
  }

  lemma MoreRoundsPresentNothing(first: Option<string>, rounds: seq<Round>, s: Socket)
    requires rounds != [] && OncePerAttempt(first, rounds[..|rounds| - 1], s)
    ensures OncePerAttempt(first, rounds, s)
  {
  }

  /** Minting never gives one token twice, nor the one minted beforehand. */
  ghost predicate MintsAnew(first: Option<string>, rounds: seq<Round>) {
    && (forall i :: 0 <= i < |rounds| && rounds[i].mint.Ok? ==> Minted(rounds[i]) != first)
    && (forall i, j :: 0 <= i < j < |rounds| && rounds[i].mint.Ok? ==> Minted(rounds[i]) != Minted(rounds[j]))
  }

  /** Whatever fails and however often the socket reconnects, no token is put into
      two URLs. */
  lemma NoTokenIsPresentedTwice(r: Rhythm, life: Life<Socket, Request>, rounds: seq<Round>)
    requires life.state.presented == [] && !life.stopped && MintsAnew(life.state.token, rounds)
    ensures var p := Lived(r, RawLoop(true), life, rounds).state.presented;
            forall i, j :: 0 <= i < j < |p| && p[i].Some? ==> p[i] != p[j]
  {
    LoopPresentsOnce(r, life, rounds);
  }

  /** A socket without credentials presents none at all. */
  lemma {:induction false} NoCredentialsNoToken(r: Rhythm, life: Life<Socket, Request>, rounds: seq<Round>)
    requires life.state.presented == []
    ensures forall t :: t in Lived(r, RawLoop(false), life, rounds).state.presented ==> t == None
  {
    if rounds != [] {
      var n := |rounds| - 1;
      NoCredentialsNoToken(r, life, rounds[..n]);
      var before := Lived(r, RawLoop(false), life, rounds[..n]);
      if !before.stopped {
        TurnPresents(r, false, before, rounds[n]);
      }
    }
  }

  // ----- the task itself --------------------------------------------------------------------

  class Task {
    const authed: bool
    var firstToken: Option<string>
    var subscriptions: seq<string>
    var outlet: Box
    /** Written on the current connection, how many more writes it accepts, and why
        the one after them fails. */
    var wire: seq<Written>
    var sends: nat
    var fault: string
    var clock: real
    /** The token of every attempt, and every notice given, so far. */
    var presented: seq<Option<string>>
    var notices: seq<Notice>

    constructor (firstToken: Option<string>, subscriptions: seq<string>, capacity: nat)
      ensures authed == firstToken.Some?
      ensures Now() == Socket(subscriptions, Delivery.Opened(capacity), firstToken, [], [])
    {
      authed := firstToken.Some?;
      this.firstToken, this.subscriptions := firstToken, subscriptions;
      outlet := Delivery.Opened(capacity);
      wire, sends, fault, clock, presented, notices := [], 0, "", 0.0, [], [];
    }

    function Now(): Socket
      reads this
    {
      Socket(subscriptions, outlet, firstToken, presented, notices)
    }

    function Line(consumed: seq<Request>, exit: Option<Exit>): Live
      reads this
    {
      Live(subscriptions, outlet, wire, sends, fault, consumed, exit)
    }

    method Write(w: Written) returns (ok: bool)
      modifies this`wire, this`sends
      ensures ok <==> old(sends) > 0
      ensures Line([], if ok then None else Some(Lost(fault))) == Sent(old(Line([], None)), w)
    {
      ok := sends > 0;
      if ok {
        wire, sends := wire + [w], sends - 1;
      }
    }

    /** Give the consumer a notice, if there is room. */
    method Notify(n: Notice) returns (alive: bool)
      modifies this`outlet, this`notices
      ensures Now() == Notified(old(Now()), n) && alive == old(outlet).open
    {
      alive := outlet.open;
      if outlet.open && !Delivery.Full(outlet) {
        outlet := Delivery.Enqueue(outlet, Delivery.Failure);
      }
      notices := notices + [n];
    }

    /** Tell why the socket is down, without its token. */
    method Report(reason: string) returns (alive: bool)
      modifies this`outlet, this`notices
      ensures Now() == Reported(old(Now()), reason) && alive == old(outlet).open
    {
      var scrubbed := Redaction.RedactToken(reason);
      alive := Notify(Down(scrubbed));
    }

    method HandleMessage(frame: Inbound, pause: seq<Delivery.ConsumerAct>) returns (exit: Option<Exit>)
      modifies this`outlet, this`wire, this`sends
      ensures Line([], exit) == Framed(old(Line([], None)), frame, pause)
    {
      exit := None;
      match frame {
        case Payload(json) =>
          if json.Some? {
            var gone;
            outlet, gone := Delivery.TryDeliver(outlet, json.value, pause);
            exit := if gone then Some(Abandoned) else None;
          }
        case Ping =>
          var ok := Write(Pong);
          exit := if ok then None else Some(Lost(fault));
        case Closing(reason) => exit := Some(Lost(reason));
        case Other =>
      }
    }

    method Obey(request: Request) returns (exit: Option<Exit>)
      modifies this`subscriptions, this`wire, this`sends
      ensures Line([request], exit) == Obeyed(old(Line([], None)), request)
    {
      match request {
        case Close =>
          var sent := Write(Goodbye);
          exit := Some(Closed);
        case Subscribe(text) =>
          var ok := Write(Asking(text));
          subscriptions := subscriptions + [text];
          exit := if ok then None else Some(Lost(fault));
      }
    }

    /** What the loop does with the branch that is ready. */
    method React(input: Ready, ghost consumed: seq<Request>) returns (exit: Option<Exit>, took: seq<Request>)
      modifies this`subscriptions, this`outlet, this`wire, this`sends
      ensures Line(consumed + took, exit) == Proceed(old(Line(consumed, None)), input)
    {
      exit, took := None, [];
      assert consumed + [] == consumed;
      match input {
        case FromServer(frame, pause) => exit := HandleMessage(frame, pause);
        case ReadFailed(reason) => exit := Some(Lost(reason));
        case FromHandle(request) =>
          took := [request];
          exit := Obey(request);
        case HandleDropped => exit := Some(Abandoned);
        case FromConsumer(act) => outlet := Delivery.Consume(outlet, act);
      }
    }

    /** Ask for every known subscription, in order, until a write fails. */
    method Replay(acceptedWrites: nat, reason: string) returns (ok: bool)
      modifies this`outlet, this`wire, this`sends, this`fault
      ensures Line([], if ok then None else Some(Lost(reason)))
           == Opening(subscriptions, old(outlet), acceptedWrites, reason)
    {
      outlet := Delivery.BeginConnection(outlet);
      wire, sends, fault := [], acceptedWrites, reason;
      var i := 0;
      while i < |subscriptions|
        invariant 0 <= i <= |subscriptions| && i <= acceptedWrites && fault == reason
        invariant outlet == Delivery.BeginConnection(old(outlet))
        invariant wire == Asks(subscriptions[..i]) && sends == acceptedWrites - i
      {
        assert Asks(subscriptions[..i + 1]) == Asks(subscriptions[..i]) + [Asking(subscriptions[i])];
        ok := Write(Asking(subscriptions[i]));
        if !ok {
          return;
        }
        i := i + 1;
      }
      ok := true;
    }

    /** One connection, to the end of its inputs or its exit. */
    method Serve(acceptedWrites: nat, reason: string, inputs: seq<Ready>) returns (exit: Exit, consumed: seq<Request>)
      modifies this`subscriptions, this`outlet, this`wire, this`sends, this`fault
      ensures var l := ProceedAll(Opening(old(subscriptions), old(outlet), acceptedWrites, reason), inputs);
              Line(consumed, l.exit) == l && exit == ExitOf(l)
    {
      ghost var opening := Opening(subscriptions, outlet, acceptedWrites, reason);
      var ok := Replay(acceptedWrites, reason);
      consumed := [];
      assert ProceedAll(opening, inputs[..0]) == opening;
      if !ok {
        ExitIsFinal(opening, inputs, 0);
        return Lost(reason), [];
      }
      var i := 0;
      while i < |inputs|
        invariant 0 <= i <= |inputs|
        invariant ProceedAll(opening, inputs[..i]) == Line(consumed, None)
      {
        assert inputs[..i + 1][..i] == inputs[..i];
        var stopped, took := React(inputs[i], consumed);
        consumed := consumed + took;
        if stopped.Some? {
          ExitIsFinal(opening, inputs, i + 1);
          return stopped.value, consumed;
        }
        i := i + 1;
      }
      assert inputs[..i] == inputs;
      return Lost("stream ended"), consumed;
    }

    /** A command with no connection to send it on. */
    method Queue(request: Request)
      modifies this`subscriptions
      ensures Now() == Queued(old(Now()), request)
    {
      if request.Subscribe? {
        subscriptions := subscriptions + [request.text];
      }
    }

    /** Wait out one delay. Subscriptions queue up and never shorten it. */
    method WaitBackoff(delays: BackoffIter, arrivals: seq<Arrival<Request>>, lateness: real)
      returns (stopped: bool, delay: real, consumed: seq<Request>)
      requires Follows(delays.rhythm, delays.policy)
      modifies this`subscriptions, this`clock, delays, delays.rng
      ensures delay == delays.rhythm.delay(old(delays.State()))
      ensures delays.State() == delays.rhythm.next(old(delays.State()))
      ensures Waited(Now(), clock, consumed, stopped)
           == WaitUntil(Queued, IsClose, old(Now()), old(clock), old(clock) + delay + lateness, arrivals)
    {
      delay := delays.NextDelay();
      stopped, consumed := Wait(clock + delay + lateness, arrivals);
    }

    /** Take what arrives until `end`. */
    method Wait(end: real, arrivals: seq<Arrival<Request>>) returns (stopped: bool, consumed: seq<Request>)
      modifies this`subscriptions, this`clock
      ensures Waited(Now(), clock, consumed, stopped)
           == WaitUntil(Queued, IsClose, old(Now()), old(clock), end, arrivals)
    {
      ghost var whole := WaitUntil(Queued, IsClose, Now(), clock, end, arrivals);
      consumed := [];
      var i := 0;
      NothingTaken(Queued, IsClose, Now(), clock, end, arrivals);
      while i < |arrivals| && arrivals[i].at <= end
        invariant 0 <= i <= |arrivals|
        invariant AfterTaking(whole, consumed, WaitUntil(Queued, IsClose, Now(), clock, end, arrivals[i..]))
      {
        OneMoreArrival(Queued, IsClose, whole, consumed, Now(), clock, end, arrivals, i);
        clock := Max(clock, arrivals[i].at);
        var request := arrivals[i].command;
        if request.None? {
          return true, consumed;
        }
        consumed := consumed + [request.value];
        if request.value.Close? {
          return true, consumed;
        }
        Queue(request.value);
        i := i + 1;
      }
      NoMoreArrivals(Queued, IsClose, whole, consumed, Now(), clock, end, arrivals, i);
      clock := end;
      return false, consumed;
    }

    /** This attempt's token, or why there is none. */
    method Token(mint: Result<string, string>) returns (token: Result<Option<string>, string>)
      modifies this`firstToken, this`presented
      ensures token == TokenFor(authed, old(firstToken), mint)
      ensures Now() == Presenting(authed, old(Now()), mint)
    {
      if !authed {
        token := Ok(None);
      } else if firstToken.Some? {
        token := Ok(firstToken);
        firstToken := None;
      } else if mint.Ok? {
        token := Ok(Some(mint.value));
      } else {
        token := Err(mint.error);
      }
      presented := presented + [if token.Ok? then token.value else None];
    }

    /** One attempt, from the token to the end of its connection. */
    method Try(round: Round) returns (stop: bool, fed: bool, consumed: seq<Request>)
      modifies this`firstToken, this`presented, this`subscriptions, this`outlet, this`wire, this`sends, this`fault,
               this`notices
      ensures Tried(Now(), consumed, fed, stop) == AttemptMade(authed, old(Now()), round)
    {
      var token := Token(round.mint);
      if token.Err? {
        var alive := Report(token.error);
        return !alive, false, [];
      }
      stop, fed, consumed := Connect(round.upgrade);
    }

    method Connect(upgrade: Upgrade) returns (stop: bool, fed: bool, consumed: seq<Request>)
      modifies this`subscriptions, this`outlet, this`wire, this`sends, this`fault, this`notices
      ensures Tried(Now(), consumed, fed, stop) == Connected(authed, old(Now()), upgrade)
    {
      fed, consumed := false, [];
      var alive;
      match upgrade {
        case Failed(reason, refused) =>
          if refused && !authed {
            alive := Notify(Rejected);
            return true, false, [];
          }
          alive := Report(reason);
          stop := !alive;
        case Open(acceptedWrites, reason, inputs) =>
          alive := Notify(Up);
          if !alive {
            return true, false, [];
          }
          stop, fed, consumed := Attend(acceptedWrites, reason, inputs);
      }
    }

    method Attend(acceptedWrites: nat, reason: string, inputs: seq<Ready>)
      returns (stop: bool, fed: bool, consumed: seq<Request>)
      modifies this`subscriptions, this`outlet, this`wire, this`sends, this`fault, this`notices
      ensures Tried(Now(), consumed, fed, stop)
           == HungUp(old(Now()), ProceedAll(Opening(old(subscriptions), old(outlet), acceptedWrites, reason), inputs))
    {
      var exit;
      exit, consumed := Serve(acceptedWrites, reason, inputs);
      fed, stop := outlet.delivered, true;
      if exit.Lost? {
        var alive := Report(exit.reason);
        stop := !alive;
      }
    }

    /** The task now, given what its loop has recorded and taken so far. */
    function LifeNow(delays: BackoffIter, pacing: Pacing, consumed: seq<Request>, stopped: bool): Life<Socket, Request>
      reads this, delays, delays.rng
    {
      Life(Now(), Clock(clock, delays.State(), pacing), consumed, stopped)
    }

    /** One turn of the loop: an attempt and, unless it ends the task, one delay. */
    method Turn(delays: BackoffIter, past: Pacing, before: seq<Request>, round: Round)
      returns (stop: bool, pacing: Pacing, consumed: seq<Request>)
      requires Follows(delays.rhythm, delays.policy)
      modifies this, delays, delays.rng
      ensures LifeNow(delays, pacing, consumed, stop)
           == Turned(delays.rhythm, RawLoop(authed), old(LifeNow(delays, past, before, false)), round)
    {
      var start := clock;
      var fed;
      stop, fed, consumed := Try(round);
      assert Tried(Now(), consumed, fed, stop) == RawLoop(authed).attempt(old(Now()), round);
      stop, pacing, consumed := Settle(delays, past, start, before, fed, stop, consumed, round);
    }

    /** What follows an attempt. */
    method Settle(delays: BackoffIter, past: Pacing, start: real, before: seq<Request>,
                  fed: bool, stops: bool, took: seq<Request>, round: Round)
      returns (stop: bool, pacing: Pacing, consumed: seq<Request>)
      requires Follows(delays.rhythm, delays.policy) && start == clock
      modifies this`subscriptions, this`clock, this`outlet, delays, delays.rng
      ensures LifeNow(delays, pacing, consumed, stop)
           == Settled(delays.rhythm, RawLoop(authed), Clock(start, old(delays.State()), past), before,
                      Tried(old(Now()), took, fed, stops), round)
    {
      stop, consumed := stops, before + took;
      clock := clock + round.timing.duration;
      pacing := past.(starts := past.starts + [start], fed := past.fed + [fed]);
      if fed {
        delays.Reset();
      }
      if !stop {
        stop, pacing, consumed := Pause(delays, pacing, consumed, round);
      }
    }

    /** The delay after an attempt, while the consumer goes on reading. */
    method Pause(delays: BackoffIter, past: Pacing, before: seq<Request>, round: Round)
      returns (stop: bool, pacing: Pacing, consumed: seq<Request>)
      requires Follows(delays.rhythm, delays.policy)
      modifies this`subscriptions, this`clock, this`outlet, delays, delays.rng
      ensures LifeNow(delays, pacing, consumed, stop)
           == Rested(delays.rhythm, RawLoop(authed), Clock(old(clock), old(delays.State()), past), before,
                     old(Now()), round)
    {
      var delay, taken;
      stop, delay, taken := WaitBackoff(delays, round.timing.arrivals, round.timing.lateness);
      pacing := past.(waits := past.waits + [delay]);
      outlet := Delivery.ConsumeAll(outlet, round.meanwhile);
      consumed := before + taken;
    }

    /** The reconnect loop, over the rounds the environment makes of it. */
    method Run(delays: BackoffIter, rounds: seq<Round>) returns (stopped: bool, pacing: Pacing, consumed: seq<Request>)
      requires Follows(delays.rhythm, delays.policy)
      modifies this, delays, delays.rng
      ensures LifeNow(delays, pacing, consumed, stopped)
           == Lived(delays.rhythm, RawLoop(authed), old(LifeNow(delays, Pacing([], [], []), [], false)), rounds)
    {
      ghost var life, loop := LifeNow(delays, Pacing([], [], []), [], false), RawLoop(authed);
      stopped, pacing, consumed := false, Pacing([], [], []), [];
      var i := 0;
      while !stopped && i < |rounds|
        invariant 0 <= i <= |rounds|
        invariant LifeNow(delays, pacing, consumed, stopped) == Lived(delays.rhythm, loop, life, rounds[..i])
        decreases |rounds| - i
      {
        OneMoreTurn(delays.rhythm, loop, life, rounds, i);
        stopped, pacing, consumed := Turn(delays, pacing, consumed, rounds[i]);
        i := i + 1;
      }
      if stopped {
        StopIsFinal(delays.rhythm, loop, life, rounds, i);
      } else {
        assert rounds[..i] == rounds;
      }
    }
  }
}
