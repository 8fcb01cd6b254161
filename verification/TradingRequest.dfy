/** Which trading action a request carries (`route`, `text`, `optional_text`,
    `optional_count`, `digits` and the field lists of `request_digest` in
    `src/auth/trading.rs`). Bodies are parsed JSON; a body that does not parse is
    `None`. */
module TradingRequest {
  import opened Common
  import opened Coding
  import opened Text

  /** `Whole` is a number that reads as an unsigned integer, `Fraction` any other. */
  datatype Json =
    | Null
    | Bool(flag: bool)
    | Whole(n: nat)
    | Fraction
    | Text(text: Bytes)
    | Array(items: seq<Json>)
    | Object(fields: Fields)

  /** The body keys that are read, and any other key. */
  datatype Key =
    | MarketKey | SideKey | OrderTypeKey | PriceKey | QuantityKey | TimeInForceKey | ReduceOnlyKey | StopPriceKey
    | TriggerPriceKey | TrailingOffsetKey | LimitOffsetKey | StpKey | ClientIdKey | MaxSlippageKey
    | SizeKey | AmountKey | DirectionKey | MarginModeKey | LeverageKey | OtherKey(name: Bytes)

  type Fields = map<Key, Json>

  datatype Request = Request(verb: Bytes, path: Bytes, query: Bytes, body: Option<Json>)

  datatype Refusal =
    | NotJson | NotAnObject | NotAnArray
    | NotText(name: Key) | EmptyText(name: Key) | NotACount(name: Key) | NotABoolean
    | MissingMarket | MissingLeverage

  // ----- routes --------------------------------------------------------------------------------

  datatype Route =
    | PlaceOrder | PlaceOrders | AmendOrder(id: Bytes) | CancelOrder(id: Bytes) | CancelAllOrders
    | AdjustMargin | SetMarginMode | SetLeverage

  /** The non-empty parts of `s` between separators. */
  function Segments(s: Bytes, c: char): seq<Bytes>
    decreases |s|
  {
    var end := Find(s, c);
    (if end == 0 then [] else [s[..end]]) + (if end < |s| then Segments(s[end + 1..], c) else [])
  }

  function RouteOf(verb: Bytes, path: Bytes): Option<Route> {
    RouteIn(Upper(verb), PathSegments(path))
  }

  function PathSegments(path: Bytes): seq<Bytes> { Segments(path[..Find(path, '?')], '/') }

  function RouteIn(verb: Bytes, segments: seq<Bytes>): Option<Route> {
    var n := |segments|;
    if n == 0 then None else Routed(verb, if n > 1 then segments[n - 2] else "", segments[n - 1])
  }

  /** `previous` is "" when the path has one segment only. */
  function Routed(verb: Bytes, previous: Bytes, last: Bytes): Option<Route> {
    if verb == "POST" && last == "orders" then Some(PlaceOrder)
    else if verb == "DELETE" && last == "orders" then Some(CancelAllOrders)
    else if verb == "POST" && previous == "orders" && last == "batch" then Some(PlaceOrders)
    else if verb == "PATCH" && previous == "orders" then Some(AmendOrder(last))
    else if verb == "DELETE" && previous == "orders" then Some(CancelOrder(last))
    else if verb == "POST" && previous == "account" && last == "margin" then Some(AdjustMargin)
    else if verb == "POST" && previous == "account" && last == "margin-mode" then Some(SetMarginMode)
    else if verb == "POST" && last == "leverage" then Some(SetLeverage)
    else None
  }

  lemma {:induction false} FindStopsIn(s: Bytes, t: Bytes, c: char)
    ensures Find(s + [c] + t, c) == Find(s, c)
  {
    if s != [] && s[0] != c {
      assert (s + [c] + t)[1..] == s[1..] + [c] + t;
      FindStopsIn(s[1..], t, c);
    }
  }

  lemma {:induction false} SegmentsSplit(s: Bytes, t: Bytes, c: char)
    ensures Segments(s + [c] + t, c) == Segments(s, c) + Segments(t, c)
    decreases |s|
  {
    var whole, end := s + [c] + t, Find(s, c);
    FindStopsIn(s, t, c);
    assert whole[..end] == s[..end];
    if end < |s| {
      assert whole[end + 1..] == s[end + 1..] + [c] + t;
      SegmentsSplit(s[end + 1..], t, c);
    } else {
      assert whole[end + 1..] == t;
    }
  }

  lemma {:induction false} NotFound(s: Bytes, c: char)
    requires c !in s
    ensures Find(s, c) == |s|
  {
    if s != [] {
      NotFound(s[1..], c);
    }
  }

  lemma OneSegment(s: Bytes, c: char)
    requires c !in s && s != []
    ensures Segments(s, c) == [s]
  {
    NotFound(s, c);
    assert s[..|s|] == s;
  }

  lemma {:induction false} FindAfter(s: Bytes, t: Bytes, c: char)
    requires c !in s
    ensures Find(s + t, c) == |s| + Find(t, c)
  {
    if s == [] {
      assert s + t == t;
    } else {
      assert (s + t)[1..] == s[1..] + t;
      FindAfter(s[1..], t, c);
    }
  }

  lemma PathSplits(prefix: Bytes, path: Bytes)
    requires '?' !in prefix
    ensures PathSegments(prefix + ['/'] + path) == PathSegments(prefix) + PathSegments(path)
  {
    var whole, n := prefix + ['/'] + path, Find(path, '?');
    NotFound(prefix, '?');
    FindAfter(prefix + ['/'], path, '?');
    assert prefix[..|prefix|] == prefix && whole[..|prefix| + 1 + n] == prefix + ['/'] + path[..n];
    SegmentsSplit(prefix, path[..n], '/');
  }

  /** The routes that need the segment before the last. */
  predicate Claims(verb: Bytes, previous: Bytes, last: Bytes) {
    || (previous == "orders"
         && (verb == "PATCH" || (verb == "DELETE" && last != "orders") || (verb == "POST" && last == "batch")))
    || (previous == "account" && verb == "POST" && (last == "margin" || last == "margin-mode"))
  }

  lemma PreviousMattersIff(verb: Bytes, previous: Bytes, last: Bytes)
    ensures Routed(verb, previous, last) == Routed(verb, "", last) <==> !Claims(verb, previous, last)
  {
  }

  /** A prefix such as a version does not change the route, unless the path has one
      segment only and the prefix ends in just what that segment makes a route with. */
  lemma PrefixKeepsRouteIff(verb: Bytes, prefix: Bytes, path: Bytes)
    requires '?' !in prefix && PathSegments(path) != []
    ensures var p, q := PathSegments(prefix), PathSegments(path);
            RouteOf(verb, prefix + ['/'] + path) == RouteOf(verb, path) <==>
              !(|q| == 1 && p != [] && Claims(Upper(verb), p[|p| - 1], q[0]))
  {
    PathSplits(prefix, path);
    var p, q := PathSegments(prefix), PathSegments(path);
    if |q| == 1 && p != [] {
      assert (p + q)[|p + q| - 2] == p[|p| - 1];
      PreviousMattersIff(Upper(verb), p[|p| - 1], q[0]);
    }
  }

  lemma LastTwoDecide(verb: Bytes, front: seq<Bytes>, previous: Bytes, last: Bytes)
    ensures RouteIn(verb, front + [previous, last]) == Routed(verb, previous, last)
  {
    var segments := front + [previous, last];
    assert segments[|segments| - 2] == previous && segments[|segments| - 1] == last;
  }

  lemma LoneSegment(s: Bytes)
    requires s != [] && '/' !in s && '?' !in s
    ensures PathSegments(s) == [s]
  {
    NotFound(s, '?');
    assert s[..|s|] == s;
    OneSegment(s, '/');
  }

  lemma OrdersPathSplits(prefix: Bytes, id: Bytes)
    requires '?' !in prefix
    ensures PathSegments(prefix + ['/'] + "orders" + ['/'] + id) == PathSegments(prefix) + ["orders"] + PathSegments(id)
  {
    PathSplits(prefix + ['/'] + "orders", id);
    PathSplits(prefix, "orders");
    LoneSegment("orders");
  }

  // ----- amending: the id goes into the path encoded ------------------------------------------

  lemma PatchesAreRouted(id: Bytes)
    ensures Upper("PATCH") == "PATCH" && Routed("PATCH", "orders", id) == Some(AmendOrder(id))
  {
  }

  /** The id an amend is routed and signed for is the encoded segment, whatever
      characters the order id has. */
  lemma AmendedIdIsTheSegment(prefix: Bytes, id: Bytes)
    requires '?' !in prefix && id != []
    ensures RouteOf("PATCH", prefix + ['/'] + "orders" + ['/'] + Encoded(Path, id))
            == Some(AmendOrder(Encoded(Path, id)))
  {
    var segment := Encoded(Path, id);
    SegmentIsPlain(id);
    assert EncodedByte(Path, id[0]) != [];
    LoneSegment(segment);
    OrdersPathSplits(prefix, segment);
    PatchesAreRouted(segment);
    assert PathSegments(prefix) + ["orders"] + [segment] == PathSegments(prefix) + ["orders", segment];
    LastTwoDecide("PATCH", PathSegments(prefix), "orders", segment);
  }

  // ----- cancelling: the id goes into the path as it is ---------------------------------------

  /** What a cancel for the raw text `id` is routed as, given the parts of that text:
      the last part is the order, unless it is "orders" or there is none, and only
      if "orders" stands right before it. */
  function CancelRoute(parts: seq<Bytes>): Option<Route> {
    var n := |parts|;
    if n == 0 || parts[n - 1] == "orders" then Some(CancelAllOrders)
    else if n == 1 || parts[n - 2] == "orders" then Some(CancelOrder(parts[n - 1]))
    else None
  }

  lemma DeletesAreRouted(previous: Bytes, last: Bytes)
    ensures Upper("DELETE") == "DELETE"
    ensures Routed("DELETE", previous, last) ==
              if last == "orders" then Some(CancelAllOrders)
              else if previous == "orders" then Some(CancelOrder(last)) else None
  {
  }

  lemma RawIdIsRouted(id: Bytes)
    ensures RouteOf("DELETE", ['/'] + "orders" + ['/'] + id) == CancelRoute(PathSegments(id))
  {
    var parts := PathSegments(id);
    var segments := ["orders"] + parts;
    OrdersPathSplits([], id);
    assert [] + ['/'] + "orders" + ['/'] + id == ['/'] + "orders" + ['/'] + id;
    assert PathSegments([]) + ["orders"] + parts == segments;
    if parts == [] {
      DeletesAreRouted("", "orders");
      assert segments == ["orders"];
    } else {
      DeletesAreRouted(segments[|segments| - 2], segments[|segments| - 1]);
    }
  }

  /** A cancel is routed as the cancel of the id it was asked for exactly when that
      id is a plain one: not empty, not "orders", and without a slash or a question
      mark. */
  lemma RawIdIsTheOrderIff(id: Bytes)
    ensures RouteOf("DELETE", ['/'] + "orders" + ['/'] + id) == Some(CancelOrder(id)) <==>
              id != [] && id != "orders" && '/' !in id && '?' !in id
  {
    RawIdIsRouted(id);
    if id != [] && '/' !in id && '?' !in id {
      LoneSegment(id);
    } else if PathSegments(id) != [] {
      SegmentsAreParts(id);
    }
  }

  lemma SegmentsAreParts(path: Bytes)
    ensures forall part :: part in PathSegments(path) ==> '/' !in part && '?' !in part && part != []
  {
    FrontHasNone(path, '?');
    PartsOf(path[..Find(path, '?')], '/', '?');
  }

  lemma {:induction false} FrontHasNone(s: Bytes, c: char)
    ensures c !in s[..Find(s, c)]
  {
    if s != [] && s[0] != c {
      FrontHasNone(s[1..], c);
      assert s[..Find(s, c)] == [s[0]] + s[1..][..Find(s[1..], c)];
    }
  }

  lemma {:induction false} PartsOf(s: Bytes, c: char, d: char)
    requires d !in s
    ensures forall part :: part in Segments(s, c) ==> c !in part && d !in part && part != []
    decreases |s|
  {
    var end := Find(s, c);
    FrontHasNone(s, c);
    if end < |s| {
      PartsOf(s[end + 1..], c, d);
    }
  }

  // ----- fields --------------------------------------------------------------------------------

  const U32_MAX: nat := 0xFFFF_FFFF

  function AsObject(value: Json): Result<Fields, Refusal> {
    if value.Object? then Ok(value.fields) else Err(NotAnObject)
  }

  function RequiredText(fields: Fields, name: Key): (r: Result<Bytes, Refusal>)
    ensures r.Ok? <==> TextField(fields, name)
  {
    if name in fields && fields[name].Text? then Ok(fields[name].text) else Err(NotText(name))
  }

  /** Absent and `null` are the same; an explicit "" is refused. */
  function OptionalText(fields: Fields, name: Key): (r: Result<Option<Bytes>, Refusal>)
    ensures r.Ok? <==> OptionalTextField(fields, name)
    ensures r.Ok? ==> Said(r.value)
  {
    if name !in fields || fields[name].Null? then Ok(None)
    else if !fields[name].Text? then Err(NotText(name))
    else if fields[name].text == "" then Err(EmptyText(name))
    else Ok(Some(fields[name].text))
  }

  function OptionalCount(fields: Fields, name: Key): (r: Result<Option<nat>, Refusal>)
    ensures r.Ok? <==> CountField(fields, name)
    ensures r.Ok? ==> InRange(r.value)
  {
    if name !in fields || fields[name].Null? then Ok(None)
    else if fields[name].Whole? && fields[name].n <= U32_MAX then Ok(Some(fields[name].n))
    else Err(NotACount(name))
  }

  /** Absent is `false`; `null` is refused. */
  function ReduceOnly(fields: Fields): Result<bool, Refusal> {
    if ReduceOnlyKey !in fields then Ok(false)
    else if fields[ReduceOnlyKey].Bool? then Ok(fields[ReduceOnlyKey].flag)
    else Err(NotABoolean)
  }

  // ----- actions -------------------------------------------------------------------------------

  datatype Order = Order(
    marketId: Bytes, side: Bytes, orderType: Bytes, price: Option<Bytes>, quantity: Bytes, timeInForce: Bytes,
    reduceOnly: bool, stopPrice: Option<Bytes>, triggerPrice: Option<Bytes>, trailingOffsetBps: Option<nat>,
    limitOffsetBps: Option<nat>, stp: Option<Bytes>, clientId: Option<Bytes>, maxSlippageBps: Option<nat>)

  /** What a request asks for, with what it leaves out told apart from what it says. */
  datatype Action =
    | Place(order: Order)
    | Batch(orders: seq<Order>)
    | Amend(marketId: Bytes, orderId: Bytes, price: Option<Bytes>, size: Option<Bytes>)
    | Cancel(marketId: Bytes, orderId: Bytes)
    | CancelAll(market: Option<Bytes>)
    | Margin(marketId: Bytes, amount: Bytes, direction: Bytes)
    | MarginMode(marketId: Bytes, mode: Bytes)
    | Leverage(marketId: Bytes, leverage: nat)

  function ReadOrder(fields: Fields): (r: Result<Order, Refusal>)
    ensures r.Ok? ==> PlainOrder(r.value)
  {
    var reduceOnly :- ReduceOnly(fields);
    var marketId :- RequiredText(fields, MarketKey);
    var side :- RequiredText(fields, SideKey);
    var orderType :- RequiredText(fields, OrderTypeKey);
    var price :- OptionalText(fields, PriceKey);
    var quantity :- RequiredText(fields, QuantityKey);
    var timeInForce :- RequiredText(fields, TimeInForceKey);
    var stopPrice :- OptionalText(fields, StopPriceKey);
    var triggerPrice :- OptionalText(fields, TriggerPriceKey);
    var trailing :- OptionalCount(fields, TrailingOffsetKey);
    var limit :- OptionalCount(fields, LimitOffsetKey);
    var stp :- OptionalText(fields, StpKey);
    var clientId :- OptionalText(fields, ClientIdKey);
    var slippage :- OptionalCount(fields, MaxSlippageKey);
    Ok(Order(marketId, side, orderType, price, quantity, timeInForce, reduceOnly, stopPrice, triggerPrice,
             trailing, limit, stp, clientId, slippage))
  }

  function ReadEntry(entry: Json): (r: Result<Order, Refusal>)
    ensures r.Ok? ==> PlainOrder(r.value)
  {
    var fields :- AsObject(entry);
    ReadOrder(fields)
  }

  /** All entries in order, or the first refusal. */
  function ReadOrders(items: seq<Json>): (r: Result<seq<Order>, Refusal>)
    ensures r.Ok? ==> |r.value| == |items| && forall i :: 0 <= i < |items| ==> ReadEntry(items[i]) == Ok(r.value[i])
    ensures r.Ok? ==> forall o :: o in r.value ==> PlainOrder(o)
  {
    if items == [] then Ok([])
    else
      var front :- ReadOrders(items[..|items| - 1]);
      var last :- ReadEntry(items[|items| - 1]);
      Ok(front + [last])
  }

  function Market(query: Bytes): Option<Bytes> { QueryValue(query, "market_id") }

  function RequiredMarket(query: Bytes): Result<Bytes, Refusal> {
    if Market(query).Some? then Ok(Market(query).value) else Err(MissingMarket)
  }

  function Parsed(r: Request): Result<Json, Refusal> { if r.body.Some? then Ok(r.body.value) else Err(NotJson) }

  function ReadAmend(fields: Fields, query: Bytes, id: Bytes): (r: Result<Action, Refusal>)
    ensures r.Ok? ==> Plain(r.value)
  {
    var marketId :- RequiredMarket(query);
    var price :- OptionalText(fields, PriceKey);
    var size :- OptionalText(fields, SizeKey);
    Ok(Amend(marketId, id, price, size))
  }

  function ReadMargin(fields: Fields): (r: Result<Action, Refusal>)
    ensures r.Ok? ==> Plain(r.value)
  {
    var marketId :- RequiredText(fields, MarketKey);
    var amount :- RequiredText(fields, AmountKey);
    var direction :- RequiredText(fields, DirectionKey);
    Ok(Margin(marketId, amount, direction))
  }

  function ReadMarginMode(fields: Fields): (r: Result<Action, Refusal>)
    ensures r.Ok? ==> Plain(r.value)
  {
    var marketId :- RequiredText(fields, MarketKey);
    var mode :- RequiredText(fields, MarginModeKey);
    Ok(MarginMode(marketId, mode))
  }

  function ReadLeverage(fields: Fields): (r: Result<Action, Refusal>)
    ensures r.Ok? ==> Plain(r.value)
  {
    var leverage :- OptionalCount(fields, LeverageKey);
    if leverage.None? then Err(MissingLeverage)
    else
      var marketId :- RequiredText(fields, MarketKey);
      Ok(Leverage(marketId, leverage.value))
  }

  function ReadBody(route: Route, body: Json, query: Bytes): (r: Result<Action, Refusal>)
    requires !route.CancelOrder? && !route.CancelAllOrders?
    ensures r.Ok? ==> Plain(r.value)
  {
    if route.PlaceOrders? then
      if !body.Array? then Err(NotAnArray)
      else
        var orders :- ReadOrders(body.items);
        Ok(Batch(orders))
    else
      var fields :- AsObject(body);
      match route
      case PlaceOrder =>
        var order :- ReadOrder(fields);
        Ok(Place(order))
      case AmendOrder(id) => ReadAmend(fields, query, id)
      case AdjustMargin => ReadMargin(fields)
      case SetMarginMode => ReadMarginMode(fields)
      case SetLeverage => ReadLeverage(fields)
  }

  function ReadRouted(route: Route, r: Request): (a: Result<Action, Refusal>)
    ensures a.Ok? ==> Plain(a.value)
  {
    match route
    case CancelOrder(id) =>
      var marketId :- RequiredMarket(r.query);
      Ok(Cancel(marketId, id))
    case CancelAllOrders =>
      if Market(r.query) == Some("") then Err(EmptyText(MarketKey)) else Ok(CancelAll(Market(r.query)))
    case _ =>
      var body :- Parsed(r);
      ReadBody(route, body, r.query)
  }

  /** The action of a request, `Ok(None)` off the trading routes. */
  function ReadAction(r: Request): (a: Result<Option<Action>, Refusal>)
    ensures a.Ok? && a.value.Some? ==> Plain(a.value.value)
  {
    var route := RouteOf(r.verb, r.path);
    if route.None? then Ok(None)
    else
      var action :- ReadRouted(route.value, r);
      Ok(Some(action))
  }

  // ----- what reading promises -----------------------------------------------------------------

  predicate Said(text: Option<Bytes>) { text != Some("") }

  predicate InRange(count: Option<nat>) { count.Some? ==> count.value <= U32_MAX }

  /** No field says "" and every count fits, so leaving out and saying never look
      the same once signed. */
  predicate PlainOrder(o: Order) {
    && Said(o.price) && Said(o.stopPrice) && Said(o.triggerPrice) && Said(o.stp) && Said(o.clientId)
    && InRange(o.trailingOffsetBps) && InRange(o.limitOffsetBps) && InRange(o.maxSlippageBps)
  }

  predicate Plain(a: Action) {
    match a
    case Place(order) => PlainOrder(order)
    case Batch(orders) => forall o :: o in orders ==> PlainOrder(o)
    case Amend(marketId, orderId, price, size) => Said(price) && Said(size)
    case CancelAll(market) => Said(market)
    case Leverage(marketId, leverage) => leverage <= U32_MAX
    case _ => true
  }

  predicate TextField(fields: Fields, name: Key) { name in fields && fields[name].Text? }

  predicate OptionalTextField(fields: Fields, name: Key) {
    name in fields ==> fields[name].Null? || (fields[name].Text? && fields[name].text != "")
  }

  predicate CountField(fields: Fields, name: Key) {
    name in fields ==> fields[name].Null? || (fields[name].Whole? && fields[name].n <= U32_MAX)
  }

  /** Exactly the order bodies that are signed. */
  lemma OrderIsReadIff(fields: Fields)
    ensures ReadOrder(fields).Ok? <==>
      && (forall name :: name in {MarketKey, SideKey, OrderTypeKey, QuantityKey, TimeInForceKey} ==>
           TextField(fields, name))
      && (forall name :: name in {PriceKey, StopPriceKey, TriggerPriceKey, StpKey, ClientIdKey} ==>
           OptionalTextField(fields, name))
      && (forall name :: name in {TrailingOffsetKey, LimitOffsetKey, MaxSlippageKey} ==> CountField(fields, name))
      && (ReduceOnlyKey in fields ==> fields[ReduceOnlyKey].Bool?)
  {
  }

  /** What a body says under `key`: leaving it out means `null`, or `false` for
      `reduce_only`. */
  function Field(fields: Fields, key: Key): Json {
    if key in fields then fields[key] else if key.ReduceOnlyKey? then Bool(false) else Null
  }

  predicate OrderKey(key: Key) {
    !key.SizeKey? && !key.AmountKey? && !key.DirectionKey? && !key.MarginModeKey? && !key.LeverageKey? && !key.OtherKey?
  }

  function TextJson(text: Option<Bytes>): Json { if text.Some? then Json.Text(text.value) else Null }

  function CountJson(count: Option<nat>): Json { if count.Some? then Whole(count.value) else Null }

  /** What an order says under `key`. */
  function Shown(o: Order, key: Key): Json
    requires OrderKey(key)
  {
    match key
    case MarketKey => Json.Text(o.marketId)
    case SideKey => Json.Text(o.side)
    case OrderTypeKey => Json.Text(o.orderType)
    case PriceKey => TextJson(o.price)
    case QuantityKey => Json.Text(o.quantity)
    case TimeInForceKey => Json.Text(o.timeInForce)
    case ReduceOnlyKey => Bool(o.reduceOnly)
    case StopPriceKey => TextJson(o.stopPrice)
    case TriggerPriceKey => TextJson(o.triggerPrice)
    case TrailingOffsetKey => CountJson(o.trailingOffsetBps)
    case LimitOffsetKey => CountJson(o.limitOffsetBps)
    case StpKey => TextJson(o.stp)
    case ClientIdKey => TextJson(o.clientId)
    case MaxSlippageKey => CountJson(o.maxSlippageBps)
  }

  /** An order says exactly what the body it was read from says. */
  lemma OrderSaysWhatTheBodySays(fields: Fields, key: Key)
    requires ReadOrder(fields).Ok? && OrderKey(key)
    ensures Shown(ReadOrder(fields).value, key) == Field(fields, key)
  {
  }

  ghost predicate ShowAlike(o: Order, p: Order) { forall key :: OrderKey(key) ==> Shown(o, key) == Shown(p, key) }

  lemma TermsShow(o: Order, p: Order)
    requires ShowAlike(o, p)
    ensures o.marketId == p.marketId && o.side == p.side && o.orderType == p.orderType && o.price == p.price
    ensures o.quantity == p.quantity && o.timeInForce == p.timeInForce && o.reduceOnly == p.reduceOnly
  {
    assert Shown(o, MarketKey) == Shown(p, MarketKey) && Shown(o, SideKey) == Shown(p, SideKey);
    assert Shown(o, OrderTypeKey) == Shown(p, OrderTypeKey) && Shown(o, PriceKey) == Shown(p, PriceKey);
    assert Shown(o, QuantityKey) == Shown(p, QuantityKey) && Shown(o, TimeInForceKey) == Shown(p, TimeInForceKey);
    assert Shown(o, ReduceOnlyKey) == Shown(p, ReduceOnlyKey);
  }

  lemma TriggersShow(o: Order, p: Order)
    requires ShowAlike(o, p)
    ensures o.stopPrice == p.stopPrice && o.triggerPrice == p.triggerPrice && o.stp == p.stp && o.clientId == p.clientId
  {
    assert Shown(o, StopPriceKey) == Shown(p, StopPriceKey) && Shown(o, TriggerPriceKey) == Shown(p, TriggerPriceKey);
    assert Shown(o, StpKey) == Shown(p, StpKey) && Shown(o, ClientIdKey) == Shown(p, ClientIdKey);
  }

  lemma CountsShow(o: Order, p: Order)
    requires ShowAlike(o, p)
    ensures o.trailingOffsetBps == p.trailingOffsetBps && o.limitOffsetBps == p.limitOffsetBps
    ensures o.maxSlippageBps == p.maxSlippageBps
  {
    assert Shown(o, TrailingOffsetKey) == Shown(p, TrailingOffsetKey)
        && Shown(o, LimitOffsetKey) == Shown(p, LimitOffsetKey);
    assert Shown(o, MaxSlippageKey) == Shown(p, MaxSlippageKey);
  }

  /** Two bodies read as one order exactly when they say the same in every field
      of an order. */
  lemma SameOrderIff(f: Fields, g: Fields)
    requires ReadOrder(f).Ok? && ReadOrder(g).Ok?
    ensures ReadOrder(f) == ReadOrder(g) <==> forall key :: OrderKey(key) ==> Field(f, key) == Field(g, key)
  {
    forall key | OrderKey(key)
      ensures Shown(ReadOrder(f).value, key) == Field(f, key) && Shown(ReadOrder(g).value, key) == Field(g, key)
    {
      OrderSaysWhatTheBodySays(f, key);
      OrderSaysWhatTheBodySays(g, key);
    }
    if forall key :: OrderKey(key) ==> Field(f, key) == Field(g, key) {
      TermsShow(ReadOrder(f).value, ReadOrder(g).value);
      TriggersShow(ReadOrder(f).value, ReadOrder(g).value);
      CountsShow(ReadOrder(f).value, ReadOrder(g).value);
    }
  }

  /** Where an action's market comes from the query. */
  predicate MarketIs(a: Action, market: Option<Bytes>) {
    match a
    case Cancel(marketId, _) => market == Some(marketId)
    case Amend(marketId, _, _, _) => market == Some(marketId)
    case CancelAll(m) => market == m
    case _ => true
  }

  lemma RoutedMarketIsTheQuerys(route: Route, r: Request)
    requires ReadRouted(route, r).Ok?
    ensures MarketIs(ReadRouted(route, r).value, Market(r.query))
  {
  }

  lemma QueryIsWhatCounts(r: Request)
    requires ReadAction(r).Ok? && ReadAction(r).value.Some?
    ensures MarketIs(ReadAction(r).value.value, Market(r.query))
  {
    RoutedMarketIsTheQuerys(RouteOf(r.verb, r.path).value, r);
  }

  /** The market an order-id request is signed for is the first one the caller
      passed, read from the query exactly as it is sent. */
  lemma SignedMarketIsTheSentOne(r: Request, pairs: seq<(Bytes, Bytes)>)
    requires forall i :: 0 <= i < |pairs| ==> IsBytes(pairs[i].0) && IsBytes(pairs[i].1)
    requires r.query == FormQuery(pairs)
    requires ReadAction(r).Ok? && ReadAction(r).value.Some?
    ensures MarketIs(ReadAction(r).value.value, FirstValue(pairs, "market_id"))
  {
    QueryIsWhatCounts(r);
    QueryReadsBack(pairs, "market_id");
  }

  lemma CancelsAreRead(route: Route, r: Request, market: Bytes)
    requires (route.CancelOrder? || route.CancelAllOrders?) && Market(r.query) == Some(market) && market != []
    ensures ReadRouted(route, r) == Ok(if route.CancelOrder? then Cancel(market, route.id) else CancelAll(Some(market)))
  {
  }

  /** What a cancel signs, for any raw id and any market: the cancel of one order, the
      cancel of every order of that market, or nothing at all. */
  lemma CancelSigns(id: Bytes, market: Bytes, body: Option<Json>)
    requires IsBytes(market) && market != []
    ensures ReadAction(Request("DELETE", ['/'] + "orders" + ['/'] + id, FormQuery([("market_id", market)]), body)) ==
      match CancelRoute(PathSegments(id))
      case None => Ok(None)
      case Some(route) => Ok(Some(if route.CancelOrder? then Cancel(market, route.id) else CancelAll(Some(market))))
  {
    RawIdIsRouted(id);
    MarketIsSent(market);
    var r := Request("DELETE", ['/'] + "orders" + ['/'] + id, FormQuery([("market_id", market)]), body);
    var route := CancelRoute(PathSegments(id));
    assert RouteOf(r.verb, r.path) == route;
    if route.Some? { CancelsAreRead(route.value, r, market); }
  }

  lemma MarketIsSent(market: Bytes)
    requires IsBytes(market)
    ensures Market(FormQuery([("market_id", market)])) == Some(market)
  {
    LastPairIsRead(("market_id", market), "market_id");
  }
}
