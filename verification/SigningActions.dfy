/** Building the digest from the request, word by word into the hasher
    (`request_digest` and `order_hash` in `src/auth/trading.rs`), and what two
    requests with one digest have in common. */
module SigningActions {
  import opened Common
  import opened Coding
  import opened TradingRequest
  import opened TradingDigest

  /** Feeds words to a hasher one after another. */
  method Feed(start: Bytes, words: seq<Word>) returns (fed: Bytes)
    ensures fed == start + Concat(words)
  {
    fed := start;
    for i := 0 to |words|
      invariant fed == start + Concat(words[..i])
    {
      assert words[..i + 1] == words[..i] + [words[i]];
      ConcatGrows(words[..i], words[i]);
      fed := fed + words[i];
    }
    assert words[..|words|] == words;
  }

  lemma HeadConcat(head: Word, words: seq<Word>)
    ensures head + Concat(words) == Concat([head] + words)
  {
    if words == [] {
      assert [head] + words == [] + [head];
      ConcatGrows([], head);
    } else {
      var front, last := words[..|words| - 1], words[|words| - 1];
      HeadConcat(head, front);
      ConcatGrows([head] + front, last);
      assert [head] + front + [last] == [head] + words;
    }
  }

  lemma WordsOfTexts(h: Hash, t: seq<Bytes>, flag: Word)
    requires |t| == 13
    ensures Woven(h, t, flag) == [h(t[0]), h(t[1]), h(t[2]), h(t[3]), h(t[4]), h(t[5]), flag,
                                  h(t[6]), h(t[7]), h(t[8]), h(t[9]), h(t[10]), h(t[11]), h(t[12])]
  {
  }

  method HashOrder(k: Scheme, fields: Fields) returns (r: Result<Word, Refusal>)
    ensures r == match ReadOrder(fields) { case Ok(o) => Ok(OrderHash(k, o)) case Err(e) => Err(e) }
  {
    var reduceOnly :- ReduceOnly(fields);
    var marketId :- RequiredText(fields, MarketKey);
    var side :- RequiredText(fields, SideKey);
    var orderType :- RequiredText(fields, OrderTypeKey);
    var price :- OptionalText(fields, PriceKey);
    var quantity :- RequiredText(fields, QuantityKey);
    var timeInForce :- RequiredText(fields, TimeInForceKey);
    var stopPrice :- OptionalText(fields, StopPriceKey);
    var triggerPrice :- OptionalText(fields, TriggerPriceKey);
    var trailing :- OptionalCount(fields, TrailingOffsetKey);
    var limit :- OptionalCount(fields, LimitOffsetKey);
    var stp :- OptionalText(fields, StpKey);
    var clientId :- OptionalText(fields, ClientIdKey);
    var slippage :- OptionalCount(fields, MaxSlippageKey);
    var words := [
      k.hash(marketId), k.hash(side), k.hash(orderType), k.hash(OrEmpty(price)), k.hash(quantity), k.hash(timeInForce),
      U256(Bit(reduceOnly)), k.hash(OrEmpty(stopPrice)), k.hash(OrEmpty(triggerPrice)), k.hash(CountText(trailing)),
      k.hash(CountText(limit)), k.hash(OrEmpty(stp)), k.hash(OrEmpty(clientId)), k.hash(CountText(slippage))];
    var fed := Feed(k.hash(k.orderType), words);
    ghost var order := ReadOrder(fields).value;
    WordsOfTexts(k.hash, OrderTexts(order), U256(Bit(reduceOnly)));
    HeadConcat(k.hash(k.orderType), words);
    r := Ok(k.hash(fed));
  }

  lemma FirstRefusalStands(items: seq<Json>, i: nat)
    requires i <= |items| && ReadOrders(items[..i]).Err?
    ensures ReadOrders(items) == ReadOrders(items[..i])
    decreases |items| - i
  {
    if i == |items| {
      assert items[..i] == items;
    } else {
      assert items[..i + 1][..i] == items[..i];
      RefusalSticks(items[..i + 1]);
      FirstRefusalStands(items, i + 1);
    }
  }

  lemma RefusalSticks(items: seq<Json>)
    requires items != [] && ReadOrders(items[..|items| - 1]).Err?
    ensures ReadOrders(items) == ReadOrders(items[..|items| - 1])
  {
  }

  lemma OneMoreEntry(items: seq<Json>, i: nat)
    requires i < |items| && ReadOrders(items[..i]).Ok?
    ensures ReadOrders(items[..i + 1]) == match ReadEntry(items[i])
      case Ok(o) => Ok(ReadOrders(items[..i]).value + [o])
      case Err(e) => Err(e)
  {
    assert items[..i + 1][..i] == items[..i];
  }

  lemma OneMoreHash(k: Scheme, orders: seq<Order>, o: Order)
    ensures Concat(OrderHashes(k, orders)) + OrderHash(k, o) == Concat(OrderHashes(k, orders + [o]))
  {
    ConcatGrows(OrderHashes(k, orders), OrderHash(k, o));
    assert OrderHashes(k, orders) + [OrderHash(k, o)] == OrderHashes(k, orders + [o]);
  }

  method HashEntry(k: Scheme, entry: Json) returns (r: Result<Word, Refusal>)
    ensures r == match ReadEntry(entry) { case Ok(o) => Ok(OrderHash(k, o)) case Err(e) => Err(e) }
  {
    var fields :- AsObject(entry);
    r := HashOrder(k, fields);
  }

  method HashBatch(k: Scheme, items: seq<Json>) returns (r: Result<Word, Refusal>)
    ensures r == match ReadOrders(items) {
                   case Ok(orders) => Ok(k.hash(Concat(OrderHashes(k, orders))))
                   case Err(e) => Err(e)
                 }
  {
    var fed: Bytes := [];
    ghost var orders: seq<Order> := [];
    for i := 0 to |items|
      invariant ReadOrders(items[..i]) == Ok(orders)
      invariant fed == Concat(OrderHashes(k, orders))
    {
      OneMoreEntry(items, i);
      var word := HashEntry(k, items[i]);
      if word.Err? {
        FirstRefusalStands(items, i + 1);
        return word;
      }
      ghost var order := ReadEntry(items[i]).value;
      OneMoreHash(k, orders, order);
      fed := fed + word.value;
      orders := orders + [order];
    }
    assert items[..|items|] == items;
    r := Ok(k.hash(fed));
  }

  function KindOfRoute(route: Route): Kind {
    match route
    case PlaceOrder => PlaceKind
    case PlaceOrders => BatchKind
    case AmendOrder(_) => AmendKind
    case CancelOrder(_) => CancelKind
    case CancelAllOrders => CancelAllKind
    case AdjustMargin => MarginKind
    case SetMarginMode => MarginModeKind
    case SetLeverage => LeverageKind
  }

  ghost predicate WordsMatch(k: Scheme, route: Route, action: Result<Action, Refusal>,
                             words: Result<seq<Word>, Refusal>)
  {
    match action
    case Err(e) => words == Err(e)
    case Ok(a) => words == Ok(ActionWords(k, a)) && KindOf(a) == KindOfRoute(route)
  }

  method AmendWords(k: Scheme, fields: Fields, query: Bytes, id: Bytes) returns (words: Result<seq<Word>, Refusal>)
    ensures WordsMatch(k, AmendOrder(id), ReadAmend(fields, query, id), words)
  {
    var marketId :- RequiredMarket(query);
    var price :- OptionalText(fields, PriceKey);
    var size :- OptionalText(fields, SizeKey);
    words := Ok([k.hash(marketId), k.hash(id), k.hash(OrEmpty(price)), k.hash(OrEmpty(size))]);
    assert TextWords(k.hash, [marketId, id, OrEmpty(price), OrEmpty(size)]) == words.value;
  }

  method MarginWords(k: Scheme, fields: Fields) returns (words: Result<seq<Word>, Refusal>)
    ensures WordsMatch(k, AdjustMargin, ReadMargin(fields), words)
  {
    var marketId :- RequiredText(fields, MarketKey);
    var amount :- RequiredText(fields, AmountKey);
    var direction :- RequiredText(fields, DirectionKey);
    words := Ok([k.hash(marketId), k.hash(amount), k.hash(direction)]);
    assert TextWords(k.hash, [marketId, amount, direction]) == words.value;
  }

  method MarginModeWords(k: Scheme, fields: Fields) returns (words: Result<seq<Word>, Refusal>)
    ensures WordsMatch(k, SetMarginMode, ReadMarginMode(fields), words)
  {
    var marketId :- RequiredText(fields, MarketKey);
    var mode :- RequiredText(fields, MarginModeKey);
    words := Ok([k.hash(marketId), k.hash(mode)]);
    assert TextWords(k.hash, [marketId, mode]) == words.value;
  }

  method LeverageWords(k: Scheme, fields: Fields) returns (words: Result<seq<Word>, Refusal>)
    ensures WordsMatch(k, SetLeverage, ReadLeverage(fields), words)
  {
    var leverage :- OptionalCount(fields, LeverageKey);
    if leverage.None? {
      return Err(MissingLeverage);
    }
    var marketId :- RequiredText(fields, MarketKey);
    words := Ok([k.hash(marketId), U256(leverage.value)]);
  }

  method RouteWords(k: Scheme, route: Route, r: Request) returns (words: Result<seq<Word>, Refusal>)
    ensures WordsMatch(k, route, ReadRouted(route, r), words)
  {
    if route.CancelOrder? {
      var marketId :- RequiredMarket(r.query);
      assert TextWords(k.hash, [marketId, route.id]) == [k.hash(marketId), k.hash(route.id)];
      return Ok([k.hash(marketId), k.hash(route.id)]);
    }
    if route.CancelAllOrders? {
      var market := Market(r.query);
      if market == Some("") {
        return Err(EmptyText(MarketKey));
      }
      assert TextWords(k.hash, [OrEmpty(market)]) == [k.hash(OrEmpty(market))];
      return Ok([k.hash(OrEmpty(market))]);
    }
    var body :- Parsed(r);
    if route.PlaceOrders? {
      if !body.Array? {
        return Err(NotAnArray);
      }
      var word :- HashBatch(k, body.items);
      return Ok([word]);
    }
    var fields :- AsObject(body);
    match route {
      case PlaceOrder =>
        var word :- HashOrder(k, fields);
        words := Ok([word]);
      case AmendOrder(id) => words := AmendWords(k, fields, r.query, id);
      case AdjustMargin => words := MarginWords(k, fields);
      case SetMarginMode => words := MarginModeWords(k, fields);
      case SetLeverage => words := LeverageWords(k, fields);
    }
  }

  lemma MessageWords(t: Word, a: Word, d: Word, words: seq<Word>, x: Word, y: Word)
    ensures t + Concat([a, d] + words + [x] + [y]) == Concat([t, a, d] + words + [x] + [y])
  {
    HeadConcat(t, [a, d] + words + [x] + [y]);
    assert [t] + ([a, d] + words + [x] + [y]) == [t, a, d] + words + [x] + [y];
  }

  method HashMessage(k: Scheme, kind: Kind, words: seq<Word>, e: Envelope) returns (message: Bytes)
    requires e.Valid()
    ensures message == MessageOf(k, kind, words, e)
  {
    var typeWord := k.hash(k.typeOf(kind));
    message := Feed(typeWord,
        [AddressWord(e.account), k.hash(e.domain)] + words + [U256(e.timestampMs)] + [U256(e.nonce)]);
    MessageWords(typeWord, AddressWord(e.account), k.hash(e.domain), words, U256(e.timestampMs), U256(e.nonce));
  }

  function Signed(k: Scheme, action: Result<Option<Action>, Refusal>, e: Envelope): Result<Option<Word>, Refusal>
    requires e.Valid()
  {
    match action
    case Err(refusal) => Err(refusal)
    case Ok(None) => Ok(None)
    case Ok(Some(a)) => Ok(Some(DigestOf(k, a, e)))
  }

  method RequestDigest(k: Scheme, r: Request, e: Envelope) returns (digest: Result<Option<Word>, Refusal>)
    requires e.Valid()
    ensures digest == Signed(k, ReadAction(r), e)
  {
    var route := RouteOf(r.verb, r.path);
    if route.None? {
      return Ok(None);
    }
    var words :- RouteWords(k, route.value, r);
    var message := HashMessage(k, KindOfRoute(route.value), words, e);
    digest := Ok(Some(k.hash([0x19 as char, 0x01 as char] + k.separator + k.hash(message))));
  }

  // ----- what one digest tells about two requests ----------------------------------------------

  lemma ActionTellsRoute(route: Route, r: Request, other: Route, s: Request)
    requires ReadRouted(route, r).Ok? && ReadRouted(route, r) == ReadRouted(other, s)
    ensures route == other
  {
    assert RouteFits(route, ReadRouted(route, r).value) && RouteFits(other, ReadRouted(other, s).value);
  }

  predicate RouteFits(route: Route, a: Action) {
    match route
    case PlaceOrder => a.Place?
    case PlaceOrders => a.Batch?
    case AmendOrder(id) => a.Amend? && a.orderId == id
    case CancelOrder(id) => a.Cancel? && a.orderId == id
    case CancelAllOrders => a.CancelAll?
    case AdjustMargin => a.Margin?
    case SetMarginMode => a.MarginMode?
    case SetLeverage => a.Leverage?
  }

  /** Two requests signed with one digest have the same route, order id included,
      the same action, account, domain, time and nonce, unless two of the strings
      hashed on the way collide. */
  lemma OneDigestOneRequest(k: Scheme, r: Request, e: Envelope, s: Request, f: Envelope)
    requires DistinctTypes(k) && e.Valid() && f.Valid()
    ensures var x, y := ReadAction(r), ReadAction(s);
            x.Ok? && x.value.Some? && Signed(k, x, e) == Signed(k, y, f) ==>
              || (x == y && e == f && RouteOf(r.verb, r.path) == RouteOf(s.verb, s.path))
              || Collision(k.hash, Hashed(k, x.value.value, e), Hashed(k, y.value.value, f))
  {
    var x, y := ReadAction(r), ReadAction(s);
    if x.Ok? && x.value.Some? && Signed(k, x, e) == Signed(k, y, f) {
      DigestDeterminesAction(k, x.value.value, e, y.value.value, f);
      if x == y {
        ActionTellsRoute(RouteOf(r.verb, r.path).value, r, RouteOf(s.verb, s.path).value, s);
      }
    }
  }

  /** Two single orders signed with one digest say the same in every field, up to
      what leaving a field out means. */
  lemma OneDigestOneOrder(k: Scheme, r: Request, e: Envelope, s: Request, f: Envelope, key: Key)
    requires DistinctTypes(k) && e.Valid() && f.Valid() && OrderKey(key)
    requires RouteOf(r.verb, r.path) == RouteOf(s.verb, s.path) == Some(PlaceOrder)
    ensures var x, y := ReadAction(r), ReadAction(s);
            x.Ok? && Signed(k, x, e) == Signed(k, y, f) ==>
              || Field(r.body.value.fields, key) == Field(s.body.value.fields, key)
              || Collision(k.hash, Hashed(k, x.value.value, e), Hashed(k, y.value.value, f))
  {
    OneDigestOneRequest(k, r, e, s, f);
    if ReadAction(r).Ok? && ReadAction(r) == ReadAction(s) {
      SameOrderIff(r.body.value.fields, s.body.value.fields);
    }
  }
}
