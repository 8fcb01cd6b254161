/** What is signed of a trading request is, member for member of the type it is signed
    under, what the request says under that member's name (`request_digest` in
    `src/auth/trading.rs`). */
module ActionData {
  import opened Common
  import opened Coding
  import opened TradingRequest
  import opened TradingDigest
  import opened TypeStrings
  import opened SigningActions
  import opened EncodeData

  // ----- where a member comes from -------------------------------------------------------------

  /** The envelope, a key of the body, the market in the query, the id in the path, the body
      as an order or as a list of orders. */
  datatype Source =
    | TheAccount | TheDomain | TheTime | TheNonce
    | FromBody(key: Key) | FromQuery | FromPath | OneOrder | ManyOrders

  function SourceMember(src: Source): Member {
    match src
    case TheAccount => Member("address", "account")
    case TheDomain => Member("string", "domain")
    case TheTime => Member("uint64", "timestampMs")
    case TheNonce => Member("uint64", "nonce")
    case FromBody(key) => KeyMember(key)
    case FromQuery => KeyMember(MarketKey)
    case FromPath => Member("string", "orderId")
    case OneOrder => Member("OrderParams", "order")
    case ManyOrders => Member("OrderParams[]", "orders")
  }

  function SourceMembers(srcs: seq<Source>): seq<Member> {
    seq(|srcs|, i requires 0 <= i < |srcs| => SourceMember(srcs[i]))
  }

  function KindSources(kind: Kind): seq<Source> {
    match kind
    case PlaceKind => [OneOrder]
    case BatchKind => [ManyOrders]
    case AmendKind => [FromQuery, FromPath, FromBody(PriceKey), FromBody(SizeKey)]
    case CancelKind => [FromQuery, FromPath]
    case CancelAllKind => [FromQuery]
    case MarginKind => [FromBody(MarketKey), FromBody(AmountKey), FromBody(DirectionKey)]
    case MarginModeKind => [FromBody(MarketKey), FromBody(MarginModeKey)]
    case LeverageKind => [FromBody(MarketKey), FromBody(LeverageKey)]
  }

  function Sources(kind: Kind): seq<Source> { [TheAccount, TheDomain] + KindSources(kind) + [TheTime, TheNonce] }

  // ----- the texts of the types ------------------------------------------------------------------

  predicate NamedAs(part: Bytes, src: Source) { Reads(part, SourceMember(src)) }

  lemma AccountNamed()
    ensures Names("address account", "address", "account") && Names("string domain", "string", "domain")
  {
  }

  lemma ClockNamed()
    ensures Names("uint64 timestampMs", "uint64", "timestampMs")
  {
  }

  lemma NonceNamed()
    ensures Names("uint64 nonce", "uint64", "nonce") && Names("string orderId", "string", "orderId")
  {
  }

  lemma OrdersNamed()
    ensures Names("OrderParams order", "OrderParams", "order")
  {
  }

  lemma BatchNamed()
    ensures Names("OrderParams[] orders", "OrderParams[]", "orders")
  {
  }

  lemma AmountsNamed()
    ensures Names("string size", "string", "size") && Names("string amount", "string", "amount")
  {
  }

  lemma DirectionNamed()
    ensures Names("string direction", "string", "direction")
  {
  }

  lemma ModeNamed()
    ensures Names("string marginMode", "string", "marginMode") && Names("uint32 leverage", "uint32", "leverage")
  {
  }

  lemma FewFrom(parts: seq<Bytes>, srcs: seq<Source>)
    requires |parts| == |srcs| <= 4
    requires |srcs| > 0 ==> NamedAs(parts[0], srcs[0])
    requires |srcs| > 1 ==> NamedAs(parts[1], srcs[1])
    requires |srcs| > 2 ==> NamedAs(parts[2], srcs[2])
    requires |srcs| > 3 ==> NamedAs(parts[3], srcs[3])
    ensures AllNamed(parts, SourceMembers(srcs))
  {
    var ms := SourceMembers(srcs);
    forall i | 0 <= i < |ms| ensures Reads(parts[i], ms[i]) { assert NamedAs(parts[i], srcs[i]); }
  }

  lemma MembersAppend(a: seq<Bytes>, b: seq<Bytes>, ss: seq<Source>, ts: seq<Source>)
    requires AllNamed(a, SourceMembers(ss)) && AllNamed(b, SourceMembers(ts))
    ensures AllNamed(a + b, SourceMembers(ss + ts))
  {
    var parts, ms := a + b, SourceMembers(ss + ts);
    forall i | 0 <= i < |ms| ensures Reads(parts[i], ms[i]) {
      if i < |a| {
        assert Reads(a[i], SourceMembers(ss)[i]);
      } else {
        assert Reads(b[i - |a|], SourceMembers(ts)[i - |a|]);
      }
    }
  }

  lemma SharedMembers()
    ensures AllNamed(["address account", "string domain"], SourceMembers([TheAccount, TheDomain]))
    ensures AllNamed(["uint64 timestampMs", "uint64 nonce"], SourceMembers([TheTime, TheNonce]))
  {
    AccountNamed();
    ClockNamed();
    NonceNamed();
    FewFrom(["address account", "string domain"], [TheAccount, TheDomain]);
    FewFrom(["uint64 timestampMs", "uint64 nonce"], [TheTime, TheNonce]);
  }

  lemma PlaceMembers()
    ensures AllNamed(KindMembers(PlaceKind), SourceMembers(KindSources(PlaceKind)))
  {
    OrdersNamed();
    FewFrom(KindMembers(PlaceKind), KindSources(PlaceKind));
  }

  lemma BatchMembers()
    ensures AllNamed(KindMembers(BatchKind), SourceMembers(KindSources(BatchKind)))
  {
    BatchNamed();
    FewFrom(KindMembers(BatchKind), KindSources(BatchKind));
  }

  lemma AmendMembers()
    ensures AllNamed(KindMembers(AmendKind), SourceMembers(KindSources(AmendKind)))
  {
    MarketNamed();
    NonceNamed();
    PriceNamed();
    AmountsNamed();
    FewFrom(KindMembers(AmendKind), KindSources(AmendKind));
  }

  lemma CancelMembers()
    ensures AllNamed(KindMembers(CancelKind), SourceMembers(KindSources(CancelKind)))
  {
    MarketNamed();
    NonceNamed();
    FewFrom(KindMembers(CancelKind), KindSources(CancelKind));
  }

  lemma CancelAllMembers()
    ensures AllNamed(KindMembers(CancelAllKind), SourceMembers(KindSources(CancelAllKind)))
  {
    MarketNamed();
    FewFrom(KindMembers(CancelAllKind), KindSources(CancelAllKind));
  }

  lemma MarginMembers()
    ensures AllNamed(KindMembers(MarginKind), SourceMembers(KindSources(MarginKind)))
  {
    MarketNamed();
    AmountsNamed();
    DirectionNamed();
    FewFrom(KindMembers(MarginKind), KindSources(MarginKind));
  }

  lemma MarginModeMembers()
    ensures AllNamed(KindMembers(MarginModeKind), SourceMembers(KindSources(MarginModeKind)))
  {
    MarketNamed();
    ModeNamed();
    FewFrom(KindMembers(MarginModeKind), KindSources(MarginModeKind));
  }

  lemma LeverageMembers()
    ensures AllNamed(KindMembers(LeverageKind), SourceMembers(KindSources(LeverageKind)))
  {
    MarketNamed();
    ModeNamed();
    FewFrom(KindMembers(LeverageKind), KindSources(LeverageKind));
  }

  lemma OwnMembers(kind: Kind)
    ensures AllNamed(KindMembers(kind), SourceMembers(KindSources(kind)))
  {
    match kind {
      case PlaceKind => PlaceMembers();
      case BatchKind => BatchMembers();
      case AmendKind => AmendMembers();
      case CancelKind => CancelMembers();
      case CancelAllKind => CancelAllMembers();
      case MarginKind => MarginMembers();
      case MarginModeKind => MarginModeMembers();
      case LeverageKind => LeverageMembers();
    }
  }

  lemma AllMembers(kind: Kind)
    ensures AllNamed(MembersOfKind(kind), SourceMembers(Sources(kind)))
  {
    SharedMembers();
    OwnMembers(kind);
    var head, own, tail := [TheAccount, TheDomain], KindSources(kind), [TheTime, TheNonce];
    MembersAppend(["address account", "string domain"], KindMembers(kind), head, own);
    MembersAppend(["address account", "string domain"] + KindMembers(kind), ["uint64 timestampMs", "uint64 nonce"],
                  head + own, tail);
  }

  function TypeOf(kind: Kind): Bytes { KindName(kind) + ['('] + KindTail(kind) }

  /** The text of each type lists, by kind and name, what its request is asked for. */
  lemma TypeReads(kind: Kind)
    ensures MembersOf(TypeOf(kind)) == SourceMembers(Sources(kind))
  {
    AllMembers(kind);
    NamesDiffer(kind, kind);
    var rest := if kind.PlaceKind? || kind.BatchKind? then OrderParams() else "";
    assert KindTail(kind) == Listed(MembersOfKind(kind)) + [')'] + rest;
    MembersReadBack(KindName(kind), MembersOfKind(kind), SourceMembers(Sources(kind)), rest);
  }

  // ----- the words -----------------------------------------------------------------------------

  function FieldsOf(j: Option<Json>): Fields { if j.Some? && j.value.Object? then j.value.fields else map[] }

  function ItemsOf(j: Option<Json>): seq<Json> { if j.Some? && j.value.Array? then j.value.items else [] }

  function PathId(route: Route): Bytes {
    match route
    case AmendOrder(id) => id
    case CancelOrder(id) => id
    case _ => ""
  }

  /** The struct hashes of the orders of a list, each given by `order`. */
  function OrderStructs(order: Fields -> Word, items: seq<Json>): seq<Word> {
    seq(|items|, i requires 0 <= i < |items| => StructOf(order, items[i]))
  }

  function StructOf(order: Fields -> Word, item: Json): Word { order(FieldsOf(Some(item))) }

  /** The word of what a request says: a text is hashed, an address and a number are padded,
      an order is its struct hash and a list of orders the hash of theirs. */
  function SourceWord(h: Hash, order: Fields -> Word, src: Source, r: Request, route: Route, e: Envelope): Word
    requires e.Valid()
  {
    match src
    case TheAccount => AddressWord(e.account)
    case TheDomain => h(e.domain)
    case TheTime => U256(e.timestampMs)
    case TheNonce => U256(e.nonce)
    case FromBody(key) => ValueWord(h, KindOfKey(key), Field(FieldsOf(r.body), key))
    case FromQuery => h(OrEmpty(Market(r.query)))
    case FromPath => h(PathId(route))
    case OneOrder => order(FieldsOf(r.body))
    case ManyOrders => h(Concat(OrderStructs(order, ItemsOf(r.body))))
  }

  function SourceWords(h: Hash, order: Fields -> Word, srcs: seq<Source>, r: Request, route: Route, e: Envelope)
    : seq<Word>
    requires e.Valid()
  {
    seq(|srcs|, i requires 0 <= i < |srcs| => SourceWord(h, order, srcs[i], r, route, e))
  }

  /** `order` gives the struct hash of every order that can be read. */
  ghost predicate HashesOrders(k: Scheme, order: Fields -> Word) {
    forall fields :: ReadOrder(fields).Ok? ==> OrderHash(k, ReadOrder(fields).value) == order(fields)
  }

  lemma SourceWordsAppend(h: Hash, order: Fields -> Word, a: seq<Source>, b: seq<Source>, r: Request, route: Route,
                          e: Envelope)
    requires e.Valid()
    ensures SourceWords(h, order, a + b, r, route, e)
         == SourceWords(h, order, a, r, route, e) + SourceWords(h, order, b, r, route, e)
  {
  }

  lemma TextField(h: Hash, fields: Fields, key: Key)
    requires !key.ReduceOnlyKey? && !key.LeverageKey?
    ensures var word := ValueWord(h, KindOfKey(key), Field(fields, key));
            && (RequiredText(fields, key).Ok? ==> word == h(RequiredText(fields, key).value))
            && (OptionalText(fields, key).Ok? ==> word == h(OrEmpty(OptionalText(fields, key).value)))
  {
    KindIsText(key);
  }

  lemma LeverageField(h: Hash, fields: Fields)
    requires OptionalCount(fields, LeverageKey).Ok? && OptionalCount(fields, LeverageKey).value.Some?
    ensures ValueWord(h, KindOfKey(LeverageKey), Field(fields, LeverageKey))
         == U256(OptionalCount(fields, LeverageKey).value.value)
  {
    KindIsText(LeverageKey);
  }

  lemma BatchFollows(k: Scheme, order: Fields -> Word, items: seq<Json>)
    requires HashesOrders(k, order) && ReadOrders(items).Ok?
    ensures OrderHashes(k, ReadOrders(items).value) == OrderStructs(order, items)
  {
    forall i | 0 <= i < |items|
      ensures OrderHash(k, ReadOrders(items).value[i]) == StructOf(order, items[i])
    {
      assert ReadEntry(items[i]) == Ok(ReadOrders(items).value[i]);
      assert ReadOrder(FieldsOf(Some(items[i]))) == ReadEntry(items[i]);
    }
  }

  /** The words signed for a route are those of its sources. */
  ghost predicate Follows(k: Scheme, order: Fields -> Word, route: Route, r: Request, e: Envelope)
    requires e.Valid()
  {
    ReadRouted(route, r).Ok? ==>
      ActionWords(k, ReadRouted(route, r).value)
      == SourceWords(k.hash, order, KindSources(KindOfRoute(route)), r, route, e)
  }

  lemma CancelFollows(k: Scheme, order: Fields -> Word, route: Route, r: Request, e: Envelope)
    requires e.Valid() && (route.CancelOrder? || route.CancelAllOrders?)
    ensures Follows(k, order, route, r, e)
  {
  }

  lemma OrdersFollow(k: Scheme, order: Fields -> Word, route: Route, r: Request, e: Envelope)
    requires e.Valid() && HashesOrders(k, order) && (route.PlaceOrder? || route.PlaceOrders?)
    ensures Follows(k, order, route, r, e)
  {
    if route.PlaceOrders? && ReadRouted(route, r).Ok? { BatchFollows(k, order, ItemsOf(r.body)); }
  }

  lemma AmendFollows(k: Scheme, order: Fields -> Word, route: Route, r: Request, e: Envelope)
    requires e.Valid() && route.AmendOrder?
    ensures Follows(k, order, route, r, e)
  {
    TextField(k.hash, FieldsOf(r.body), PriceKey);
    TextField(k.hash, FieldsOf(r.body), SizeKey);
  }

  lemma MarginFollows(k: Scheme, order: Fields -> Word, route: Route, r: Request, e: Envelope)
    requires e.Valid() && (route.AdjustMargin? || route.SetMarginMode?)
    ensures Follows(k, order, route, r, e)
  {
    TextField(k.hash, FieldsOf(r.body), MarketKey);
    TextField(k.hash, FieldsOf(r.body), AmountKey);
    TextField(k.hash, FieldsOf(r.body), DirectionKey);
    TextField(k.hash, FieldsOf(r.body), MarginModeKey);
  }

  lemma LeverageFollows(k: Scheme, order: Fields -> Word, route: Route, r: Request, e: Envelope)
    requires e.Valid() && route.SetLeverage?
    ensures Follows(k, order, route, r, e)
  {
    if ReadRouted(route, r).Ok? {
      TextField(k.hash, FieldsOf(r.body), MarketKey);
      LeverageField(k.hash, FieldsOf(r.body));
    }
  }

  lemma OwnWordsFollow(k: Scheme, order: Fields -> Word, route: Route, r: Request, e: Envelope)
    requires e.Valid() && HashesOrders(k, order)
    ensures Follows(k, order, route, r, e)
  {
    match route {
      case CancelOrder(_) => CancelFollows(k, order, route, r, e);
      case CancelAllOrders => CancelFollows(k, order, route, r, e);
      case PlaceOrder => OrdersFollow(k, order, route, r, e);
      case PlaceOrders => OrdersFollow(k, order, route, r, e);
      case AmendOrder(_) => AmendFollows(k, order, route, r, e);
      case SetLeverage => LeverageFollows(k, order, route, r, e);
      case AdjustMargin => MarginFollows(k, order, route, r, e);
      case SetMarginMode => MarginFollows(k, order, route, r, e);
    }
  }

  lemma ActionIsRouted(r: Request)
    requires RouteOf(r.verb, r.path).Some? && ReadAction(r).Ok?
    ensures ReadRouted(RouteOf(r.verb, r.path).value, r) == Ok(ReadAction(r).value.value)
    ensures KindOf(ReadAction(r).value.value) == KindOfRoute(RouteOf(r.verb, r.path).value)
  {
    assert RouteFits(RouteOf(r.verb, r.path).value, ReadAction(r).value.value);
  }

  lemma MessageFollows(k: Scheme, order: Fields -> Word, route: Route, r: Request, e: Envelope, words: seq<Word>)
    requires e.Valid() && words == SourceWords(k.hash, order, KindSources(KindOfRoute(route)), r, route, e)
    ensures MessageOf(k, KindOfRoute(route), words, e)
         == Concat([k.hash(k.typeOf(KindOfRoute(route)))]
                   + SourceWords(k.hash, order, Sources(KindOfRoute(route)), r, route, e))
  {
    var h, own := k.hash, KindSources(KindOfRoute(route));
    SourceWordsAppend(h, order, [TheAccount, TheDomain], own, r, route, e);
    SourceWordsAppend(h, order, [TheAccount, TheDomain] + own, [TheTime, TheNonce], r, route, e);
    assert SourceWords(h, order, [TheAccount, TheDomain], r, route, e) == [AddressWord(e.account), h(e.domain)];
    assert SourceWords(h, order, [TheTime, TheNonce], r, route, e) == [U256(e.timestampMs)] + [U256(e.nonce)];
    Regrouped(h(k.typeOf(KindOfRoute(route))), AddressWord(e.account), h(e.domain), words, U256(e.timestampMs),
              U256(e.nonce));
  }

  lemma Regrouped(t: Word, a: Word, d: Word, words: seq<Word>, x: Word, y: Word)
    ensures [t, a, d] + words + [x] + [y] == [t] + ([a, d] + words + ([x] + [y]))
  {
  }

  /** With any scheme, the digest of a request is that of the struct of its sources. */
  lemma DigestFollows(k: Scheme, order: Fields -> Word, r: Request, e: Envelope)
    requires e.Valid() && HashesOrders(k, order) && RouteOf(r.verb, r.path).Some? && ReadAction(r).Ok?
    ensures var route := RouteOf(r.verb, r.path).value;
            var kind := KindOfRoute(route);
            DigestOf(k, ReadAction(r).value.value, e)
              == k.hash([0x19 as char, 0x01 as char] + k.separator
                        + k.hash(Concat([k.hash(k.typeOf(kind))]
                                        + SourceWords(k.hash, order, Sources(kind), r, route, e))))
  {
    var route, a := RouteOf(r.verb, r.path).value, ReadAction(r).value.value;
    ActionIsRouted(r);
    OwnWordsFollow(k, order, route, r, e);
    MessageFollows(k, order, route, r, e, ActionWords(k, a));
  }

  /** The digest of a trading request is that of EIP-712 for the type of its action: of the
      domain and of a struct whose i-th word is what the request says under the name of the
      type's i-th member, encoded as its kind asks. */
  lemma DigestFollowsTheType(h: Hash, r: Request, e: Envelope)
    requires e.Valid() && RouteOf(r.verb, r.path).Some? && ReadAction(r).Ok?
    ensures var route, order := RouteOf(r.verb, r.path).value, (fields: Fields) => OrderStruct(h, fields);
            var kind := KindOfRoute(route);
            && MembersOf(TypeOf(kind)) == SourceMembers(Sources(kind))
            && DigestOf(NexusScheme(h), ReadAction(r).value.value, e)
                 == h([0x19 as char, 0x01 as char] + DomainSeparator(h)
                      + h(Concat([h(TypeOf(kind))] + SourceWords(h, order, Sources(kind), r, route, e))))
  {
    var order := (fields: Fields) => OrderStruct(h, fields);
    var kind := KindOfRoute(RouteOf(r.verb, r.path).value);
    TypeReads(kind);
    forall fields | ReadOrder(fields).Ok?
      ensures OrderHash(NexusScheme(h), ReadOrder(fields).value) == order(fields)
    {
      OrderFollowsItsType(h, fields);
    }
    DigestFollows(NexusScheme(h), order, r, e);
    SchemeIsNexus(h, kind);
  }

  lemma SchemeIsNexus(h: Hash, kind: Kind)
    ensures var k := NexusScheme(h);
            k.hash == h && k.separator == DomainSeparator(h) && k.typeOf(kind) == TypeOf(kind)
  {
  }

  // ----- the domain --------------------------------------------------------------------------------

  lemma DomainNamed()
    ensures Names("string name", "string", "name") && Names("string version", "string", "version")
  {
  }

  lemma ChainNamed()
    ensures Names("uint256 chainId", "uint256", "chainId") && '(' !in "EIP712Domain"
  {
  }

  lemma DomainTypeReads()
    ensures MembersOf(DomainType())
         == [Member("string", "name"), Member("string", "version"), Member("uint256", "chainId")]
  {
    var ms := [Member("string", "name"), Member("string", "version"), Member("uint256", "chainId")];
    DomainNamed();
    ChainNamed();
    ThreeNamed(DomainMembers(), ms);
    ClosedReadsBack("EIP712Domain", DomainMembers(), ms);
  }

  /** What the domain is called, for a member of its type. */
  function DomainWord(h: Hash, name: Bytes): Word {
    if name == "name" then h("Nexus Exchange") else if name == "version" then h("1") else U256(20056)
  }

  /** The domain is signed under its type too: name, version and chain, in that order. */
  lemma DomainFollowsItsType(h: Hash)
    ensures |MembersOf(DomainType())| == 3
    ensures DomainSeparator(h)
         == h(Concat([h(DomainType()), DomainWord(h, MembersOf(DomainType())[0].name),
                      DomainWord(h, MembersOf(DomainType())[1].name), DomainWord(h, MembersOf(DomainType())[2].name)]))
  {
    DomainTypeReads();
    DomainNamesDiffer();
  }

  lemma DomainNamesDiffer()
    ensures "version" != "name" && "chainId" != "name" && "chainId" != "version"
  {
    assert |"version"| != |"name"| && |"chainId"| != |"name"| && "chainId"[0] != "version"[0];
  }

  lemma ThreeNamed(parts: seq<Bytes>, ms: seq<Member>)
    requires |parts| == |ms| == 3 && Reads(parts[0], ms[0]) && Reads(parts[1], ms[1]) && Reads(parts[2], ms[2])
    ensures AllNamed(parts, ms)
  {
  }
}
