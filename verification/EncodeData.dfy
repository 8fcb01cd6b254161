/** What is signed follows the type it is signed under (`request_digest`, `order_hash` and
    the type texts in `src/auth/trading.rs`), member by member, as EIP-712 asks under
    "Definition of encodeData". */
module EncodeData {
  import opened Common
  import opened Coding
  import opened Text
  import opened TradingRequest
  import opened TradingDigest
  import opened TypeStrings
  import opened SigningActions

  // ----- reading a type --------------------------------------------------------------------

  datatype Member = Member(kind: Bytes, name: Bytes)

  function ReadMember(part: Bytes): Member {
    var i := Find(part, ' ');
    Member(part[..i], if i < |part| then part[i + 1..] else [])
  }

  /** The members a type text lists between its first parentheses. */
  function MembersOf(text: Bytes): seq<Member> {
    var from := Find(text, '(');
    if from == |text| then []
    else
      var inner := text[from + 1..];
      var parts := Segments(inner[..Find(inner, ')')], ',');
      seq(|parts|, i requires 0 <= i < |parts| => ReadMember(parts[i]))
  }

  /** One member: a kind and a name, which hold none of the characters that separate them. */
  predicate Names(part: Bytes, kind: Bytes, name: Bytes) {
    part == kind + [' '] + name && Inside(kind) && Inside(name)
  }

  predicate Inside(s: Bytes) { forall i :: 0 <= i < |s| ==> s[i] != ' ' && s[i] != ',' && s[i] != ')' }

  lemma MemberReads(part: Bytes, kind: Bytes, name: Bytes)
    requires Names(part, kind, name)
    ensures ReadMember(part) == Member(kind, name) && ',' !in part && ')' !in part && part != []
  {
    FindSkips(kind, ' ', name);
    assert part[..|kind|] == kind && part[|kind| + 1..] == name;
  }

  predicate Reads(part: Bytes, m: Member) { Names(part, m.kind, m.name) }

  ghost predicate AllNamed(parts: seq<Bytes>, ms: seq<Member>) {
    |parts| == |ms| && forall i :: 0 <= i < |ms| ==> Reads(parts[i], ms[i])
  }

  lemma {:induction false} ListReadsBack(parts: seq<Bytes>)
    requires forall i :: 0 <= i < |parts| ==> parts[i] != [] && ',' !in parts[i] && ')' !in parts[i]
    ensures Segments(Listed(parts), ',') == parts && ')' !in Listed(parts)
  {
    if |parts| == 1 {
      OneSegment(parts[0], ',');
    } else if parts != [] {
      var one, rest := parts[0], parts[1..];
      ListReadsBack(rest);
      OneSegment(one, ',');
      SegmentsSplit(one, Listed(rest), ',');
      assert parts == [one] + rest;
    }
  }

  /** A type that lists them reads back as just these members. */
  lemma MembersReadBack(name: Bytes, parts: seq<Bytes>, ms: seq<Member>, rest: Bytes)
    requires '(' !in name && AllNamed(parts, ms)
    ensures MembersOf(name + ['('] + (Listed(parts) + [')'] + rest)) == ms
  {
    var inner := Listed(parts) + [')'] + rest;
    var text := name + ['('] + inner;
    forall i | 0 <= i < |parts|
      ensures ReadMember(parts[i]) == ms[i] && parts[i] != [] && ',' !in parts[i] && ')' !in parts[i]
    {
      assert Reads(parts[i], ms[i]);
      MemberReads(parts[i], ms[i].kind, ms[i].name);
    }
    ListReadsBack(parts);
    FindSkips(name, '(', inner);
    FindSkips(Listed(parts), ')', rest);
    assert text[|name| + 1..] == inner && inner[..|Listed(parts)|] == Listed(parts);
  }

  // ----- the members of the nine types ------------------------------------------------------------

  /** What a type calls a key of the body. */
  function NameOf(key: Key): Bytes {
    match key
    case MarketKey => "marketId"
    case SideKey => "side"
    case OrderTypeKey => "orderType"
    case PriceKey => "price"
    case QuantityKey => "quantity"
    case TimeInForceKey => "timeInForce"
    case ReduceOnlyKey => "reduceOnly"
    case StopPriceKey => "stopPrice"
    case TriggerPriceKey => "triggerPrice"
    case TrailingOffsetKey => "trailingOffsetBps"
    case LimitOffsetKey => "limitOffsetBps"
    case StpKey => "stp"
    case ClientIdKey => "clientId"
    case MaxSlippageKey => "maxSlippageBps"
    case SizeKey => "size"
    case AmountKey => "amount"
    case DirectionKey => "direction"
    case MarginModeKey => "marginMode"
    case LeverageKey => "leverage"
    case OtherKey(name) => name
  }

  function KindOfKey(key: Key): Bytes {
    match key
    case ReduceOnlyKey => "bool"
    case LeverageKey => "uint32"
    case _ => "string"
  }

  function KeyMember(key: Key): Member { Member(KindOfKey(key), NameOf(key)) }

  function KeyMembers(keys: seq<Key>): seq<Member> {
    seq(|keys|, i requires 0 <= i < |keys| => KeyMember(keys[i]))
  }

  predicate NamedFor(part: Bytes, key: Key) { Reads(part, KeyMember(key)) }

  lemma MarketNamed()
    ensures Names("string marketId", "string", "marketId")
  {
  }

  lemma SideNamed()
    ensures Names("string side", "string", "side")
    ensures Names("string orderType", "string", "orderType")
  {
  }

  lemma PriceNamed()
    ensures Names("string price", "string", "price")
    ensures Names("string quantity", "string", "quantity")
  {
  }

  lemma TimeNamed()
    ensures Names("string timeInForce", "string", "timeInForce")
  {
  }

  lemma FlagNamed()
    ensures Names("bool reduceOnly", "bool", "reduceOnly")
  {
  }

  lemma StopNamed()
    ensures Names("string stopPrice", "string", "stopPrice")
  {
  }

  lemma TriggerNamed()
    ensures Names("string triggerPrice", "string", "triggerPrice")
  {
  }

  lemma TrailingNamed()
    ensures Names("string trailingOffsetBps", "string", "trailingOffsetBps")
  {
  }

  lemma LimitNamed()
    ensures Names("string limitOffsetBps", "string", "limitOffsetBps")
  {
  }

  lemma StpNamed()
    ensures Names("string stp", "string", "stp")
    ensures Names("string clientId", "string", "clientId")
  {
  }

  lemma SlippageNamed()
    ensures Names("string maxSlippageBps", "string", "maxSlippageBps")
  {
  }

  lemma FewNamed(parts: seq<Bytes>, keys: seq<Key>)
    requires |parts| == |keys| <= 4
    requires |keys| > 0 ==> NamedFor(parts[0], keys[0])
    requires |keys| > 1 ==> NamedFor(parts[1], keys[1])
    requires |keys| > 2 ==> NamedFor(parts[2], keys[2])
    requires |keys| > 3 ==> NamedFor(parts[3], keys[3])
    ensures AllNamed(parts, KeyMembers(keys))
  {
    var ms := KeyMembers(keys);
    forall i | 0 <= i < |ms| ensures Reads(parts[i], ms[i]) { assert NamedFor(parts[i], keys[i]); }
  }

  lemma NamedAppend(a: seq<Bytes>, b: seq<Bytes>, ks: seq<Key>, ls: seq<Key>)
    requires AllNamed(a, KeyMembers(ks)) && AllNamed(b, KeyMembers(ls))
    ensures AllNamed(a + b, KeyMembers(ks + ls))
  {
    var parts, ms := a + b, KeyMembers(ks + ls);
    forall i | 0 <= i < |ms| ensures Reads(parts[i], ms[i]) {
      if i < |a| {
        assert Reads(a[i], KeyMembers(ks)[i]);
      } else {
        assert Reads(b[i - |a|], KeyMembers(ls)[i - |a|]);
      }
    }
  }

  /** The keys of an order body, in the order of the type. */
  function HeadKeys(): seq<Key> { [MarketKey, SideKey, OrderTypeKey] }

  function TermKeys(): seq<Key> { [PriceKey, QuantityKey, TimeInForceKey, ReduceOnlyKey] }

  function TriggerKeys(): seq<Key> { [StopPriceKey, TriggerPriceKey] }

  function OffsetKeys(): seq<Key> { [TrailingOffsetKey, LimitOffsetKey] }

  function RestKeys(): seq<Key> { [StpKey, ClientIdKey, MaxSlippageKey] }

  function OrderKeys(): seq<Key> { HeadKeys() + TermKeys() + TriggerKeys() + OffsetKeys() + RestKeys() }

  lemma HeadMembers()
    ensures AllNamed(OrderHead(), KeyMembers(HeadKeys()))
  {
    MarketNamed();
    SideNamed();
    FewNamed(OrderHead(), HeadKeys());
  }

  lemma TermMembers()
    ensures AllNamed(OrderTerms(), KeyMembers(TermKeys()))
  {
    PriceNamed();
    TimeNamed();
    FlagNamed();
    FewNamed(OrderTerms(), TermKeys());
  }

  lemma TriggerMembers()
    ensures AllNamed(OrderTriggers(), KeyMembers(TriggerKeys()))
  {
    StopNamed();
    TriggerNamed();
    FewNamed(OrderTriggers(), TriggerKeys());
  }

  lemma OffsetMembers()
    ensures AllNamed(OrderOffsets(), KeyMembers(OffsetKeys()))
  {
    TrailingNamed();
    LimitNamed();
    FewNamed(OrderOffsets(), OffsetKeys());
  }

  lemma RestMembers()
    ensures AllNamed(OrderRest(), KeyMembers(RestKeys()))
  {
    StpNamed();
    SlippageNamed();
    FewNamed(OrderRest(), RestKeys());
  }

  lemma FiveNamed(a: seq<Bytes>, b: seq<Bytes>, c: seq<Bytes>, d: seq<Bytes>, e: seq<Bytes>, ks: seq<Key>, ls: seq<Key>,
                  ms: seq<Key>, ns: seq<Key>, os: seq<Key>)
    requires AllNamed(a, KeyMembers(ks)) && AllNamed(b, KeyMembers(ls)) && AllNamed(c, KeyMembers(ms))
    requires AllNamed(d, KeyMembers(ns)) && AllNamed(e, KeyMembers(os))
    ensures AllNamed(a + b + c + d + e, KeyMembers(ks + ls + ms + ns + os))
  {
    NamedAppend(a, b, ks, ls);
    NamedAppend(a + b, c, ks + ls, ms);
    NamedAppend(a + b + c, d, ks + ls + ms, ns);
    NamedAppend(a + b + c + d, e, ks + ls + ms + ns, os);
  }

  lemma OrderMembersAreNamed()
    ensures AllNamed(OrderMembers(), KeyMembers(OrderKeys()))
  {
    HeadMembers();
    TermMembers();
    TriggerMembers();
    OffsetMembers();
    RestMembers();
    FiveNamed(OrderHead(), OrderTerms(), OrderTriggers(), OrderOffsets(), OrderRest(),
              HeadKeys(), TermKeys(), TriggerKeys(), OffsetKeys(), RestKeys());
  }

  lemma ClosedReadsBack(name: Bytes, parts: seq<Bytes>, ms: seq<Member>)
    requires '(' !in name && AllNamed(parts, ms)
    ensures MembersOf(name + ['('] + (Listed(parts) + [')'])) == ms
  {
    assert Listed(parts) + [')'] + [] == Listed(parts) + [')'];
    MembersReadBack(name, parts, ms, []);
  }

  lemma OrderNameIsAName()
    ensures '(' !in "OrderParams"
  {
  }

  /** The text of an order's type lists the keys of its body, each under its name. */
  lemma OrderTypeReads()
    ensures MembersOf(OrderParams()) == KeyMembers(OrderKeys())
  {
    OrderMembersAreNamed();
    OrderNameIsAName();
    ClosedReadsBack("OrderParams", OrderMembers(), KeyMembers(OrderKeys()));
  }

  // ----- the words of an order ------------------------------------------------------------------

  /** A field as a text: left out or null it is "", and a count is its decimal digits. */
  function AsText(j: Json): Bytes {
    match j
    case Text(text) => text
    case Whole(n) => Decimal(n)
    case _ => ""
  }

  function AsNumber(j: Json): nat {
    match j
    case Bool(flag) => if flag then 1 else 0
    case Whole(n) => n
    case _ => 0
  }

  /** A text is encoded as its hash, and a number as it is. */
  function ValueWord(h: Hash, kind: Bytes, j: Json): Word {
    if kind == "string" then h(AsText(j)) else U256(AsNumber(j))
  }

  /** The words of a body, given the members of its type and the key of each. */
  function BodyWords(h: Hash, ms: seq<Member>, keys: seq<Key>, fields: Fields): seq<Word> {
    seq(|keys|, i requires 0 <= i < |keys| =>
      ValueWord(h, if i < |ms| then ms[i].kind else "", Field(fields, keys[i])))
  }

  lemma KindIsText(key: Key)
    ensures KindOfKey(key) == "string" <==> !key.ReduceOnlyKey? && !key.LeverageKey?
  {
    assert |"string"| != |"bool"|;
    assert "string"[0] != "uint32"[0];
  }

  function ShownWord(h: Hash, o: Order, key: Key): Word
    requires OrderKey(key)
  {
    if key.ReduceOnlyKey? then U256(AsNumber(Shown(o, key))) else h(AsText(Shown(o, key)))
  }

  lemma FieldIsShown(h: Hash, fields: Fields, key: Key)
    requires ReadOrder(fields).Ok? && OrderKey(key)
    ensures ValueWord(h, KindOfKey(key), Field(fields, key)) == ShownWord(h, ReadOrder(fields).value, key)
  {
    KindIsText(key);
    OrderSaysWhatTheBodySays(fields, key);
  }

  predicate AllOrderKeys(keys: seq<Key>) { forall i :: 0 <= i < |keys| ==> OrderKey(keys[i]) }

  function ShownWords(h: Hash, o: Order, keys: seq<Key>): seq<Word>
    requires AllOrderKeys(keys)
  {
    seq(|keys|, i requires 0 <= i < |keys| => ShownWord(h, o, keys[i]))
  }

  lemma OptionalTextsShow(text: Option<Bytes>, count: Option<nat>)
    ensures AsText(TextJson(text)) == OrEmpty(text) && AsText(CountJson(count)) == CountText(count)
  {
  }

  lemma FirstWordsShow(h: Hash, o: Order)
    ensures ShownWords(h, o, HeadKeys()) == [h(o.marketId), h(o.side), h(o.orderType)]
    ensures ShownWords(h, o, TermKeys())
         == [h(OrEmpty(o.price)), h(o.quantity), h(o.timeInForce), U256(Bit(o.reduceOnly))]
  {
    OptionalTextsShow(o.price, None);
  }

  lemma LaterWordsShow(h: Hash, o: Order)
    ensures ShownWords(h, o, TriggerKeys()) == [h(OrEmpty(o.stopPrice)), h(OrEmpty(o.triggerPrice))]
    ensures ShownWords(h, o, OffsetKeys()) == [h(CountText(o.trailingOffsetBps)), h(CountText(o.limitOffsetBps))]
  {
    OptionalTextsShow(o.stopPrice, o.trailingOffsetBps);
    OptionalTextsShow(o.triggerPrice, o.limitOffsetBps);
  }

  lemma LastWordsShow(h: Hash, o: Order)
    ensures ShownWords(h, o, RestKeys())
         == [h(OrEmpty(o.stp)), h(OrEmpty(o.clientId)), h(CountText(o.maxSlippageBps))]
  {
    OptionalTextsShow(o.stp, o.maxSlippageBps);
    OptionalTextsShow(o.clientId, None);
  }

  lemma ShownAppend(h: Hash, o: Order, a: seq<Key>, b: seq<Key>)
    requires AllOrderKeys(a) && AllOrderKeys(b)
    ensures AllOrderKeys(a + b) && ShownWords(h, o, a + b) == ShownWords(h, o, a) + ShownWords(h, o, b)
  {
  }

  lemma FiveShown(h: Hash, o: Order, a: seq<Key>, b: seq<Key>, c: seq<Key>, d: seq<Key>, e: seq<Key>)
    requires AllOrderKeys(a) && AllOrderKeys(b) && AllOrderKeys(c) && AllOrderKeys(d) && AllOrderKeys(e)
    ensures AllOrderKeys(a + b + c + d + e)
    ensures ShownWords(h, o, a + b + c + d + e)
         == ShownWords(h, o, a) + ShownWords(h, o, b) + ShownWords(h, o, c) + ShownWords(h, o, d) + ShownWords(h, o, e)
  {
    ShownAppend(h, o, a, b);
    ShownAppend(h, o, a + b, c);
    ShownAppend(h, o, a + b + c, d);
    ShownAppend(h, o, a + b + c + d, e);
  }

  lemma FiveLists(w: seq<Word>)
    requires |w| == 14
    ensures w == [w[0], w[1], w[2]] + [w[3], w[4], w[5], w[6]] + [w[7], w[8]] + [w[9], w[10]] + [w[11], w[12], w[13]]
  {
  }

  lemma WovenParts(h: Hash, o: Order)
    ensures Woven(h, OrderTexts(o), U256(Bit(o.reduceOnly)))
         == [h(o.marketId), h(o.side), h(o.orderType)]
            + [h(OrEmpty(o.price)), h(o.quantity), h(o.timeInForce), U256(Bit(o.reduceOnly))]
            + [h(OrEmpty(o.stopPrice)), h(OrEmpty(o.triggerPrice))]
            + [h(CountText(o.trailingOffsetBps)), h(CountText(o.limitOffsetBps))]
            + [h(OrEmpty(o.stp)), h(OrEmpty(o.clientId)), h(CountText(o.maxSlippageBps))]
  {
    WordsOfTexts(h, OrderTexts(o), U256(Bit(o.reduceOnly)));
    FiveLists(Woven(h, OrderTexts(o), U256(Bit(o.reduceOnly))));
  }

  lemma KeysAreOrderKeys()
    ensures AllOrderKeys(OrderKeys())
  {
  }

  lemma WovenIsShown(h: Hash, o: Order)
    ensures Woven(h, OrderTexts(o), U256(Bit(o.reduceOnly))) == ShownWords(h, o, OrderKeys())
  {
    WovenParts(h, o);
    FirstWordsShow(h, o);
    LaterWordsShow(h, o);
    LastWordsShow(h, o);
    FiveShown(h, o, HeadKeys(), TermKeys(), TriggerKeys(), OffsetKeys(), RestKeys());
  }

  /** The struct hash of an order body: its type, and each member of that type under the key
      of its name. */
  function OrderStruct(h: Hash, fields: Fields): Word {
    h(Concat([h(OrderParams())] + BodyWords(h, MembersOf(OrderParams()), OrderKeys(), fields)))
  }

  lemma BodyIsShown(h: Hash, fields: Fields, keys: seq<Key>)
    requires ReadOrder(fields).Ok? && AllOrderKeys(keys)
    ensures BodyWords(h, KeyMembers(keys), keys, fields) == ShownWords(h, ReadOrder(fields).value, keys)
  {
    forall i | 0 <= i < |keys|
      ensures ValueWord(h, KeyMember(keys[i]).kind, Field(fields, keys[i]))
           == ShownWord(h, ReadOrder(fields).value, keys[i])
    {
      FieldIsShown(h, fields, keys[i]);
    }
  }

  /** What is hashed of an order is, member for member of its type, what the body says under
      the key of that name. */
  lemma OrderFollowsItsType(h: Hash, fields: Fields)
    requires ReadOrder(fields).Ok?
    ensures |MembersOf(OrderParams())| == |OrderKeys()|
    ensures OrderHash(NexusScheme(h), ReadOrder(fields).value) == OrderStruct(h, fields)
    ensures forall i :: 0 <= i < |OrderKeys()| ==> MembersOf(OrderParams())[i].name == NameOf(OrderKeys()[i])
  {
    OrderTypeReads();
    KeysAreOrderKeys();
    WovenIsShown(h, ReadOrder(fields).value);
    BodyIsShown(h, fields, OrderKeys());
  }
}
