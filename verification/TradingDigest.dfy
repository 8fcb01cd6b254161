/** The EIP-712 digest of a trading action (`request_digest` and `order_hash` in
    `src/auth/trading.rs`). Keccak-256 is a parameter about which nothing is
    assumed: two requests with one digest either ask for the same thing, or two
    different strings hashed on the way have the same hash. */
module TradingDigest {
  import opened Common
  import opened Coding
  import opened Text
  import opened TradingRequest

  type Word = w: Bytes | |w| == 32 witness seq(32, _ => '\0')

  type Hash = Bytes -> Word

  datatype Kind =
    | PlaceKind | BatchKind | AmendKind | CancelKind | CancelAllKind | MarginKind | MarginModeKind | LeverageKind

  /** What the digest is built with: the hash, the domain separator, the type of
      each struct and the type of the order inside one. */
  datatype Scheme = Scheme(hash: Hash, separator: Word, typeOf: Kind -> Bytes, orderType: Bytes)

  ghost predicate DistinctTypes(s: Scheme) { forall k, l :: s.typeOf(k) == s.typeOf(l) ==> k == l }

  datatype Envelope = Envelope(account: Bytes, domain: Bytes, timestampMs: nat, nonce: nat) {
    predicate Valid() { |account| == 20 && timestampMs < 0x1_0000_0000_0000_0000 && nonce < 0x1_0000_0000_0000_0000 }
  }

  // ----- words ---------------------------------------------------------------------------------

  function BigEndian(n: nat, size: nat): (bytes: Bytes)
    ensures |bytes| == size
  {
    if size == 0 then [] else BigEndian(n / 256, size - 1) + [(n % 256) as char]
  }

  function Zeros(n: nat): (bytes: Bytes)
    ensures |bytes| == n
  {
    seq(n, _ => '\0')
  }

  function U256(n: nat): Word { Zeros(24) + BigEndian(n, 8) }

  function AddressWord(account: Bytes): Word
    requires |account| == 20
  {
    Zeros(12) + account
  }

  function Power256(k: nat): nat { if k == 0 then 1 else 256 * Power256(k - 1) }

  lemma {:induction false} BigEndianIsInjective(m: nat, n: nat, size: nat)
    requires m < Power256(size) && n < Power256(size) && BigEndian(m, size) == BigEndian(n, size)
    ensures m == n
  {
    if size > 0 {
      var a, b := BigEndian(m / 256, size - 1), BigEndian(n / 256, size - 1);
      assert BigEndian(m, size)[..size - 1] == a && BigEndian(n, size)[..size - 1] == b;
      assert BigEndian(m, size)[size - 1] == (m % 256) as char && BigEndian(n, size)[size - 1] == (n % 256) as char;
      BigEndianIsInjective(m / 256, n / 256, size - 1);
    }
  }

  lemma U256IsInjective(m: nat, n: nat)
    requires m < 0x1_0000_0000_0000_0000 && n < 0x1_0000_0000_0000_0000 && U256(m) == U256(n)
    ensures m == n
  {
    assert U256(m)[24..] == BigEndian(m, 8) && U256(n)[24..] == BigEndian(n, 8);
    assert Power256(8) == 0x1_0000_0000_0000_0000;
    BigEndianIsInjective(m, n, 8);
  }

  lemma AddressWordIsInjective(a: Bytes, b: Bytes)
    requires |a| == |b| == 20 && AddressWord(a) == AddressWord(b)
    ensures a == b
  {
    assert AddressWord(a)[12..] == a && AddressWord(b)[12..] == b;
  }

  function Concat(words: seq<Word>): (bytes: Bytes)
    ensures |bytes| == 32 * |words|
  {
    if words == [] then [] else Concat(words[..|words| - 1]) + words[|words| - 1]
  }

  lemma ConcatGrows(words: seq<Word>, w: Word)
    ensures Concat(words + [w]) == Concat(words) + w
  {
    assert (words + [w])[..|words|] == words;
  }

  lemma {:induction false} ConcatIsInjective(u: seq<Word>, v: seq<Word>)
    requires Concat(u) == Concat(v)
    ensures u == v
  {
    if u != [] && v != [] {
      var m := |u| - 1;
      assert Concat(u)[..32 * m] == Concat(u[..m]) && Concat(v)[..32 * m] == Concat(v[..m]);
      assert Concat(u)[32 * m..] == u[m] && Concat(v)[32 * m..] == v[m];
      ConcatIsInjective(u[..m], v[..m]);
      assert u == u[..m] + [u[m]] && v == v[..m] + [v[m]];
    }
  }

  // ----- the digest of an action ---------------------------------------------------------------

  function OrEmpty(text: Option<Bytes>): Bytes { if text.Some? then text.value else "" }

  /** Decimal digits, or "" when absent. */
  function CountText(count: Option<nat>): Bytes { if count.Some? then Decimal(count.value) else "" }

  function Bit(b: bool): nat { if b then 1 else 0 }

  /** The text fields of an order, in the order of the type. */
  function OrderTexts(o: Order): seq<Bytes> {
    [o.marketId, o.side, o.orderType, OrEmpty(o.price), o.quantity, o.timeInForce,
     OrEmpty(o.stopPrice), OrEmpty(o.triggerPrice), CountText(o.trailingOffsetBps), CountText(o.limitOffsetBps),
     OrEmpty(o.stp), OrEmpty(o.clientId), CountText(o.maxSlippageBps)]
  }

  function TextWords(h: Hash, texts: seq<Bytes>): seq<Word> { seq(|texts|, i requires 0 <= i < |texts| => h(texts[i])) }

  /** The words of the texts with one more after the first six. */
  function Woven(h: Hash, texts: seq<Bytes>, flag: Word): seq<Word>
    requires |texts| == 13
  {
    TextWords(h, texts)[..6] + [flag] + TextWords(h, texts)[6..]
  }

  function OrderWords(k: Scheme, o: Order): seq<Word> {
    [k.hash(k.orderType)] + Woven(k.hash, OrderTexts(o), U256(Bit(o.reduceOnly)))
  }

  function OrderHash(k: Scheme, o: Order): Word { k.hash(Concat(OrderWords(k, o))) }

  function OrderHashes(k: Scheme, orders: seq<Order>): seq<Word> {
    seq(|orders|, i requires 0 <= i < |orders| => OrderHash(k, orders[i]))
  }

  function KindOf(a: Action): Kind {
    match a
    case Place(_) => PlaceKind
    case Batch(_) => BatchKind
    case Amend(_, _, _, _) => AmendKind
    case Cancel(_, _) => CancelKind
    case CancelAll(_) => CancelAllKind
    case Margin(_, _, _) => MarginKind
    case MarginMode(_, _) => MarginModeKind
    case Leverage(_, _) => LeverageKind
  }

  function ActionTexts(a: Action): seq<Bytes> {
    match a
    case Place(_) => []
    case Batch(_) => []
    case Amend(marketId, orderId, price, size) => [marketId, orderId, OrEmpty(price), OrEmpty(size)]
    case Cancel(marketId, orderId) => [marketId, orderId]
    case CancelAll(market) => [OrEmpty(market)]
    case Margin(marketId, amount, direction) => [marketId, amount, direction]
    case MarginMode(marketId, mode) => [marketId, mode]
    case Leverage(marketId, _) => [marketId]
  }

  function ActionWords(k: Scheme, a: Action): seq<Word> {
    match a
    case Place(order) => [OrderHash(k, order)]
    case Batch(orders) => [k.hash(Concat(OrderHashes(k, orders)))]
    case Leverage(marketId, leverage) => [k.hash(marketId), U256(leverage)]
    case _ => TextWords(k.hash, ActionTexts(a))
  }

  /** The struct: its type, the account and domain, its own words, time and nonce. */
  function MessageOf(k: Scheme, kind: Kind, words: seq<Word>, e: Envelope): Bytes
    requires e.Valid()
  {
    Concat([k.hash(k.typeOf(kind)), AddressWord(e.account), k.hash(e.domain)] + words
           + [U256(e.timestampMs)] + [U256(e.nonce)])
  }

  function Message(k: Scheme, a: Action, e: Envelope): Bytes
    requires e.Valid()
  {
    MessageOf(k, KindOf(a), ActionWords(k, a), e)
  }

  function Preimage(k: Scheme, a: Action, e: Envelope): Bytes
    requires e.Valid()
  {
    [0x19 as char, 0x01 as char] + k.separator + k.hash(Message(k, a, e))
  }

  function DigestOf(k: Scheme, a: Action, e: Envelope): Word
    requires e.Valid()
  {
    k.hash(Preimage(k, a, e))
  }

  // ----- the digest determines the action ------------------------------------------------------

  ghost function OrderHashed(k: Scheme, o: Order): set<Bytes> {
    (set t | t in OrderTexts(o)) + {Concat(OrderWords(k, o))}
  }

  ghost function ActionHashed(k: Scheme, a: Action): set<Bytes> {
    match a
    case Place(order) => OrderHashed(k, order)
    case Batch(orders) => {Concat(OrderHashes(k, orders))} + (set o, x | o in orders && x in OrderHashed(k, o) :: x)
    case _ => set t | t in ActionTexts(a)
  }

  /** Every string hashed for one digest, except those all digests share. */
  ghost function Hashed(k: Scheme, a: Action, e: Envelope): set<Bytes>
    requires e.Valid()
  {
    {Preimage(k, a, e), Message(k, a, e), k.typeOf(KindOf(a)), e.domain} + ActionHashed(k, a)
  }

  /** Two different strings, one from each side, with one hash. */
  ghost predicate Collision(h: Hash, xs: set<Bytes>, ys: set<Bytes>) {
    exists x, y :: x in xs && y in ys && x != y && h(x) == h(y)
  }

  lemma Unhash(h: Hash, xs: set<Bytes>, ys: set<Bytes>, x: Bytes, y: Bytes)
    requires !Collision(h, xs, ys) && x in xs && y in ys && h(x) == h(y)
    ensures x == y
  {
  }

  lemma FewerCollide(h: Hash, xs: set<Bytes>, ys: set<Bytes>, us: set<Bytes>, vs: set<Bytes>)
    requires !Collision(h, xs, ys) && us <= xs && vs <= ys
    ensures !Collision(h, us, vs)
  {
  }

  lemma TextsFromWords(h: Hash, s: seq<Bytes>, t: seq<Bytes>, xs: set<Bytes>, ys: set<Bytes>)
    requires !Collision(h, xs, ys) && TextWords(h, s) == TextWords(h, t)
    requires (forall x :: x in s ==> x in xs) && (forall y :: y in t ==> y in ys)
    ensures s == t
  {
    assert |s| == |TextWords(h, s)| == |TextWords(h, t)| == |t|;
    forall i | 0 <= i < |s| ensures s[i] == t[i] {
      assert h(s[i]) == TextWords(h, s)[i] == TextWords(h, t)[i] == h(t[i]);
      assert s[i] in xs && t[i] in ys;
      Unhash(h, xs, ys, s[i], t[i]);
    }
  }

  lemma CountTextIsInjective(a: Option<nat>, b: Option<nat>)
    requires CountText(a) == CountText(b)
    ensures a == b
  {
    if a.Some? { DecimalReadsBack(a.value); }
    if b.Some? { DecimalReadsBack(b.value); }
  }

  /** Leaving a field out and saying it never sign the same. */
  lemma OrderFromTexts(o: Order, p: Order)
    requires PlainOrder(o) && PlainOrder(p)
    requires OrderTexts(o) == OrderTexts(p) && o.reduceOnly == p.reduceOnly
    ensures o == p
  {
    var s, t := OrderTexts(o), OrderTexts(p);
    assert s[0] == t[0] && s[1] == t[1] && s[2] == t[2] && s[3] == t[3] && s[4] == t[4] && s[5] == t[5] && s[6] == t[6]
        && s[7] == t[7] && s[8] == t[8] && s[9] == t[9] && s[10] == t[10] && s[11] == t[11] && s[12] == t[12];
    CountTextIsInjective(o.trailingOffsetBps, p.trailingOffsetBps);
    CountTextIsInjective(o.limitOffsetBps, p.limitOffsetBps);
    CountTextIsInjective(o.maxSlippageBps, p.maxSlippageBps);
  }

  lemma OrderFromHash(k: Scheme, o: Order, p: Order)
    requires PlainOrder(o) && PlainOrder(p)
    requires OrderHash(k, o) == OrderHash(k, p)
    requires !Collision(k.hash, OrderHashed(k, o), OrderHashed(k, p))
    ensures o == p
  {
    var xs, ys := OrderHashed(k, o), OrderHashed(k, p);
    var u, v := OrderWords(k, o), OrderWords(k, p);
    Unhash(k.hash, xs, ys, Concat(u), Concat(v));
    ConcatIsInjective(u, v);
    var a, b := TextWords(k.hash, OrderTexts(o)), TextWords(k.hash, OrderTexts(p));
    WordsSplit(k.hash(k.orderType), a, b, U256(Bit(o.reduceOnly)), U256(Bit(p.reduceOnly)));
    U256IsInjective(Bit(o.reduceOnly), Bit(p.reduceOnly));
    TextsFromWords(k.hash, OrderTexts(o), OrderTexts(p), xs, ys);
    OrderFromTexts(o, p);
  }

  lemma WordsSplit(head: Word, a: seq<Word>, b: seq<Word>, m: Word, n: Word)
    requires |a| == |b| == 13 && [head] + (a[..6] + [m] + a[6..]) == [head] + (b[..6] + [n] + b[6..])
    ensures a == b && m == n
  {
    var u, v := [head] + (a[..6] + [m] + a[6..]), [head] + (b[..6] + [n] + b[6..]);
    assert u[1..7] == a[..6] && v[1..7] == b[..6] && u[7] == m && v[7] == n && u[8..] == a[6..] && v[8..] == b[6..];
    assert a == a[..6] + a[6..] && b == b[..6] + b[6..];
  }

  lemma BatchFromHash(k: Scheme, s: seq<Order>, t: seq<Order>)
    requires Plain(Batch(s)) && Plain(Batch(t))
    requires k.hash(Concat(OrderHashes(k, s))) == k.hash(Concat(OrderHashes(k, t)))
    requires !Collision(k.hash, ActionHashed(k, Batch(s)), ActionHashed(k, Batch(t)))
    ensures s == t
  {
    var xs, ys := ActionHashed(k, Batch(s)), ActionHashed(k, Batch(t));
    var u, v := OrderHashes(k, s), OrderHashes(k, t);
    Unhash(k.hash, xs, ys, Concat(u), Concat(v));
    ConcatIsInjective(u, v);
    assert |s| == |u| == |v| == |t|;
    forall i | 0 <= i < |s| ensures s[i] == t[i] {
      assert OrderHash(k, s[i]) == u[i] == v[i] == OrderHash(k, t[i]);
      assert s[i] in s && t[i] in t;
      assert OrderHashed(k, s[i]) <= xs && OrderHashed(k, t[i]) <= ys;
      FewerCollide(k.hash, xs, ys, OrderHashed(k, s[i]), OrderHashed(k, t[i]));
      OrderFromHash(k, s[i], t[i]);
    }
  }

  lemma ActionFromTexts(a: Action, b: Action)
    requires Plain(a) && Plain(b) && KindOf(a) == KindOf(b) && ActionTexts(a) == ActionTexts(b)
    requires !a.Place? && !a.Batch? && !a.Leverage?
    ensures a == b
  {
    var s, t := ActionTexts(a), ActionTexts(b);
    assert s[0] == t[0];
    if |s| > 1 { assert s[1] == t[1]; }
    if |s| > 2 { assert s[2] == t[2]; }
    if |s| > 3 { assert s[3] == t[3]; }
  }

  lemma ActionFromWords(k: Scheme, a: Action, b: Action)
    requires Plain(a) && Plain(b) && KindOf(a) == KindOf(b)
    requires ActionWords(k, a) == ActionWords(k, b)
    requires !Collision(k.hash, ActionHashed(k, a), ActionHashed(k, b))
    ensures a == b
  {
    var xs, ys := ActionHashed(k, a), ActionHashed(k, b);
    var u, v := ActionWords(k, a), ActionWords(k, b);
    if a.Place? {
      assert u[0] == v[0];
      OrderFromHash(k, a.order, b.order);
    } else if a.Batch? {
      assert u[0] == v[0];
      BatchFromHash(k, a.orders, b.orders);
    } else if a.Leverage? {
      assert u[0] == v[0] && u[1] == v[1];
      assert ActionTexts(a)[0] in xs && ActionTexts(b)[0] in ys;
      Unhash(k.hash, xs, ys, a.marketId, b.marketId);
      U256IsInjective(a.leverage, b.leverage);
    } else {
      TextsFromWords(k.hash, ActionTexts(a), ActionTexts(b), xs, ys);
      ActionFromTexts(a, b);
    }
  }

  lemma MessageSplits(t: seq<Word>, u: seq<Word>, a: seq<Word>, b: seq<Word>, x: Word, y: Word, m: Word, n: Word)
    requires |t| == |u| == 3 && t + a + [m] + [x] == u + b + [n] + [y]
    ensures t == u && a == b && m == n && x == y
  {
    var s, r := t + a + [m] + [x], u + b + [n] + [y];
    assert |s| == |r| && |a| == |b|;
    assert s[..3] == t && r[..3] == u && s[3..3 + |a|] == a && r[3..3 + |a|] == b;
    assert s[3 + |a|] == m && r[3 + |a|] == n && s[4 + |a|] == x && r[4 + |a|] == y;
  }

  lemma PreimageSplits(sep: Word, x: Word, y: Word)
    requires [0x19 as char, 0x01 as char] + sep + x == [0x19 as char, 0x01 as char] + sep + y
    ensures x == y
  {
    assert ([0x19 as char, 0x01 as char] + sep + x)[34..] == x && ([0x19 as char, 0x01 as char] + sep + y)[34..] == y;
  }

  lemma RequestFromMessage(k: Scheme, a: Action, e: Envelope, b: Action, f: Envelope)
    requires DistinctTypes(k) && Plain(a) && Plain(b) && e.Valid() && f.Valid()
    requires Message(k, a, e) == Message(k, b, f)
    requires !Collision(k.hash, Hashed(k, a, e), Hashed(k, b, f))
    ensures a == b && e == f
  {
    var xs, ys := Hashed(k, a, e), Hashed(k, b, f);
    var t, u := [k.hash(k.typeOf(KindOf(a))), AddressWord(e.account), k.hash(e.domain)],
        [k.hash(k.typeOf(KindOf(b))), AddressWord(f.account), k.hash(f.domain)];
    var v, w := ActionWords(k, a), ActionWords(k, b);
    ConcatIsInjective(t + v + [U256(e.timestampMs)] + [U256(e.nonce)], u + w + [U256(f.timestampMs)] + [U256(f.nonce)]);
    MessageSplits(t, u, v, w, U256(e.nonce), U256(f.nonce), U256(e.timestampMs), U256(f.timestampMs));
    assert t[0] == u[0] && t[1] == u[1] && t[2] == u[2];
    Unhash(k.hash, xs, ys, k.typeOf(KindOf(a)), k.typeOf(KindOf(b)));
    AddressWordIsInjective(e.account, f.account);
    Unhash(k.hash, xs, ys, e.domain, f.domain);
    U256IsInjective(e.timestampMs, f.timestampMs);
    U256IsInjective(e.nonce, f.nonce);
    FewerCollide(k.hash, xs, ys, ActionHashed(k, a), ActionHashed(k, b));
    ActionFromWords(k, a, b);
  }

  /** Equal digests mean the same action for the same account and domain at the
      same time under the same nonce, or a collision among the strings hashed. */
  lemma DigestDeterminesAction(k: Scheme, a: Action, e: Envelope, b: Action, f: Envelope)
    requires DistinctTypes(k) && Plain(a) && Plain(b) && e.Valid() && f.Valid()
    requires DigestOf(k, a, e) == DigestOf(k, b, f)
    ensures (a == b && e == f) || Collision(k.hash, Hashed(k, a, e), Hashed(k, b, f))
  {
    var xs, ys := Hashed(k, a, e), Hashed(k, b, f);
    if !Collision(k.hash, xs, ys) {
      Unhash(k.hash, xs, ys, Preimage(k, a, e), Preimage(k, b, f));
      PreimageSplits(k.separator, k.hash(Message(k, a, e)), k.hash(Message(k, b, f)));
      Unhash(k.hash, xs, ys, Message(k, a, e), Message(k, b, f));
      RequestFromMessage(k, a, e, b, f);
    }
  }
}
