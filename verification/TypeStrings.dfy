/** The type text of every struct and the domain all of them are signed in
    (`src/auth/trading.rs`). */
module TypeStrings {
  import opened Coding
  import opened Text
  import opened TradingDigest

  /** The members of a type, with commas between. */
  function Listed(members: seq<Bytes>): Bytes {
    if members == [] then []
    else if |members| == 1 then members[0]
    else members[0] + [','] + Listed(members[1..])
  }

  function OrderHead(): seq<Bytes> { ["string marketId", "string side", "string orderType"] }

  function OrderTerms(): seq<Bytes> { ["string price", "string quantity", "string timeInForce", "bool reduceOnly"] }

  function OrderTriggers(): seq<Bytes> { ["string stopPrice", "string triggerPrice"] }

  function OrderOffsets(): seq<Bytes> { ["string trailingOffsetBps", "string limitOffsetBps"] }

  function OrderRest(): seq<Bytes> { ["string stp", "string clientId", "string maxSlippageBps"] }

  function OrderMembers(): seq<Bytes> { OrderHead() + OrderTerms() + OrderTriggers() + OrderOffsets() + OrderRest() }

  function OrderParams(): Bytes { "OrderParams" + ['('] + (Listed(OrderMembers()) + [')']) }

  function KindName(kind: Kind): Bytes {
    match kind
    case PlaceKind => "PlaceOrder"
    case BatchKind => "PlaceOrders"
    case AmendKind => "AmendOrder"
    case CancelKind => "CancelOrder"
    case CancelAllKind => "CancelAllOrders"
    case MarginKind => "AdjustMargin"
    case MarginModeKind => "SetMarginMode"
    case LeverageKind => "SetLeverage"
  }

  function KindMembers(kind: Kind): seq<Bytes> {
    match kind
    case PlaceKind => ["OrderParams order"]
    case BatchKind => ["OrderParams[] orders"]
    case AmendKind => ["string marketId", "string orderId", "string price", "string size"]
    case CancelKind => ["string marketId", "string orderId"]
    case CancelAllKind => ["string marketId"]
    case MarginKind => ["string marketId", "string amount", "string direction"]
    case MarginModeKind => ["string marketId", "string marginMode"]
    case LeverageKind => ["string marketId", "uint32 leverage"]
  }

  /** The members all actions share stand around their own. */
  function MembersOfKind(kind: Kind): seq<Bytes> {
    ["address account", "string domain"] + KindMembers(kind) + ["uint64 timestampMs", "uint64 nonce"]
  }

  /** What follows the name and its parenthesis: the members, and the type of an order if
      there are any. */
  function KindTail(kind: Kind): Bytes {
    Listed(MembersOfKind(kind)) + [')'] + if kind.PlaceKind? || kind.BatchKind? then OrderParams() else ""
  }

  function Typed(name: Kind -> Bytes, tail: Kind -> Bytes): Kind -> Bytes { kind => name(kind) + ['('] + tail(kind) }

  function DomainMembers(): seq<Bytes> { ["string name", "string version", "uint256 chainId"] }

  function DomainType(): Bytes { "EIP712Domain" + ['('] + (Listed(DomainMembers()) + [')']) }

  const TRADING_CHAIN_ID: nat := 20056

  /** name, version and chain id; no contract and no salt. */
  function DomainSeparator(h: Hash): Word {
    h(Concat([h(DomainType()), h("Nexus Exchange"), h("1"), U256(TRADING_CHAIN_ID)]))
  }

  /** What the exchange signs with. */
  function NexusScheme(h: Hash): Scheme { Scheme(h, DomainSeparator(h), Typed(KindName, KindTail), OrderParams()) }

  lemma NamesDiffer(k: Kind, l: Kind)
    ensures '(' !in KindName(k)
    ensures KindName(k) == KindName(l) ==> k == l
  {
  }

  ghost predicate ProperNames(name: Kind -> Bytes) {
    (forall k :: '(' !in name(k)) && forall k, l :: name(k) == name(l) ==> k == l
  }

  lemma KindNamesAreProper()
    ensures ProperNames(KindName)
  {
    forall k ensures '(' !in KindName(k) { NamesDiffer(k, k); }
    forall k, l | KindName(k) == KindName(l) ensures k == l { NamesDiffer(k, l); }
  }

  lemma TypesDiffer(name: Kind -> Bytes, tail: Kind -> Bytes, s: Scheme)
    requires ProperNames(name) && s.typeOf == Typed(name, tail)
    ensures DistinctTypes(s)
  {
    forall k, l | s.typeOf(k) == s.typeOf(l) ensures k == l {
      SplitAtFirst(name(k), name(l), '(', tail(k), tail(l));
    }
  }

  /** No two actions share a type, so a digest tells them apart. */
  lemma NexusTypesDiffer(h: Hash)
    ensures DistinctTypes(NexusScheme(h))
  {
    KindNamesAreProper();
    TypesDiffer(KindName, KindTail, NexusScheme(h));
  }
}
