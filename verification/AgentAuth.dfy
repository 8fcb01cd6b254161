/** What authenticated requests sign and carry: the canonical strings of the agent
    and HMAC schemes, and the agent signer that draws a nonce for each request
    (`src/auth/agent.rs`, `src/auth/mod.rs`). */
module AgentAuth {
  import opened Common
  import opened Coding
  import opened Text
  import opened TradingRequest
  import opened TradingDigest
  import opened SigningActions
  import NonceProtocol

  datatype Context = Context(verb: Bytes, path: Bytes, query: Bytes, body: Bytes, timestampMs: nat,
      domain: Option<Bytes>)

  // ----- canonical strings ---------------------------------------------------------------------

  const LF: char := '\n'

  function Target(c: Context): Bytes { c.path + [LF] + c.query }

  /** Verb, path, query, body hash, time and nonce, one a line. */
  function Canonical(sha: Hash, c: Context, nonce: nat): Bytes {
    Upper(c.verb) + [LF] + c.path + [LF] + c.query + [LF] + Hex(sha(c.body)) + [LF]
    + Decimal(c.timestampMs) + [LF] + Decimal(nonce)
  }

  /** The HMAC scheme puts the time first and has no nonce. */
  function HmacCanonical(sha: Hash, c: Context): Bytes {
    Decimal(c.timestampMs) + [LF] + Upper(c.verb) + [LF] + c.path + [LF] + c.query + [LF] + Hex(sha(c.body))
  }

  lemma FieldsHoldNoLineFeed(sha: Hash, c: Context, nonce: nat)
    ensures LF !in Hex(sha(c.body)) && LF !in Decimal(c.timestampMs) && LF !in Decimal(nonce)
    ensures LF !in c.verb ==> LF !in Upper(c.verb)
  {
    HexHasNoSeparator(sha(c.body), LF);
    DecimalReadsBack(c.timestampMs);
    DecimalReadsBack(nonce);
    UpperKeepsSeparators(c.verb, LF);
  }

  /** What the canonical string tells, exactly: all fields, with path and query
      told apart only by the line feed between them. */
  lemma CanonicalTellsAll(sha: Hash, c: Context, m: nat, d: Context, n: nat)
    requires LF !in c.verb && LF !in d.verb
    requires IsBytes(sha(c.body)) && IsBytes(sha(d.body))
    ensures Canonical(sha, c, m) == Canonical(sha, d, n) <==>
      Upper(c.verb) == Upper(d.verb) && Target(c) == Target(d) && sha(c.body) == sha(d.body)
      && c.timestampMs == d.timestampMs && m == n
  {
    FieldsHoldNoLineFeed(sha, c, m);
    FieldsHoldNoLineFeed(sha, d, n);
    var s, t := Grouped(sha, c), Grouped(sha, d);
    CanonicalGroups(sha, c, m);
    CanonicalGroups(sha, d, n);
    if Canonical(sha, c, m) == Canonical(sha, d, n) {
      SplitAtLast(s + [LF] + Decimal(c.timestampMs), t + [LF] + Decimal(d.timestampMs), LF, Decimal(m), Decimal(n));
      SplitAtLast(s, t, LF, Decimal(c.timestampMs), Decimal(d.timestampMs));
      DecimalIsInjective(m, n);
      DecimalIsInjective(c.timestampMs, d.timestampMs);
      GroupedTellsAll(sha, c, d);
    }
  }

  /** Verb, target and body hash. */
  function Grouped(sha: Hash, c: Context): Bytes { Upper(c.verb) + [LF] + Target(c) + [LF] + Hex(sha(c.body)) }

  lemma CanonicalGroups(sha: Hash, c: Context, nonce: nat)
    ensures Canonical(sha, c, nonce) == Grouped(sha, c) + [LF] + Decimal(c.timestampMs) + [LF] + Decimal(nonce)
    ensures HmacCanonical(sha, c) == Decimal(c.timestampMs) + [LF] + Grouped(sha, c)
  {
    var v, h := Upper(c.verb), Hex(sha(c.body));
    assert v + [LF] + c.path + [LF] + c.query + [LF] + h == v + [LF] + (c.path + [LF] + c.query) + [LF] + h;
    var t := Decimal(c.timestampMs);
    assert t + [LF] + v + [LF] + c.path + [LF] + c.query + [LF] + h
        == t + [LF] + (v + [LF] + (c.path + [LF] + c.query) + [LF] + h);
  }

  lemma GroupedTellsAll(sha: Hash, c: Context, d: Context)
    requires LF !in c.verb && LF !in d.verb
    requires IsBytes(sha(c.body)) && IsBytes(sha(d.body))
    requires Grouped(sha, c) == Grouped(sha, d)
    ensures Upper(c.verb) == Upper(d.verb) && Target(c) == Target(d) && sha(c.body) == sha(d.body)
  {
    FieldsHoldNoLineFeed(sha, c, 0);
    FieldsHoldNoLineFeed(sha, d, 0);
    SplitAtLast(Upper(c.verb) + [LF] + Target(c), Upper(d.verb) + [LF] + Target(d), LF, Hex(sha(c.body)),
        Hex(sha(d.body)));
    SplitAtFirst(Upper(c.verb), Upper(d.verb), LF, Target(c), Target(d));
    HexIsInjective(sha(c.body), sha(d.body));
  }

  lemma HmacCanonicalTellsAll(sha: Hash, c: Context, d: Context)
    requires LF !in c.verb && LF !in d.verb
    requires IsBytes(sha(c.body)) && IsBytes(sha(d.body))
    ensures HmacCanonical(sha, c) == HmacCanonical(sha, d) <==>
      Upper(c.verb) == Upper(d.verb) && Target(c) == Target(d) && sha(c.body) == sha(d.body)
          && c.timestampMs == d.timestampMs
  {
    FieldsHoldNoLineFeed(sha, c, 0);
    FieldsHoldNoLineFeed(sha, d, 0);
    CanonicalGroups(sha, c, 0);
    CanonicalGroups(sha, d, 0);
    if HmacCanonical(sha, c) == HmacCanonical(sha, d) {
      SplitAtFirst(Decimal(c.timestampMs), Decimal(d.timestampMs), LF, Grouped(sha, c), Grouped(sha, d));
      DecimalIsInjective(c.timestampMs, d.timestampMs);
      GroupedTellsAll(sha, c, d);
    }
  }

  /** An encoded query holds no line feed, so the last one ends the path, whatever a
      raw id has put into it. */
  lemma TargetTellsPathFromQuery(c: Context, d: Context)
    requires LF !in c.query && LF !in d.query
    ensures Target(c) == Target(d) <==> c.path == d.path && c.query == d.query
  {
    if Target(c) == Target(d) {
      SplitAtLast(c.path, d.path, LF, c.query, d.query);
    }
  }

  // ----- the agent signer ----------------------------------------------------------------------

  datatype Header =
    | AgentAddress | Timestamp | NonceHeader | Signature
    | ActionSignature | ActionTimestamp | ActionNonce | ActingAccount

  type Headers = seq<(Header, Bytes)>

  datatype Failure = NoAccount | Unsignable(refusal: Refusal) | SigningFailed

  /** Code outside the model: hashes, the signature and the JSON parser. */
  datatype Primitives = Primitives(eip712: Scheme, sha: Hash, sign: Word -> Option<Bytes>, json: Bytes -> Option<Json>)

  function RequestOf(p: Primitives, c: Context): Request { Request(c.verb, c.path, c.query, p.json(c.body)) }

  /** The request is signed as a trading action rather than as a string. */
  predicate SignsAction(c: Context) { c.domain.Some? && RouteOf(c.verb, c.path).Some? }

  /** Whose account an action is for: the acting one, else the signer's own. */
  datatype Accounts = Accounts(own: Option<Bytes>, acting: Option<Bytes>) {
    predicate Valid() { (own.Some? ==> |own.value| == 20) && (acting.Some? ==> |acting.value| == 20) }

    function For(): Option<Bytes> { if acting.Some? then acting else own }
  }

  function EnvelopeOf(account: Bytes, c: Context, nonce: nat): Envelope
    requires c.domain.Some?
  {
    Envelope(account, c.domain.value, c.timestampMs, nonce)
  }

  predicate Fits64(n: nat) { n < 0x1_0000_0000_0000_0000 }

  /** The hash an authenticated request signs. */
  function SignedHash(p: Primitives, accounts: Accounts, c: Context, nonce: nat): Result<Word, Failure>
    requires accounts.Valid() && Fits64(c.timestampMs) && Fits64(nonce)
  {
    if !SignsAction(c) then Ok(p.eip712.hash(Canonical(p.sha, c, nonce)))
    else if accounts.For().None? then Err(NoAccount)
    else
      match Signed(p.eip712, ReadAction(RequestOf(p, c)), EnvelopeOf(accounts.For().value, c, nonce))
      case Err(refusal) => Err(Unsignable(refusal))
      case Ok(digest) => Ok(digest.value)
  }

  class AgentSigner {
    const p: Primitives
    const address: Bytes
    const accounts: Accounts
    var lastNonce: nat

    ghost predicate Valid()
      reads this
    {
      accounts.Valid() && lastNonce <= NonceProtocol.U64_MAX
    }

    constructor (p: Primitives, address: Bytes, accounts: Accounts)
      requires accounts.Valid()
      ensures Valid() && lastNonce == 0
      ensures this.p == p && this.address == address && this.accounts == accounts
    {
      this.p := p;
      this.address := address;
      this.accounts := accounts;
      lastNonce := 0;
    }

    method NextNonce(floor: nat) returns (nonce: nat)
      requires Valid() && Fits64(floor)
      modifies this
      ensures Valid()
      ensures nonce == lastNonce == NonceProtocol.NextNonce(old(lastNonce), floor)
      ensures old(lastNonce) < NonceProtocol.U64_MAX ==> nonce > old(lastNonce)
    {
      nonce := MaxNat(if lastNonce < NonceProtocol.U64_MAX then lastNonce + 1 else lastNonce, floor);
      lastNonce := nonce;
    }

    method ActionDigest(c: Context, nonce: nat) returns (digest: Result<Word, Failure>)
      requires accounts.Valid() && Fits64(c.timestampMs) && Fits64(nonce) && SignsAction(c)
      ensures digest == SignedHash(p, accounts, c, nonce)
    {
      if accounts.For().None? {
        return Err(NoAccount);
      }
      var found := RequestDigest(p.eip712, RequestOf(p, c), EnvelopeOf(accounts.For().value, c, nonce));
      digest := match found { case Err(refusal) => Err(Unsignable(refusal)) case Ok(word) => Ok(word.value) };
    }

    /** The headers of a signed action under a nonce drawn for it. */
    method ActionHeadersWithNonce(c: Context, nonce: nat) returns (headers: Result<Option<Headers>, Failure>)
      requires accounts.Valid() && Fits64(c.timestampMs) && Fits64(nonce) && SignsAction(c)
      ensures headers == ActionHeadersOf(p, accounts, c, nonce)
    {
      var digest := ActionDigest(c, nonce);
      if digest.Err? {
        return Err(digest.error);
      }
      var signature := p.sign(digest.value);
      if signature.None? {
        return Err(SigningFailed);
      }
      var list := ActionList(c, nonce, signature.value);
      headers := Ok(Some(list));
    }

    method ActionList(c: Context, nonce: nat, signature: Bytes) returns (list: Headers)
      ensures list == ActionListOf(accounts, c, nonce, signature)
    {
      list := [(ActionSignature, signature), (ActionTimestamp, Decimal(c.timestampMs)), (ActionNonce, Decimal(nonce))];
      if accounts.acting.Some? && accounts.acting != accounts.own {
        list := list + [(ActingAccount, "0x" + Hex(accounts.For().value))];
      }
    }

    /** Draws a nonce only when it signs. */
    method ActionHeaders(c: Context) returns (headers: Result<Option<Headers>, Failure>)
      requires Valid() && Fits64(c.timestampMs)
      modifies this
      ensures Valid()
      ensures !SignsAction(c) ==> headers == Ok(None) && lastNonce == old(lastNonce)
      ensures SignsAction(c) ==>
        && lastNonce == NonceProtocol.NextNonce(old(lastNonce), c.timestampMs)
        && headers == ActionHeadersOf(p, accounts, c, lastNonce)
    {
      if c.domain.None? || RouteOf(c.verb, c.path).None? {
        return Ok(None);
      }
      var nonce := NextNonce(c.timestampMs);
      headers := ActionHeadersWithNonce(c, nonce);
    }

    /** One nonce is drawn whatever comes of the request, and the headers are the
        ones for that nonce. */
    method AuthHeaders(c: Context) returns (headers: Result<Headers, Failure>)
      requires Valid() && Fits64(c.timestampMs)
      modifies this
      ensures Valid()
      ensures lastNonce == NonceProtocol.NextNonce(old(lastNonce), c.timestampMs)
      ensures headers == AuthHeadersOf(p, address, accounts, c, lastNonce)
    {
      var action := ActionHeaders(c);
      if action != Ok(None) {
        return Named(address, action);
      }
      var nonce := NextNonce(c.timestampMs);
      headers := HeadersWithNonce(c, nonce);
    }

    method HeadersWithNonce(c: Context, nonce: nat) returns (headers: Result<Headers, Failure>)
      ensures headers == StringHeadersOf(p, address, c, nonce)
    {
      var signature := p.sign(p.eip712.hash(Canonical(p.sha, c, nonce)));
      if signature.None? {
        return Err(SigningFailed);
      }
      headers := Ok([(AgentAddress, address), (Timestamp, Decimal(c.timestampMs)), (NonceHeader, Decimal(nonce)),
          (Signature, signature.value)]);
    }
  }

  function ActionHeadersOf(p: Primitives, accounts: Accounts, c: Context, nonce: nat)
    : (headers: Result<Option<Headers>, Failure>)
    requires accounts.Valid() && Fits64(c.timestampMs) && Fits64(nonce) && SignsAction(c)
    ensures headers != Ok(None)
  {
    match SignedHash(p, accounts, c, nonce)
    case Err(e) => Err(e)
    case Ok(hash) =>
      if p.sign(hash).None? then Err(SigningFailed)
      else Ok(Some(ActionListOf(accounts, c, nonce, p.sign(hash).value)))
  }

  /** The acting account is named exactly when it is not the signer's own. */
  function ActionListOf(accounts: Accounts, c: Context, nonce: nat, signature: Bytes): Headers {
    [(ActionSignature, signature), (ActionTimestamp, Decimal(c.timestampMs)), (ActionNonce, Decimal(nonce))]
    + if accounts.acting.Some? && accounts.acting != accounts.own then
        [(ActingAccount, "0x" + Hex(accounts.acting.value))]
      else []
  }

  function AuthHeadersOf(p: Primitives, address: Bytes, accounts: Accounts, c: Context, nonce: nat)
    : Result<Headers, Failure>
    requires accounts.Valid() && Fits64(c.timestampMs) && Fits64(nonce)
  {
    if SignsAction(c) then Named(address, ActionHeadersOf(p, accounts, c, nonce))
    else StringHeadersOf(p, address, c, nonce)
  }

  /** An action's headers after the agent's address. */
  function Named(address: Bytes, action: Result<Option<Headers>, Failure>): Result<Headers, Failure> {
    match action
    case Err(e) => Err(e)
    case Ok(list) => Ok([(AgentAddress, address)] + if list.Some? then list.value else [])
  }

  function StringHeadersOf(p: Primitives, address: Bytes, c: Context, nonce: nat): Result<Headers, Failure> {
    match p.sign(p.eip712.hash(Canonical(p.sha, c, nonce)))
    case None => Err(SigningFailed)
    case Some(signature) =>
      Ok([(AgentAddress, address), (Timestamp, Decimal(c.timestampMs)), (NonceHeader, Decimal(nonce)),
          (Signature, signature)])
  }

  // ----- what a signature and its headers say --------------------------------------------------

  /** Every string hashed with Keccak to sign `c`. */
  ghost function HashedFor(p: Primitives, accounts: Accounts, c: Context, nonce: nat): set<Bytes>
    requires accounts.Valid() && Fits64(c.timestampMs) && Fits64(nonce) && SignedHash(p, accounts, c, nonce).Ok?
  {
    if SignsAction(c) then
      Hashed(p.eip712, ReadAction(RequestOf(p, c)).value.value, EnvelopeOf(accounts.For().value, c, nonce))
    else {Canonical(p.sha, c, nonce)}
  }

  predicate PlainContext(c: Context) {
    c.verb != [] && c.verb[0] != 0x19 as char && LF !in c.verb && LF !in c.query
  }

  /** Such is every query the client sends: the pairs of a call, encoded. */
  lemma SentContextIsPlain(c: Context, pairs: seq<(Bytes, Bytes)>)
    requires c.verb in {"GET", "POST", "PUT", "PATCH", "DELETE"} && c.query == FormQuery(pairs)
    ensures PlainContext(c)
  {
    QueryHoldsOnly(pairs, LF);
  }

  /** An action's preimage opens with a byte no canonical string opens with. */
  lemma SchemesDoNotMix(sha: Hash, c: Context, m: nat, k: Scheme, a: Action, e: Envelope)
    requires PlainContext(c) && e.Valid()
    ensures Canonical(sha, c, m) != Preimage(k, a, e)
  {
    assert Canonical(sha, c, m)[0] == UpperChar(c.verb[0]);
    assert Preimage(k, a, e)[0] == 0x19 as char;
  }

  /** Two requests of the same kind agree in what they sign. */
  ghost predicate SignAlike(p: Primitives, c: Context, d: Context) {
    && c.timestampMs == d.timestampMs
    && SignsAction(c) == SignsAction(d)
    && (if SignsAction(c) then
          && ReadAction(RequestOf(p, c)) == ReadAction(RequestOf(p, d))
          && RouteOf(c.verb, c.path) == RouteOf(d.verb, d.path) && c.domain == d.domain
        else
          Upper(c.verb) == Upper(d.verb) && c.path == d.path && c.query == d.query && p.sha(c.body) == p.sha(d.body))
  }

  lemma OneActionHash(p: Primitives, accounts: Accounts, c: Context, m: nat, d: Context, n: nat)
    requires DistinctTypes(p.eip712) && accounts.Valid() && Fits64(c.timestampMs) && Fits64(m)
            && Fits64(d.timestampMs) && Fits64(n)
    requires SignsAction(c) && SignsAction(d)
    requires SignedHash(p, accounts, c, m).Ok? && SignedHash(p, accounts, c, m) == SignedHash(p, accounts, d, n)
    ensures Collision(p.eip712.hash, HashedFor(p, accounts, c, m), HashedFor(p, accounts, d, n))
            || (m == n && SignAlike(p, c, d))
  {
    var account := accounts.For().value;
    OneDigestOneRequest(p.eip712, RequestOf(p, c), EnvelopeOf(account, c, m), RequestOf(p, d),
        EnvelopeOf(account, d, n));
  }

  /** One signed hash never stands for two requests: what they sign, their time and
      their nonce are the same, or two of the strings hashed collide. */
  lemma OneHashOneRequest(p: Primitives, accounts: Accounts, c: Context, m: nat, d: Context, n: nat)
    requires DistinctTypes(p.eip712) && accounts.Valid() && Fits64(c.timestampMs) && Fits64(m)
            && Fits64(d.timestampMs) && Fits64(n)
    requires PlainContext(c) && PlainContext(d) && IsBytes(p.sha(c.body)) && IsBytes(p.sha(d.body))
    requires SignedHash(p, accounts, c, m).Ok? && SignedHash(p, accounts, c, m) == SignedHash(p, accounts, d, n)
    ensures Collision(p.eip712.hash, HashedFor(p, accounts, c, m), HashedFor(p, accounts, d, n))
            || (m == n && SignAlike(p, c, d))
  {
    if SignsAction(c) && SignsAction(d) {
      OneActionHash(p, accounts, c, m, d, n);
    } else {
      SignedTextIsHashed(p, accounts, c, m);
      SignedTextIsHashed(p, accounts, d, n);
      CanonicalTellsAll(p.sha, c, m, d, n);
      TargetTellsPathFromQuery(c, d);
      if SignsAction(c) {
        SchemesDoNotMix(p.sha, d, n, p.eip712, ReadAction(RequestOf(p, c)).value.value,
            EnvelopeOf(accounts.For().value, c, m));
      } else if SignsAction(d) {
        SchemesDoNotMix(p.sha, c, m, p.eip712, ReadAction(RequestOf(p, d)).value.value,
            EnvelopeOf(accounts.For().value, d, n));
      }
    }
  }

  /** The string whose hash is signed. */
  ghost function SignedText(p: Primitives, accounts: Accounts, c: Context, nonce: nat): Bytes
    requires accounts.Valid() && Fits64(c.timestampMs) && Fits64(nonce) && SignedHash(p, accounts, c, nonce).Ok?
  {
    if SignsAction(c) then
        Preimage(p.eip712, ReadAction(RequestOf(p, c)).value.value, EnvelopeOf(accounts.For().value, c, nonce))
    else Canonical(p.sha, c, nonce)
  }

  lemma SignedTextIsHashed(p: Primitives, accounts: Accounts, c: Context, nonce: nat)
    requires accounts.Valid() && Fits64(c.timestampMs) && Fits64(nonce) && SignedHash(p, accounts, c, nonce).Ok?
    ensures var text := SignedText(p, accounts, c, nonce);
            text in HashedFor(p, accounts, c, nonce) && SignedHash(p, accounts, c, nonce) == Ok(p.eip712.hash(text))
  {
  }

  /** The number in the one nonce header. */
  function NonceIn(headers: Headers): Option<Bytes> {
    if headers == [] then None
    else if headers[0].0.NonceHeader? || headers[0].0.ActionNonce? then Some(headers[0].1)
    else NonceIn(headers[1..])
  }

  lemma {:induction false} FirstNonceCounts(before: Headers, name: Header, number: Bytes, after: Headers)
    requires forall i :: 0 <= i < |before| ==> !before[i].0.NonceHeader? && !before[i].0.ActionNonce?
    requires name.NonceHeader? || name.ActionNonce?
    ensures NonceIn(before + [(name, number)] + after) == Some(number)
  {
    if before != [] {
      assert (before + [(name, number)] + after)[1..] == before[1..] + [(name, number)] + after;
      FirstNonceCounts(before[1..], name, number, after);
    }
  }

  lemma HeadersCarryTheNonce(p: Primitives, address: Bytes, accounts: Accounts, c: Context, nonce: nat)
    requires accounts.Valid() && Fits64(c.timestampMs) && Fits64(nonce)
    requires AuthHeadersOf(p, address, accounts, c, nonce).Ok?
    ensures NonceIn(AuthHeadersOf(p, address, accounts, c, nonce).value) == Some(Decimal(nonce))
  {
    if SignsAction(c) {
      ActionHeadersCarryTheNonce(p, address, accounts, c, nonce);
    } else {
      NonceStandsAt(StringHeadersOf(p, address, c, nonce).value, 2);
    }
  }

  lemma ActionHeadersCarryTheNonce(p: Primitives, address: Bytes, accounts: Accounts, c: Context, nonce: nat)
    requires accounts.Valid() && Fits64(c.timestampMs) && Fits64(nonce) && SignsAction(c)
    requires ActionHeadersOf(p, accounts, c, nonce).Ok?
    ensures NonceIn(Named(address, ActionHeadersOf(p, accounts, c, nonce)).value) == Some(Decimal(nonce))
  {
    var list := ActionHeadersOf(p, accounts, c, nonce).value.value;
    assert list[2] == (ActionNonce, Decimal(nonce));
    assert ([(AgentAddress, address)] + list)[3] == list[2];
    NonceStandsAt([(AgentAddress, address)] + list, 3);
  }

  lemma NonceStandsAt(headers: Headers, at: nat)
    requires at < |headers| && (headers[at].0.NonceHeader? || headers[at].0.ActionNonce?)
    requires forall i :: 0 <= i < at ==> !headers[i].0.NonceHeader? && !headers[i].0.ActionNonce?
    ensures NonceIn(headers) == Some(headers[at].1)
  {
    assert headers == headers[..at] + [headers[at]] + headers[at + 1..];
    FirstNonceCounts(headers[..at], headers[at].0, headers[at].1, headers[at + 1..]);
  }

  /** The counter after a run of requests, each of which draws one nonce. */
  function LastAfter(last: nat, run: seq<Context>): nat {
    if run == [] then last
    else NonceProtocol.NextNonce(LastAfter(last, run[..|run| - 1]), run[|run| - 1].timestampMs)
  }

  lemma {:induction false} NoncesRise(last: nat, run: seq<Context>, i: nat)
    requires i < |run| && LastAfter(last, run[..|run| - 1]) < NonceProtocol.U64_MAX
    ensures LastAfter(last, run[..i]) < LastAfter(last, run)
  {
    var n := |run| - 1;
    if i < n {
      CounterNeverFalls(last, run[..n]);
      NoncesRise(last, run[..n], i);
      assert run[..n][..i] == run[..i];
    }
  }

  lemma CounterNeverFalls(last: nat, run: seq<Context>)
    ensures run != [] ==> LastAfter(last, run[..|run| - 1]) <= LastAfter(last, run)
  {
  }

  /** Of any two requests of a run, however alike and however far apart, the headers
      differ, while the counter is below its ceiling. */
  lemma HeadersNeverRepeat(p: Primitives, address: Bytes, accounts: Accounts, last: nat, run: seq<Context>, i: nat,
                           j: nat)
    requires accounts.Valid() && i < j < |run| && LastAfter(last, run[..j]) < NonceProtocol.U64_MAX
    requires Fits64(run[i].timestampMs) && Fits64(run[j].timestampMs)
    requires Fits64(LastAfter(last, run[..i + 1])) && Fits64(LastAfter(last, run[..j + 1]))
    ensures var first := AuthHeadersOf(p, address, accounts, run[i], LastAfter(last, run[..i + 1]));
            var second := AuthHeadersOf(p, address, accounts, run[j], LastAfter(last, run[..j + 1]));
            first.Ok? && second.Ok? ==> first != second
  {
    var m, n := LastAfter(last, run[..i + 1]), LastAfter(last, run[..j + 1]);
    assert run[..j + 1][..j] == run[..j] && run[..j + 1][..i + 1] == run[..i + 1];
    NoncesRise(last, run[..j + 1], i + 1);
    if AuthHeadersOf(p, address, accounts, run[i], m).Ok? && AuthHeadersOf(p, address, accounts, run[j], n).Ok? {
      HeadersCarryTheNonce(p, address, accounts, run[i], m);
      HeadersCarryTheNonce(p, address, accounts, run[j], n);
      DecimalIsInjective(m, n);
    }
  }
}
