/** What the server can make of an authenticated request (`src/auth/agent.rs`,
    `src/auth/mod.rs`): the lines of the signed string, and the headers from which it is
    put together again. */
module AgentHeaders {
  import opened Common
  import opened Coding
  import opened Text
  import opened TradingDigest
  import opened AgentAuth

  // ----- the lines of the signed strings ----------------------------------------------------

  /** The parts between separators, empty ones too. */
  function Lines(s: Bytes): seq<Bytes>
    decreases |s|
  {
    var end := Find(s, LF);
    [s[..end]] + if end < |s| then Lines(s[end + 1..]) else []
  }

  lemma LastLine(s: Bytes)
    requires LF !in s
    ensures Lines(s) == [s]
  {
    FindSkips(s, LF, []);
    assert s[..|s|] == s;
  }

  lemma OneLine(line: Bytes, rest: Bytes)
    requires LF !in line
    ensures Lines(line + [LF] + rest) == [line] + Lines(rest)
  {
    var s := line + [LF] + rest;
    FindSkips(line, LF, rest);
    assert s[..|line|] == line && s[|line| + 1..] == rest;
  }

  /** Lines put together. */
  function Stacked(lines: seq<Bytes>): Bytes
    requires lines != []
  {
    if |lines| == 1 then lines[0] else lines[0] + [LF] + Stacked(lines[1..])
  }

  lemma {:induction false} LinesReadBack(lines: seq<Bytes>)
    requires lines != [] && forall line :: line in lines ==> LF !in line
    ensures Lines(Stacked(lines)) == lines
  {
    assert lines[0] in lines;
    if |lines| == 1 {
      LastLine(lines[0]);
    } else {
      LinesReadBack(lines[1..]);
      OneLine(lines[0], Stacked(lines[1..]));
      assert lines == [lines[0]] + lines[1..];
    }
  }

  lemma SixLines(a: Bytes, b: Bytes, c: Bytes, d: Bytes, e: Bytes, f: Bytes)
    ensures Stacked([a, b, c, d, e, f]) == a + [LF] + b + [LF] + c + [LF] + d + [LF] + e + [LF] + f
  {
    FiveLines(b, c, d, e, f);
    assert [a, b, c, d, e, f][1..] == [b, c, d, e, f];
  }

  lemma ThreeLines(a: Bytes, b: Bytes, c: Bytes)
    ensures Stacked([a, b, c]) == a + [LF] + (b + [LF] + c)
  {
    assert [a, b, c][1..] == [b, c] && [b, c][1..] == [c];
    assert Stacked([b, c]) == b + [LF] + Stacked([c]);
  }

  lemma FiveLines(a: Bytes, b: Bytes, c: Bytes, d: Bytes, e: Bytes)
    ensures Stacked([a, b, c, d, e]) == a + [LF] + b + [LF] + c + [LF] + d + [LF] + e
  {
    assert [a, b, c, d, e][1..] == [b, c, d, e] && [b, c, d, e][1..] == [c, d, e];
    ThreeLines(c, d, e);
    assert Stacked([b, c, d, e]) == b + [LF] + Stacked([c, d, e]);
    assert Stacked([a, b, c, d, e]) == a + [LF] + Stacked([b, c, d, e]);
  }

  /** The agent string: verb, path, query, hash of the body, time and nonce, a line each. */
  lemma CanonicalLines(sha: Hash, c: Context, nonce: nat)
    requires LF !in c.verb && LF !in c.path && LF !in c.query
    ensures Lines(Canonical(sha, c, nonce))
         == [Upper(c.verb), c.path, c.query, Hex(sha(c.body)), Decimal(c.timestampMs), Decimal(nonce)]
  {
    var lines := [Upper(c.verb), c.path, c.query, Hex(sha(c.body)), Decimal(c.timestampMs), Decimal(nonce)];
    FieldsHoldNoLineFeed(sha, c, nonce);
    SixLines(lines[0], lines[1], lines[2], lines[3], lines[4], lines[5]);
    LinesReadBack(lines);
  }

  /** The HMAC string: time, verb, path, query and hash of the body. */
  lemma HmacLines(sha: Hash, c: Context)
    requires LF !in c.verb && LF !in c.path && LF !in c.query
    ensures Lines(HmacCanonical(sha, c))
         == [Decimal(c.timestampMs), Upper(c.verb), c.path, c.query, Hex(sha(c.body))]
  {
    var lines := [Decimal(c.timestampMs), Upper(c.verb), c.path, c.query, Hex(sha(c.body))];
    FieldsHoldNoLineFeed(sha, c, 0);
    FiveLines(lines[0], lines[1], lines[2], lines[3], lines[4]);
    LinesReadBack(lines);
  }

  // ----- what the headers let the server rebuild -----------------------------------------------

  /** The first header of a name. */
  function ValueOf(headers: Headers, name: Header): Option<Bytes> {
    if headers == [] then None else if headers[0].0 == name then Some(headers[0].1) else ValueOf(headers[1..], name)
  }

  lemma FourHeaders(a: (Header, Bytes), b: (Header, Bytes), c: (Header, Bytes), d: (Header, Bytes), rest: Headers,
                    name: Header)
    ensures ValueOf([a, b, c, d] + rest, name) ==
              if a.0 == name then Some(a.1) else if b.0 == name then Some(b.1) else if c.0 == name then Some(c.1)
              else if d.0 == name then Some(d.1) else ValueOf(rest, name)
  {
    assert [a, b, c, d] + rest == [a] + ([b] + ([c] + ([d] + rest)));
    NextHeader(a, [b] + ([c] + ([d] + rest)), name);
    NextHeader(b, [c] + ([d] + rest), name);
    NextHeader(c, [d] + rest, name);
    NextHeader(d, rest, name);
  }

  lemma NextHeader(a: (Header, Bytes), rest: Headers, name: Header)
    ensures ValueOf([a] + rest, name) == if a.0 == name then Some(a.1) else ValueOf(rest, name)
  {
    assert ([a] + rest)[1..] == rest;
  }

  /** The signature is over the string that the server makes of the request and of the
      headers as they are; the agent is named. */
  lemma StringIsRebuilt(p: Primitives, address: Bytes, accounts: Accounts, c: Context, nonce: nat)
    requires accounts.Valid() && Fits64(c.timestampMs) && Fits64(nonce) && !SignsAction(c)
    requires AuthHeadersOf(p, address, accounts, c, nonce).Ok?
    ensures var h := AuthHeadersOf(p, address, accounts, c, nonce).value;
            var time, number := ValueOf(h, Timestamp), ValueOf(h, NonceHeader);
            && time.Some? && number.Some? && ValueOf(h, AgentAddress) == Some(address)
            && ValueOf(h, Signature) ==
                 p.sign(p.eip712.hash(Upper(c.verb) + [LF] + c.path + [LF] + c.query + [LF] + Hex(p.sha(c.body)) + [LF]
                                      + time.value + [LF] + number.value))
  {
    var h := AuthHeadersOf(p, address, accounts, c, nonce).value;
    assert h == h + [];
    assert h == [h[0], h[1], h[2], h[3]];
    FourHeaders(h[0], h[1], h[2], h[3], [], Timestamp);
    FourHeaders(h[0], h[1], h[2], h[3], [], NonceHeader);
    FourHeaders(h[0], h[1], h[2], h[3], [], Signature);
  }

  lemma ActingHeader(accounts: Accounts)
    ensures var rest := if accounts.acting.Some? && accounts.acting != accounts.own then
                          [(ActingAccount, "0x" + Hex(accounts.acting.value))]
                        else [];
            ValueOf(rest, ActingAccount) ==
              if accounts.acting.Some? && accounts.acting != accounts.own then Some("0x" + Hex(accounts.acting.value))
              else None
  {
  }

  /** For an action: the time and the nonce in the headers are those signed, the account that
      is acted for is named exactly when it is not the signer's own, and the signature is over
      the digest with all of them. */
  lemma ActionIsRebuilt(p: Primitives, address: Bytes, accounts: Accounts, c: Context, nonce: nat)
    requires accounts.Valid() && Fits64(c.timestampMs) && Fits64(nonce) && SignsAction(c)
    requires AuthHeadersOf(p, address, accounts, c, nonce).Ok?
    ensures SignedHash(p, accounts, c, nonce).Ok?
    ensures var h := AuthHeadersOf(p, address, accounts, c, nonce).value;
            && ValueOf(h, AgentAddress) == Some(address)
            && ValueOf(h, ActionTimestamp) == Some(Decimal(c.timestampMs))
            && ValueOf(h, ActionNonce) == Some(Decimal(nonce))
            && ValueOf(h, ActionSignature) == p.sign(SignedHash(p, accounts, c, nonce).value)
            && ValueOf(h, ActingAccount) ==
                 if accounts.acting.Some? && accounts.acting != accounts.own then
                   Some("0x" + Hex(accounts.acting.value))
                 else None
  {
    var h := AuthHeadersOf(p, address, accounts, c, nonce).value;
    var rest := if accounts.acting.Some? && accounts.acting != accounts.own then
                  [(ActingAccount, "0x" + Hex(accounts.acting.value))]
                else [];
    var sig := p.sign(SignedHash(p, accounts, c, nonce).value).value;
    var time, number := (ActionTimestamp, Decimal(c.timestampMs)), (ActionNonce, Decimal(nonce));
    assert h == [(AgentAddress, address), (ActionSignature, sig), time, number] + rest;
    FourHeaders((AgentAddress, address), (ActionSignature, sig), time, number, rest, ActionTimestamp);
    FourHeaders((AgentAddress, address), (ActionSignature, sig), time, number, rest, ActionNonce);
    FourHeaders((AgentAddress, address), (ActionSignature, sig), time, number, rest, ActionSignature);
    FourHeaders((AgentAddress, address), (ActionSignature, sig), time, number, rest, ActingAccount);
    ActingHeader(accounts);
  }

  // ----- the counter ----------------------------------------------------------------------------

  /** After a run on clocks up to `t` the counter is past the later of `t` and where it began
      by no more than the requests of the run. */
  lemma {:induction false} LastFollowsTheClock(last: nat, run: seq<Context>, t: nat)
    requires forall c :: c in run ==> c.timestampMs <= t
    ensures LastAfter(last, run) <= MaxNat(last, t) + |run|
  {
    if run != [] {
      assert run[|run| - 1] in run;
      LastFollowsTheClock(last, run[..|run| - 1], t);
    }
  }

  /** So headers never repeat in any run that clock and length keep below the ceiling. */
  lemma HeadersDifferBelowTheCeiling(p: Primitives, address: Bytes, accounts: Accounts, last: nat, run: seq<Context>,
                                     t: nat, i: nat, j: nat)
    requires accounts.Valid() && i < j < |run| && MaxNat(last, t) + |run| < NonceProtocol.U64_MAX
    requires forall c :: c in run ==> c.timestampMs <= t
    ensures Fits64(run[i].timestampMs) && Fits64(run[j].timestampMs)
    ensures Fits64(LastAfter(last, run[..i + 1])) && Fits64(LastAfter(last, run[..j + 1]))
    ensures var first := AuthHeadersOf(p, address, accounts, run[i], LastAfter(last, run[..i + 1]));
            var second := AuthHeadersOf(p, address, accounts, run[j], LastAfter(last, run[..j + 1]));
            first.Ok? && second.Ok? ==> first != second
  {
    assert run[i] in run && run[j] in run;
    LastFollowsTheClock(last, run[..i + 1], t);
    LastFollowsTheClock(last, run[..j], t);
    LastFollowsTheClock(last, run[..j + 1], t);
    HeadersNeverRepeat(p, address, accounts, last, run, i, j);
  }
}
