/** Percent and form coding: `encode_path_segment` (`src/rest.rs`), the form
    encoder the client sends queries with, and the decoder that reads them back
    for signing (`percent_decode` and `query_value` in `src/auth/trading.rs`).
    Text is its UTF-8 bytes: every `char` here is one byte. */
module Coding {
  import opened Common

  type Bytes = string

  ghost predicate IsBytes(s: Bytes) { forall i :: 0 <= i < |s| ==> s[i] as int < 256 }

  predicate Alphanumeric(c: char) { 'A' <= c <= 'Z' || 'a' <= c <= 'z' || '0' <= c <= '9' }

  /** RFC 3986, section 2.3: sent as themselves in a path segment. */
  predicate Unreserved(c: char) { Alphanumeric(c) || c == '-' || c == '.' || c == '_' || c == '~' }

  /** WHATWG URL, section 5.2: sent as themselves in a form. */
  predicate FormPlain(c: char) { Alphanumeric(c) || c == '*' || c == '-' || c == '.' || c == '_' }

  function HexDigit(n: nat): char
    requires n < 16
  {
    if n < 10 then '0' + n as char else 'A' + (n - 10) as char
  }

  function HexValue(c: char): Option<nat> {
    if '0' <= c <= '9' then Some(c as nat - '0' as nat)
    else if 'A' <= c <= 'F' then Some(c as nat - 'A' as nat + 10)
    else if 'a' <= c <= 'f' then Some(c as nat - 'a' as nat + 10)
    else None
  }

  function Escaped(c: char): Bytes { ['%', HexDigit(c as nat / 16 % 16), HexDigit(c as nat % 16)] }

  datatype Code = Path | Form

  function EncodedByte(code: Code, c: char): Bytes {
    if (if code.Path? then Unreserved(c) else FormPlain(c)) then [c]
    else if code.Form? && c == ' ' then "+"
    else Escaped(c)
  }

  function Encoded(code: Code, s: Bytes): Bytes {
    if s == [] then [] else EncodedByte(code, s[0]) + Encoded(code, s[1..])
  }

  /** The byte at the front, and how many characters spell it. */
  function DecodeOne(s: Bytes): (char, nat)
    requires s != []
  {
    if s[0] == '%' && |s| >= 3 && HexValue(s[1]).Some? && HexValue(s[2]).Some? then
      ((16 * HexValue(s[1]).value + HexValue(s[2]).value) as char, 3)
    else (if s[0] == '+' then ' ' else s[0], 1)
  }

  function Decoded(s: Bytes): Bytes
    decreases |s|
  {
    if s == [] then [] else [DecodeOne(s).0] + Decoded(s[DecodeOne(s).1..])
  }

  method EncodePathSegment(value: Bytes) returns (out: Bytes)
    ensures out == Encoded(Path, value)
  {
    out := [];
    var i := 0;
    while i < |value|
      invariant 0 <= i <= |value|
      invariant EncodedSoFar(value, i, out)
    {
      OneMoreEncoded(value, i, out);
      out := out + (if Unreserved(value[i]) then [value[i]] else Escaped(value[i]));
      i := i + 1;
    }
  }

  ghost predicate EncodedSoFar(value: Bytes, i: nat, out: Bytes)
    requires i <= |value|
  {
    Encoded(Path, value) == out + Encoded(Path, value[i..])
  }

  lemma OneMoreEncoded(value: Bytes, i: nat, out: Bytes)
    requires i < |value| && EncodedSoFar(value, i, out)
    ensures EncodedSoFar(value, i + 1, out + EncodedByte(Path, value[i]))
  {
    assert value[i..][1..] == value[i + 1..];
    var first, rest := EncodedByte(Path, value[i]), Encoded(Path, value[i + 1..]);
    assert out + (first + rest) == out + first + rest;
  }

  method PercentDecode(raw: Bytes) returns (decoded: Bytes)
    ensures decoded == Decoded(raw)
  {
    decoded := [];
    var index := 0;
    while index < |raw|
      invariant 0 <= index <= |raw|
      invariant DecodedSoFar(raw, index, decoded)
    {
      OneMoreDecoded(raw, index, decoded);
      var byte := raw[index];
      if byte == '%' && index + 3 <= |raw| && HexValue(raw[index + 1]).Some? && HexValue(raw[index + 2]).Some? {
        decoded := decoded + [(16 * HexValue(raw[index + 1]).value + HexValue(raw[index + 2]).value) as char];
        index := index + 3;
      } else {
        decoded := decoded + [if byte == '+' then ' ' else byte];
        index := index + 1;
      }
    }
  }

  ghost predicate DecodedSoFar(raw: Bytes, index: nat, decoded: Bytes)
    requires index <= |raw|
  {
    Decoded(raw) == decoded + Decoded(raw[index..])
  }

  lemma OneMoreDecoded(raw: Bytes, index: nat, decoded: Bytes)
    requires index < |raw| && DecodedSoFar(raw, index, decoded)
    ensures var (c, n) := DecodeOne(raw[index..]);
            index + n <= |raw| && DecodedSoFar(raw, index + n, decoded + [c])
  {
    var (c, n) := DecodeOne(raw[index..]);
    assert raw[index..][n..] == raw[index + n..];
    var rest := Decoded(raw[index + n..]);
    assert decoded + ([c] + rest) == decoded + [c] + rest;
  }

  /** The decoder reads a coded byte back, whatever follows it. */
  lemma ByteReadsBack(code: Code, c: char, rest: Bytes)
    requires c as int < 256
    ensures var text := EncodedByte(code, c);
            text != [] && DecodeOne(text + rest) == (c, |text|) && (text + rest)[|text|..] == rest
  {
    var n := c as nat;
    assert HexValue(HexDigit(n / 16 % 16)) == Some(n / 16 % 16) && HexValue(HexDigit(n % 16)) == Some(n % 16);
    assert 16 * (n / 16 % 16) + n % 16 == n;
  }

  lemma {:induction false} DecodeUndoesEncode(code: Code, s: Bytes)
    requires IsBytes(s)
    ensures Decoded(Encoded(code, s)) == s
  {
    if s != [] {
      DecodeUndoesEncode(code, s[1..]);
      ByteReadsBack(code, s[0], Encoded(code, s[1..]));
    }
  }

  lemma EscapesArePlain(c: char)
    ensures Alphanumeric(Escaped(c)[1]) && Alphanumeric(Escaped(c)[2])
  {
  }

  predicate EscapeAt(s: Bytes, i: nat) {
    i + 2 < |s| && s[i] == '%' && HexValue(s[i + 1]).Some? && HexValue(s[i + 2]).Some?
  }

  /** Decoding never lengthens, and leaves a text as it is exactly when it holds no plus sign
      and no whole escape: a malformed one stands for itself. */
  lemma {:induction false} DecodedIsItselfIff(s: Bytes)
    ensures |Decoded(s)| <= |s|
    ensures Decoded(s) == s <==> forall i :: 0 <= i < |s| ==> s[i] != '+' && !EscapeAt(s, i)
    decreases |s|
  {
    if s != [] {
      var n := DecodeOne(s).1;
      DecodedIsItselfIff(s[n..]);
      if n == 1 {
        assert Decoded(s) == [DecodeOne(s).0] + Decoded(s[1..]);
        forall i | 0 < i < |s| ensures EscapeAt(s, i) <==> EscapeAt(s[1..], i - 1) {}
        ItselfFromRest(s);
      } else {
        assert EscapeAt(s, 0);
      }
    }
  }

  lemma ItselfFromRest(s: Bytes)
    requires s != [] && DecodeOne(s).1 == 1
    requires Decoded(s[1..]) == s[1..] <==> forall i :: 0 <= i < |s[1..]| ==> s[1..][i] != '+' && !EscapeAt(s[1..], i)
    requires forall i :: 0 < i < |s| ==> (EscapeAt(s, i) <==> EscapeAt(s[1..], i - 1))
    ensures Decoded(s) == s <==> forall i :: 0 <= i < |s| ==> s[i] != '+' && !EscapeAt(s, i)
  {
    assert Decoded(s)[1..] == Decoded(s[1..]) && Decoded(s)[0] == DecodeOne(s).0;
    if Decoded(s) == s {
      forall i | 0 <= i < |s| ensures s[i] != '+' && !EscapeAt(s, i) {
        if i > 0 { assert s[1..][i - 1] == s[i]; }
      }
    }
    if forall i :: 0 <= i < |s| ==> s[i] != '+' && !EscapeAt(s, i) {
      forall i | 0 <= i < |s[1..]| ensures s[1..][i] != '+' && !EscapeAt(s[1..], i) {
        assert s[1..][i] == s[i + 1] && !EscapeAt(s, i + 1);
      }
      assert s == [s[0]] + s[1..];
    }
  }

  /** An encoded segment has nothing but unreserved characters and escapes, so it
      cannot end or split its place in a path. */
  lemma {:induction false} SegmentIsPlain(s: Bytes)
    ensures forall c :: c in Encoded(Path, s) ==> Unreserved(c) || c == '%'
  {
    if s != [] {
      SegmentIsPlain(s[1..]);
      EscapesArePlain(s[0]);
      assert forall c :: c in EncodedByte(Path, s[0]) ==> Unreserved(c) || c == '%';
    }
  }

  /** An encoded segment is the text itself exactly when that has nothing to escape. */
  lemma {:induction false} SegmentIsItselfIff(s: Bytes)
    ensures |Encoded(Path, s)| >= |s|
    ensures Encoded(Path, s) == s <==> forall i :: 0 <= i < |s| ==> Unreserved(s[i])
  {
    if s != [] {
      SegmentIsItselfIff(s[1..]);
      if Unreserved(s[0]) {
        assert Encoded(Path, s)[1..] == Encoded(Path, s[1..]);
        assert forall i :: 0 <= i < |s[1..]| ==> s[1..][i] == s[i + 1];
      }
    }
  }

  /** What the WHATWG URL Standard (section 4.4, "URL parsing") takes for a dot at
      the front of a path segment, and what is left then. */
  function AfterDot(s: Bytes): Option<Bytes> {
    if s != [] && s[0] == '.' then Some(s[1..])
    else if |s| >= 3 && s[0] == '%' && s[1] == '2' && (s[2] == 'e' || s[2] == 'E') then Some(s[3..])
    else None
  }

  /** One dot or two: a URL parser removes the segment, and with two the one before. */
  predicate DotSegment(s: Bytes) {
    AfterDot(s).Some? && (AfterDot(s).value == [] || AfterDot(AfterDot(s).value) == Some([]))
  }

  lemma AfterDotDecodes(s: Bytes)
    requires AfterDot(s).Some?
    ensures Decoded(s) == ['.'] + Decoded(AfterDot(s).value)
  {
    assert HexValue('2') == Some(2) && HexValue('e') == HexValue('E') == Some(14) && (16 * 2 + 14) as char == '.';
  }

  /** Encoding keeps a segment in its place, with two exceptions: dots are sent as
      they are, so the texts "." and ".." are dot segments still. */
  lemma DotSegmentIff(s: Bytes)
    requires IsBytes(s)
    ensures DotSegment(Encoded(Path, s)) <==> s == "." || s == ".."
  {
    var t := Encoded(Path, s);
    DecodeUndoesEncode(Path, s);
    if DotSegment(t) {
      AfterDotDecodes(t);
      if AfterDot(t).value != [] { AfterDotDecodes(AfterDot(t).value); }
    }
    DotsStayDots();
  }

  lemma DotsStayDots()
    ensures Encoded(Path, ".") == "." && Encoded(Path, "..") == ".."
    ensures DotSegment(".") && DotSegment("..")
  {
    assert Encoded(Path, ".") == EncodedByte(Path, '.') + Encoded(Path, []);
    assert ".."[1..] == ".";
    assert Encoded(Path, "..") == EncodedByte(Path, '.') + Encoded(Path, ".");
  }

  // ----- queries -------------------------------------------------------------------------------

  /** Index of the first `c`, or the length. */
  function Find(s: Bytes, c: char): (i: nat)
    ensures i <= |s|
  {
    if s == [] || s[0] == c then 0 else 1 + Find(s[1..], c)
  }

  /** The first `name=` value, key and value decoded. */
  function QueryValue(query: Bytes, name: Bytes): Option<Bytes>
    decreases |query|
  {
    var end := Find(query, '&');
    var pair := query[..end];
    var eq := Find(pair, '=');
    if Decoded(pair[..eq]) == name then Some(Decoded(if eq < |pair| then pair[eq + 1..] else []))
    else if end < |query| then QueryValue(query[end + 1..], name)
    else None
  }

  function FormPair(pair: (Bytes, Bytes)): Bytes { Encoded(Form, pair.0) + "=" + Encoded(Form, pair.1) }

  /** How the client writes a query. */
  function FormQuery(pairs: seq<(Bytes, Bytes)>): Bytes {
    if pairs == [] then []
    else if |pairs| == 1 then FormPair(pairs[0])
    else FormPair(pairs[0]) + "&" + FormQuery(pairs[1..])
  }

  function FirstValue(pairs: seq<(Bytes, Bytes)>, name: Bytes): Option<Bytes> {
    if pairs == [] then None else if pairs[0].0 == name then Some(pairs[0].1) else FirstValue(pairs[1..], name)
  }

  lemma {:induction false} FindSkips(a: Bytes, c: char, rest: Bytes)
    requires c !in a
    ensures Find(a, c) == |a| && Find(a + [c] + rest, c) == |a|
  {
    if a != [] {
      assert (a + [c] + rest)[1..] == a[1..] + [c] + rest;
      FindSkips(a[1..], c, rest);
    }
  }

  lemma {:induction false} FormHasNoSeparators(s: Bytes)
    ensures '&' !in Encoded(Form, s) && '=' !in Encoded(Form, s)
  {
    if s != [] {
      FormHasNoSeparators(s[1..]);
      EscapesArePlain(s[0]);
      assert '&' !in EncodedByte(Form, s[0]) && '=' !in EncodedByte(Form, s[0]);
    }
  }

  /** The characters form encoding writes. */
  predicate FormWrites(c: char) { FormPlain(c) || c == '+' || c == '%' || c == '=' || c == '&' }

  lemma {:induction false} FormIsPlain(s: Bytes)
    ensures forall c :: c in Encoded(Form, s) ==> FormWrites(c)
  {
    if s != [] {
      FormIsPlain(s[1..]);
      EscapesArePlain(s[0]);
      assert forall c :: c in EncodedByte(Form, s[0]) ==> FormWrites(c);
    }
  }

  /** A query that is sent is made of those. */
  lemma {:induction false} QueryHoldsOnly(pairs: seq<(Bytes, Bytes)>, c: char)
    requires !FormWrites(c)
    ensures c !in FormQuery(pairs)
  {
    if pairs != [] {
      FormIsPlain(pairs[0].0);
      FormIsPlain(pairs[0].1);
      assert c !in FormPair(pairs[0]);
      QueryHoldsOnly(pairs[1..], c);
    }
  }

  /** `text` reads as one pair. */
  predicate Spells(text: Bytes, key: Bytes, value: Bytes) {
    var eq := Find(text, '=');
    '&' !in text && eq < |text| && Decoded(text[..eq]) == key && Decoded(text[eq + 1..]) == value
  }

  lemma PairIsSpelled(pair: (Bytes, Bytes))
    requires IsBytes(pair.0) && IsBytes(pair.1)
    ensures Spells(FormPair(pair), pair.0, pair.1)
  {
    var key, value := Encoded(Form, pair.0), Encoded(Form, pair.1);
    FormHasNoSeparators(pair.0);
    FormHasNoSeparators(pair.1);
    assert FormPair(pair) == key + ['='] + value;
    FindSkips(key, '=', value);
    DecodeUndoesEncode(Form, pair.0);
    DecodeUndoesEncode(Form, pair.1);
    assert FormPair(pair)[..|key|] == key && FormPair(pair)[|key| + 1..] == value;
  }

  lemma LastIsRead(text: Bytes, key: Bytes, value: Bytes, name: Bytes)
    requires Spells(text, key, value)
    ensures QueryValue(text, name) == if key == name then Some(value) else None
  {
    FindSkips(text, '&', []);
    assert text[..|text|] == text;
  }

  lemma LeadingIsRead(text: Bytes, key: Bytes, value: Bytes, rest: Bytes, name: Bytes)
    requires Spells(text, key, value)
    ensures QueryValue(text + ['&'] + rest, name) == if key == name then Some(value) else QueryValue(rest, name)
  {
    var query := text + ['&'] + rest;
    FindSkips(text, '&', rest);
    assert query[..|text|] == text && query[|text| + 1..] == rest;
  }

  lemma LastPairIsRead(pair: (Bytes, Bytes), name: Bytes)
    requires IsBytes(pair.0) && IsBytes(pair.1)
    ensures QueryValue(FormPair(pair), name) == if pair.0 == name then Some(pair.1) else None
  {
    PairIsSpelled(pair);
    LastIsRead(FormPair(pair), pair.0, pair.1, name);
  }

  lemma LeadingPairIsRead(pair: (Bytes, Bytes), rest: Bytes, name: Bytes)
    requires IsBytes(pair.0) && IsBytes(pair.1)
    ensures QueryValue(FormPair(pair) + "&" + rest, name) ==
              if pair.0 == name then Some(pair.1) else QueryValue(rest, name)
  {
    PairIsSpelled(pair);
    LeadingIsRead(FormPair(pair), pair.0, pair.1, rest, name);
  }

  /** Whatever pairs the caller passes, reading a name back from the query that is
      sent gives the first value passed under it. */
  lemma {:induction false} QueryReadsBack(pairs: seq<(Bytes, Bytes)>, name: Bytes)
    requires forall i :: 0 <= i < |pairs| ==> IsBytes(pairs[i].0) && IsBytes(pairs[i].1)
    requires name != []
    ensures QueryValue(FormQuery(pairs), name) == FirstValue(pairs, name)
  {
    if |pairs| == 1 {
      LastPairIsRead(pairs[0], name);
    } else if pairs != [] {
      LeadingPairIsRead(pairs[0], FormQuery(pairs[1..]), name);
      QueryReadsBack(pairs[1..], name);
    }
  }
}
