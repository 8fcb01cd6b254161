/** Scrubbing websocket tokens out of reasons and logs (`redact_token` in
    `src/ws.rs`). */
module Redaction {
  import opened Common
  import opened Coding

  predicate Delimiter(c: char) { c == '&' || c == ' ' || c == '"' || c == ')' }

  /** "token=" stands at position `i`. */
  predicate KeyAt(s: string, i: nat) {
    && i + 6 <= |s|
    && s[i] == 't' && s[i + 1] == 'o' && s[i + 2] == 'k' && s[i + 3] == 'e' && s[i + 4] == 'n' && s[i + 5] == '='
  }

  function FindKey(s: string): (i: Option<nat>)
    ensures i.Some? ==> KeyAt(s, i.value) && forall j :: 0 <= j < i.value ==> !KeyAt(s, j)
    ensures i.None? ==> forall j :: 0 <= j <= |s| ==> !KeyAt(s, j)
  {
    if s == [] then None
    else if KeyAt(s, 0) then Some(0)
    else
      var i := FindKey(s[1..]);
      assert forall j :: 1 <= j <= |s| ==> (KeyAt(s, j) <==> KeyAt(s[1..], j - 1));
      if i.None? then None else Some(i.value + 1)
  }

  /** Length of the value at the front: up to the first delimiter. */
  function ValueLength(s: string): (n: nat)
    ensures n <= |s| && (n < |s| ==> Delimiter(s[n])) && forall j :: 0 <= j < n ==> !Delimiter(s[j])
  {
    if s == [] || Delimiter(s[0]) then 0 else 1 + ValueLength(s[1..])
  }

  function Redacted(s: string): string
    decreases |s|
  {
    match FindKey(s)
    case None => s
    case Some(i) => s[..i + 6] + "***" + Redacted(AfterValue(s, i + 6))
  }

  /** What is left of `s` after the value that starts at `start`. */
  function AfterValue(s: string, start: nat): (rest: string)
    requires start <= |s|
    ensures |rest| <= |s| - start
    ensures rest == "" || Delimiter(rest[0])
  {
    s[start + ValueLength(s[start..])..]
  }

  ghost predicate RedactedSoFar(reason: string, out: string, rest: string) { Redacted(reason) == out + Redacted(rest) }

  lemma Regroup(a: string, b: string, c: string, d: string)
    ensures a + (b + c + d) == a + b + c + d
  {
  }

  lemma RedactionStep(reason: string, out: string, s: string, i: nat)
    requires FindKey(s) == Some(i) && RedactedSoFar(reason, out, s)
    ensures RedactedSoFar(reason, out + s[..i + 6] + "***", AfterValue(s, i + 6))
  {
    Regroup(out, s[..i + 6], "***", Redacted(AfterValue(s, i + 6)));
  }

  method RedactToken(reason: string) returns (out: string)
    ensures out == Redacted(reason)
  {
    if FindKey(reason).None? {
      return reason;
    }
    out := "";
    var rest := reason;
    var start := FindKey(rest);
    while start.Some?
      invariant start == FindKey(rest)
      invariant RedactedSoFar(reason, out, rest)
      decreases |rest|
    {
      RedactionStep(reason, out, rest, start.value);
      var valueStart := start.value + 6;
      out := out + rest[..valueStart] + "***";
      rest := AfterValue(rest, valueStart);
      start := FindKey(rest);
    }
    assert Redacted(rest) == rest;
    out := out + rest;
  }

  /** Every "token=" is followed by exactly "***" and then a delimiter or the end. */
  ghost predicate Sealed(s: string) { forall i: nat :: KeyAt(s, i) ==> SealedAt(s, i) }

  predicate SealedAt(s: string, i: nat) {
    i + 9 <= |s| && s[i + 6] == s[i + 7] == s[i + 8] == '*' && (i + 9 < |s| ==> Delimiter(s[i + 9]))
  }

  /** What is kept in front of a value does not run into what follows it. */
  lemma KeysSurviveSeal(s: string, i: nat, tail: string, j: nat)
    requires FindKey(s) == Some(i)
    ensures var out := s[..i + 6] + "***" + tail;
            KeyAt(out, j) <==> j == i || (j >= i + 9 && KeyAt(tail, j - i - 9))
  {
    var out := s[..i + 6] + "***" + tail;
    if j < i {
      assert !KeyAt(s, j);
    } else if i + 9 <= j {
      assert KeyAt(out, j) <==> KeyAt(tail, j - i - 9);
    } else if j > i {
      assert out[j] != 't';
    }
  }

  /** Redaction keeps the delimiter, or the emptiness, it starts at. */
  lemma RedactedKeepsFront(s: string)
    ensures (s == "" ==> Redacted(s) == "")
    ensures s != "" && Delimiter(s[0]) ==> Redacted(s) != "" && Redacted(s)[0] == s[0]
  {
  }

  lemma SealsAreKept(front: string, tail: string, j: nat)
    requires tail == "" || Delimiter(tail[0])
    requires j + 6 == |front| || (j >= |front| + 3 && SealedAt(tail, j - |front| - 3))
    ensures SealedAt(front + "***" + tail, j)
  {
  }

  lemma SealOne(s: string, i: nat, tail: string)
    requires FindKey(s) == Some(i) && Sealed(tail) && (tail == "" || Delimiter(tail[0]))
    ensures Sealed(s[..i + 6] + "***" + tail)
  {
    var out := s[..i + 6] + "***" + tail;
    forall j: nat | KeyAt(out, j) ensures SealedAt(out, j) {
      KeysSurviveSeal(s, i, tail, j);
      SealsAreKept(s[..i + 6], tail, j);
    }
  }

  lemma {:induction false} RedactedIsSealed(s: string)
    ensures Sealed(Redacted(s))
    decreases |s|
  {
    var found := FindKey(s);
    if found.Some? {
      var rest := AfterValue(s, found.value + 6);
      RedactedIsSealed(rest);
      RedactedKeepsFront(rest);
      SealOne(s, found.value, Redacted(rest));
    }
  }

  /** A string is left as it is exactly when it is sealed already. */
  lemma {:induction false} FixedIffSealed(s: string)
    ensures Redacted(s) == s <==> Sealed(s)
    decreases |s|
  {
    RedactedIsSealed(s);
    var found := FindKey(s);
    if Sealed(s) && found.Some? {
      var i := found.value;
      assert SealedAt(s, i);
      var value := s[i + 6..];
      assert value[0] == '*' && value[1] == '*' && value[2] == '*' && (|value| > 3 ==> Delimiter(value[3]));
      assert ValueLength(value) == 3;
      var rest := s[i + 9..];
      forall j: nat | KeyAt(rest, j) ensures SealedAt(rest, j) {
        assert KeyAt(s, i + 9 + j);
        assert SealedAt(s, i + 9 + j);
      }
      FixedIffSealed(rest);
      assert s == s[..i + 6] + "***" + rest;
    }
  }

  lemma RedactionIsIdempotent(s: string)
    ensures Redacted(Redacted(s)) == Redacted(s)
  {
    RedactedIsSealed(s);
    FixedIffSealed(Redacted(s));
  }

  // ----- what the output depends on ------------------------------------------------------------

  /** Text around token values: pieces, each followed by "token=" and a value. */
  datatype Text = Last(piece: string) | More(piece: string, value: string, rest: Text)

  function Fill(t: Text): string {
    match t
    case Last(piece) => piece
    case More(piece, value, rest) => piece + "token=" + value + Fill(rest)
  }

  function Masked(t: Text): Text {
    match t
    case Last(piece) => t
    case More(piece, value, rest) => More(piece, "***", Masked(rest))
  }

  ghost predicate NoKey(s: string) { forall i: nat :: !KeyAt(s, i) }

  /** Pieces hold no token, values hold no delimiter, and what follows a value
      starts with one or is the end. */
  ghost predicate WellFormed(t: Text) {
    match t
    case Last(piece) => NoKey(piece)
    case More(piece, value, rest) =>
      && NoKey(piece)
      && (forall i :: 0 <= i < |value| ==> !Delimiter(value[i]))
      && (if rest.piece == "" then rest.Last? else Delimiter(rest.piece[0]))
      && WellFormed(rest)
  }

  /** Every string reads as such a text. */
  function Parsed(s: string): Text
    decreases |s|
  {
    match FindKey(s)
    case None => Last(s)
    case Some(i) =>
      More(s[..i], s[i + 6..][..ValueLength(s[i + 6..])], Parsed(AfterValue(s, i + 6)))
  }

  lemma TextPiecesJoin(s: string, i: nat)
    requires FindKey(s) == Some(i)
    ensures s[..i] + "token=" + s[i + 6..][..ValueLength(s[i + 6..])] + AfterValue(s, i + 6) == s
  {
    assert s[i..i + 6] == "token=";
    var n := ValueLength(s[i + 6..]);
    assert s[i + 6..][..n] == s[i + 6..i + 6 + n];
  }

  lemma NoKeyBeforeTheFirst(s: string, i: nat)
    requires FindKey(s) == Some(i)
    ensures NoKey(s[..i])
  {
    forall j: nat ensures !KeyAt(s[..i], j) {
      if KeyAt(s[..i], j) {
        assert KeyAt(s, j);
      }
    }
  }

  lemma FrontOfParsed(s: string)
    requires s == "" || Delimiter(s[0])
    ensures var piece := Parsed(s).piece; if piece == "" then Parsed(s).Last? else Delimiter(piece[0])
  {
  }

  lemma {:induction false} EveryStringIsAText(s: string)
    ensures Fill(Parsed(s)) == s && WellFormed(Parsed(s))
    decreases |s|
  {
    var found := FindKey(s);
    if found.None? {
      assert forall j: nat :: KeyAt(s, j) ==> j <= |s|;
    } else {
      var i := found.value;
      EveryStringIsAText(AfterValue(s, i + 6));
      TextPiecesJoin(s, i);
      NoKeyBeforeTheFirst(s, i);
      FrontOfParsed(AfterValue(s, i + 6));
    }
  }

  lemma KeyComesAfterPiece(piece: string, tail: string)
    requires NoKey(piece)
    ensures FindKey(piece + "token=" + tail) == Some(|piece|)
  {
    var s := piece + "token=" + tail;
    var n := |piece|;
    assert KeyAt(s, n);
    forall j | 0 <= j < n ensures !KeyAt(s, j) {
      if j + 6 <= n {
        assert !KeyAt(piece, j);
      } else {
        assert s[n] == 't';
      }
    }
  }

  /** The output is the text with every value masked, so it depends on the pieces
      alone: inputs that differ only in delimiter-free token values agree. */
  lemma {:induction false} OnlyPiecesShow(t: Text)
    requires WellFormed(t)
    ensures Redacted(Fill(t)) == Fill(Masked(t))
  {
    match t {
      case Last(piece) => assert FindKey(piece).None?;
      case More(piece, value, rest) =>
        var s, tail := Fill(t), value + Fill(rest);
        assert s == piece + "token=" + tail;
        KeyComesAfterPiece(piece, tail);
        assert s[|piece| + 6..] == tail;
        FrontOfFill(rest);
        ValueEnds(value, Fill(rest));
        assert s[|piece| + 6 + |value|..] == Fill(rest);
        assert s[..|piece| + 6] == piece + "token=";
        OnlyPiecesShow(rest);
    }
  }

  lemma FrontOfFill(t: Text)
    requires if t.piece == "" then t.Last? else Delimiter(t.piece[0])
    ensures Fill(t) == "" || Delimiter(Fill(t)[0])
  {
  }

  lemma {:induction false} ValueEnds(value: string, tail: string)
    requires forall i :: 0 <= i < |value| ==> !Delimiter(value[i])
    requires tail == "" || Delimiter(tail[0])
    ensures ValueLength(value + tail) == |value|
  {
    if value != "" {
      ValueEnds(value[1..], tail);
      assert (value + tail)[1..] == value[1..] + tail;
    }
  }

  /** Two reasons with the same pieces are redacted alike. */
  lemma TokensDoNotShow(t: Text, u: Text)
    requires WellFormed(t) && WellFormed(u) && Masked(t) == Masked(u)
    ensures Redacted(Fill(t)) == Redacted(Fill(u))
  {
    OnlyPiecesShow(t);
    OnlyPiecesShow(u);
  }

  // ----- the tokens of the connect URL ---------------------------------------------------------

  lemma {:induction false} FormHasNoDelimiter(token: Bytes)
    ensures forall i :: 0 <= i < |Encoded(Form, token)| ==> !Delimiter(Encoded(Form, token)[i])
  {
    if token != [] {
      var first, rest := EncodedByte(Form, token[0]), Encoded(Form, token[1..]);
      FormHasNoDelimiter(token[1..]);
      EscapesArePlain(token[0]);
      forall i | 0 <= i < |first + rest| ensures !Delimiter((first + rest)[i]) {
        if i >= |first| { assert (first + rest)[i] == rest[i - |first|]; }
      }
    }
  }

  predicate Undelimited(s: string) { forall i :: 0 <= i < |s| ==> !Delimiter(s[i]) }

  lemma {:induction false} ValueLengthOf(a: string, b: string)
    ensures ValueLength(a + b) == if ValueLength(a) < |a| then ValueLength(a) else |a| + ValueLength(b)
  {
    if a == "" {
      assert a + b == b;
    } else {
      assert (a + b)[1..] == a[1..] + b;
      if !Delimiter(a[0]) { ValueLengthOf(a[1..], b); }
    }
  }

  lemma AfterFront(front: string, tail: string)
    ensures AfterValue(front + tail, |front|) == tail[ValueLength(tail)..]
  {
    var n := ValueLength(tail);
    assert (front + tail)[|front|..] == tail;
    assert (front + tail)[|front| + n..] == tail[n..];
  }

  lemma DropOfJoin(a: string, b: string, n: nat)
    requires n <= |a|
    ensures (a + b)[n..] == a[n..] + b
  {
  }

  lemma Reassociate(a: string, b: string, key: string, value: string, after: string)
    ensures (a + b) + (key + value + after) == a + (b + (key + value + after)) == a + ((b + key + value) + after)
    ensures (a + b) + (key + value + after) == (a + b) + key + (value + after)
  {
  }

  /** What follows the value that `after` starts with. */
  function Behind(after: string): string { after[ValueLength(after)..] }

  /** Skipping a value skips a text without delimiters and goes on behind it. */
  lemma AfterUndelimited(front: string, value: string, after: string)
    requires Undelimited(value)
    ensures AfterValue(front + (value + after), |front|) == Behind(after)
  {
    AfterFront(front, value + after);
    ValueLengthOf(value, after);
    assert ValueLength(value) == |value|;
    assert (value + after)[|value| + ValueLength(after)..] == Behind(after);
  }

  /** A delimiter behind the key ends the value before anything that follows. */
  lemma AfterDelimited(front: string, value: string, tail: string)
    requires ValueLength(value) < |value|
    ensures AfterValue(front + (value + tail), |front|) == Behind(value) + tail
  {
    AfterFront(front, value + tail);
    ValueLengthOf(value, tail);
    DropOfJoin(value, tail, ValueLength(value));
  }

  /** The first key of a text is the first of what stands before "token=", if any. */
  lemma FirstKeyStands(before: string, tail: string)
    requires FindKey(before).Some?
    ensures FindKey(before + "token=" + tail) == FindKey(before)
  {
    var s, i := before + "token=" + tail, FindKey(before).value;
    assert KeyAt(s, i);
    forall j | 0 <= j < i ensures !KeyAt(s, j) { assert !KeyAt(before, j); }
  }

  /** A reason that quotes a token. */
  function Quoted(before: string, value: string, after: string): string { before + ("token=" + value + after) }

  lemma FirstQuoted(before: string, value: string, after: string)
    requires Undelimited(value) && NoKey(before)
    ensures Redacted(Quoted(before, value, after)) == before + "token=" + "***" + Redacted(Behind(after))
  {
    var s, front := Quoted(before, value, after), before + "token=";
    assert s == before + "token=" + (value + after) == front + (value + after);
    KeyComesAfterPiece(before, value + after);
    AfterUndelimited(front, value, after);
    RedactedUnfolds(s, |before|);
    assert s[..|before| + 6] == front;
  }

  lemma UndelimitedJoin(rest: string, value: string)
    requires Undelimited(value) && ValueLength(rest) == |rest|
    ensures Undelimited(rest + "token=" + value)
  {
  }

  lemma LaterQuoted(before: string, value: string, after: string, i: nat)
    requires Undelimited(value) && FindKey(before) == Some(i)
    ensures var rest := before[i + 6..];
            Redacted(Quoted(before, value, after)) == before[..i + 6] + "***" +
              Redacted(if ValueLength(rest) < |rest| then Quoted(Behind(rest), value, after) else Behind(after))
  {
    var key, front, rest := "token=", before[..i + 6], before[i + 6..];
    assert before == front + rest;
    Reassociate(front, rest, key, value, after);
    FirstKeyStands(before, value + after);
    RedactedUnfolds(Quoted(before, value, after), i);
    assert Quoted(before, value, after)[..i + 6] == front;
    if ValueLength(rest) < |rest| {
      AfterDelimited(front, rest, key + value + after);
    } else {
      UndelimitedJoin(rest, value);
      AfterUndelimited(front, rest + key + value, after);
    }
  }

  /** Wherever a reason quotes a token, what is written of the reason does not
      depend on it, as long as it holds no delimiter. */
  lemma {:induction false} ValuesDoNotShow(before: string, x: string, y: string, after: string)
    requires Undelimited(x) && Undelimited(y)
    ensures Redacted(Quoted(before, x, after)) == Redacted(Quoted(before, y, after))
    decreases |before|
  {
    match FindKey(before) {
      case None =>
        FirstQuoted(before, x, after);
        FirstQuoted(before, y, after);
      case Some(i) =>
        var rest := before[i + 6..];
        LaterQuoted(before, x, after, i);
        LaterQuoted(before, y, after, i);
        ValuesDoNotShow(Behind(rest), x, y, after);
    }
  }

  /** A reason that quotes the connect URL tells nothing of the token, whatever bytes
      it is made of and whatever stands around it, because the URL carries it
      form-encoded. */
  lemma ConnectTokenIsHidden(before: string, token: Bytes, other: Bytes, after: string)
    ensures Redacted(Quoted(before, Encoded(Form, token), after))
         == Redacted(Quoted(before, Encoded(Form, other), after))
  {
    var x, y := Encoded(Form, token), Encoded(Form, other);
    FormHasNoDelimiter(token);
    FormHasNoDelimiter(other);
    ValuesDoNotShow(before, x, y, after);
  }

  /** Quoted first, and followed by a delimiter or nothing, it is masked whole. */
  lemma ConnectTokenIsMasked(before: string, token: Bytes, after: string)
    requires NoKey(before)
    requires after == "" || Delimiter(after[0])
    ensures Redacted(before + "token=" + Encoded(Form, token) + after) == before + "token=***" + Redacted(after)
  {
    FormHasNoDelimiter(token);
    ValueIsMasked(before, Encoded(Form, token), after);
  }

  lemma ValueIsMasked(before: string, value: string, after: string)
    requires NoKey(before) && (after == "" || Delimiter(after[0]))
    requires forall i :: 0 <= i < |value| ==> !Delimiter(value[i])
    ensures Redacted(before + "token=" + value + after) == before + "token=***" + Redacted(after)
  {
    var s := before + "token=" + (value + after);
    KeyComesAfterPiece(before, value + after);
    TailAfter(before, value, after);
    RedactedUnfolds(s, |before|);
    FrontOf(before, value, after);
  }

  lemma RedactedUnfolds(s: string, i: nat)
    requires FindKey(s) == Some(i)
    ensures Redacted(s) == s[..i + 6] + "***" + Redacted(AfterValue(s, i + 6))
  {
  }

  lemma FrontOf(before: string, value: string, after: string)
    ensures var s := before + "token=" + (value + after);
            s == before + "token=" + value + after && s[..|before| + 6] + "***" == before + "token=***"
  {
  }

  lemma TailAfter(before: string, value: string, after: string)
    requires after == "" || Delimiter(after[0])
    requires forall i :: 0 <= i < |value| ==> !Delimiter(value[i])
    ensures AfterValue(before + "token=" + (value + after), |before| + 6) == after
  {
    var s := before + "token=" + (value + after);
    ValueEnds(value, after);
    assert s[|before| + 6..] == value + after;
    assert s[|before| + 6 + |value|..] == after;
  }
}
