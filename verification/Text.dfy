/** Spellings shared by every signed string: decimal numbers, lower-case hex,
    ASCII upper case, and fields joined by a separator. */
module Text {
  import opened Common
  import opened Coding

  function UpperChar(c: char): char { if 'a' <= c <= 'z' then c - 'a' + 'A' else c }

  /** `to_ascii_uppercase`. */
  function Upper(s: Bytes): Bytes { seq(|s|, i requires 0 <= i < |s| => UpperChar(s[i])) }

  lemma UpperKeepsSeparators(s: Bytes, c: char)
    requires !('a' <= c <= 'z') && !('A' <= c <= 'Z')
    ensures c in Upper(s) <==> c in s
  {
    if i: nat :| i < |s| && s[i] == c {
      assert Upper(s)[i] == c;
    }
  }

  // ----- numbers -------------------------------------------------------------------------------

  function Decimal(n: nat): Bytes { (if n < 10 then [] else Decimal(n / 10)) + ['0' + (n % 10) as char] }

  predicate Digits(s: Bytes) { forall i :: 0 <= i < |s| ==> '0' <= s[i] <= '9' }

  function ReadDecimal(s: Bytes): nat
    requires Digits(s)
  {
    if s == [] then 0 else 10 * ReadDecimal(s[..|s| - 1]) + (s[|s| - 1] - '0') as nat
  }

  lemma {:induction false} DecimalReadsBack(n: nat)
    ensures Decimal(n) != [] && Digits(Decimal(n)) && ReadDecimal(Decimal(n)) == n
  {
    if n >= 10 {
      DecimalReadsBack(n / 10);
    }
    var front := if n < 10 then [] else Decimal(n / 10);
    assert Decimal(n)[..|Decimal(n)| - 1] == front;
  }

  lemma DecimalIsInjective(m: nat, n: nat)
    ensures Decimal(m) == Decimal(n) <==> m == n
  {
    DecimalReadsBack(m);
    DecimalReadsBack(n);
  }

  lemma {:induction false} NoLeadingZero(n: nat)
    ensures Decimal(n)[0] == '0' <==> n == 0
  {
    if n >= 10 { NoLeadingZero(n / 10); }
  }

  // ----- hex -----------------------------------------------------------------------------------

  function LowerHexDigit(n: nat): char
    requires n < 16
  {
    if n < 10 then '0' + n as char else 'a' + (n - 10) as char
  }

  function Hex(s: Bytes): Bytes {
    if s == [] then [] else [LowerHexDigit(s[0] as nat / 16 % 16), LowerHexDigit(s[0] as nat % 16)] + Hex(s[1..])
  }

  /** Two characters a byte, in lower case. */
  lemma {:induction false} HexIsLower(s: Bytes)
    ensures |Hex(s)| == 2 * |s|
    ensures forall i :: 0 <= i < |Hex(s)| ==> '0' <= Hex(s)[i] <= '9' || 'a' <= Hex(s)[i] <= 'f'
  {
    if s != [] { HexIsLower(s[1..]); }
  }

  lemma HexTellsBytes(x: nat, y: nat)
    requires x < 256 && y < 256
    requires LowerHexDigit(x / 16 % 16) == LowerHexDigit(y / 16 % 16) && LowerHexDigit(x % 16) == LowerHexDigit(y % 16)
    ensures x == y
  {
    HexTellsDigits(x / 16 % 16, y / 16 % 16);
    HexTellsDigits(x % 16, y % 16);
  }

  lemma HexTellsDigits(m: nat, n: nat)
    requires m < 16 && n < 16 && LowerHexDigit(m) == LowerHexDigit(n)
    ensures m == n
  {
    assert HexValue(LowerHexDigit(m)) == Some(m) && HexValue(LowerHexDigit(n)) == Some(n);
  }

  lemma {:induction false} HexIsInjective(s: Bytes, t: Bytes)
    requires IsBytes(s) && IsBytes(t) && Hex(s) == Hex(t)
    ensures s == t
  {
    if s != [] && t != [] {
      var x, y := s[0] as nat, t[0] as nat;
      assert Hex(s)[0] == Hex(t)[0] && Hex(s)[1] == Hex(t)[1];
      HexTellsBytes(x, y);
      assert Hex(s)[2..] == Hex(s[1..]) && Hex(t)[2..] == Hex(t[1..]);
      HexIsInjective(s[1..], t[1..]);
    }
  }

  lemma {:induction false} HexHasNoSeparator(s: Bytes, c: char)
    requires c < '0'
    ensures c !in Hex(s)
  {
    if s != [] {
      HexHasNoSeparator(s[1..], c);
    }
  }

  // ----- separators ----------------------------------------------------------------------------

  /** The part before the first separator is determined, and so is the rest. */
  lemma SplitAtFirst(a: Bytes, b: Bytes, c: char, x: Bytes, y: Bytes)
    requires c !in a && c !in b && a + [c] + x == b + [c] + y
    ensures a == b && x == y
  {
    FindSkips(a, c, x);
    FindSkips(b, c, y);
    var s := a + [c] + x;
    assert s[..|a|] == a && s[|a| + 1..] == x && (b + [c] + y)[..|b|] == b && (b + [c] + y)[|b| + 1..] == y;
  }

  lemma LongerTailHoldsSeparator(x: Bytes, y: Bytes, c: char, a: Bytes, b: Bytes)
    requires x + [c] + a == y + [c] + b && |a| < |b|
    ensures c in b
  {
    var s := y + [c] + b;
    assert (x + [c] + a)[|x|] == c && s[|x|] == b[|x| - |y| - 1];
  }

  /** The same from the other end. */
  lemma SplitAtLast(x: Bytes, y: Bytes, c: char, a: Bytes, b: Bytes)
    requires c !in a && c !in b && x + [c] + a == y + [c] + b
    ensures x == y && a == b
  {
    var s, t := x + [c] + a, y + [c] + b;
    assert |a| == |b| by {
      if |a| < |b| { LongerTailHoldsSeparator(x, y, c, a, b); }
      if |b| < |a| { LongerTailHoldsSeparator(y, x, c, b, a); }
    }
    assert s[..|x|] == x && t[..|y|] == y && s[|x| + 1..] == a && t[|y| + 1..] == b;
  }
}
