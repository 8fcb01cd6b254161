/** The SplitMix64 generator that scatters reconnect delays (`Rng` in
    `src/ws/backoff.rs`). A `u64` is a number below 2^64; additions and
    multiplications wrap explicitly and exclusive-or works bit by bit. */
module SplitMix {

  const U64: nat := 0x1_0000_0000_0000_0000

  type Bits = x: nat | x < U64

  const GAMMA: nat := 0x9E37_79B9_7F4A_7C15
  const FACTOR1: nat := 0xBF58_476D_1CE4_E5B9
  const FACTOR2: nat := 0x94D0_49BB_1331_11EB

  /** `x >> k`. */
  function Shr(x: nat, k: nat): nat { if k == 0 then x else Shr(x / 2, k - 1) }

  function Xor(a: nat, b: nat): nat {
    if a == 0 && b == 0 then 0 else 2 * Xor(a / 2, b / 2) + (a + b) % 2
  }

  /** `x ^ (x >> k)`. */
  function XorShift(x: nat, k: nat): nat { Xor(x, Shr(x, k)) }

  function WrappingMul(a: nat, factor: nat): nat { (a * factor) % U64 }

  function WrappingAdd(a: nat, b: nat): nat { (a + b) % U64 }

  /** The output for a generator word. */
  function Mix(x: nat): nat {
    XorShift(WrappingMul(XorShift(WrappingMul(XorShift(x, 30), FACTOR1), 27), FACTOR2), 31)
  }

  /** The word after `n` draws. */
  function Word(seed: nat, n: nat): nat
    requires seed < U64
  {
    if n == 0 then seed else WrappingAdd(Word(seed, n - 1), GAMMA)
  }

  /** Draw number `n`, counting from 1. */
  function Draw(seed: nat, n: nat): nat
    requires seed < U64
  {
    Mix(Word(seed, n))
  }

  /** The top 53 bits as a fraction. */
  function Unit(u: nat): real { (u / 2048) as real / 0x20_0000_0000_0000 as real }

  lemma UnitIsAFraction(u: nat)
    requires u < U64
    ensures 0.0 <= Unit(u) < 1.0
  {
    assert u / 2048 < 0x20_0000_0000_0000;
  }

  /** It is as close to the output over 2^64 as 53 bits can say. */
  lemma UnitIsClose(u: nat)
    ensures var x := u as real / U64 as real;
            Unit(u) <= x && x - Unit(u) < 1.0 / 0x20_0000_0000_0000 as real
  {
    var top := u / 2048;
    assert 2048 * top <= u < 2048 * top + 2048;
    assert U64 == 2048 * 0x20_0000_0000_0000;
  }

  // ----- exclusive-or and shifts ----------------------------------------------------------

  lemma {:induction false} XorCancels(a: nat, b: nat, c: nat)
    requires Xor(a, c) == Xor(b, c)
    ensures a == b
    decreases a + b + c
  {
    if a + b + c > 0 {
      SameBits(Xor(a / 2, c / 2), (a + c) % 2, Xor(b / 2, c / 2), (b + c) % 2);
      XorCancels(a / 2, b / 2, c / 2);
      SameParity(a, b, c);
    }
  }

  lemma SameBits(x: nat, p: nat, y: nat, q: nat)
    requires p < 2 && q < 2 && 2 * x + p == 2 * y + q
    ensures x == y && p == q
  {
  }

  lemma SameParity(a: nat, b: nat, c: nat)
    requires a / 2 == b / 2 && (a + c) % 2 == (b + c) % 2
    ensures a == b
  {
  }

  lemma {:induction false} XorThenShift(a: nat, b: nat, k: nat)
    ensures Shr(Xor(a, b), k) == Xor(Shr(a, k), Shr(b, k))
  {
    if k > 0 {
      assert Xor(a, b) / 2 == Xor(a / 2, b / 2);
      XorThenShift(a / 2, b / 2, k - 1);
    }
  }

  lemma {:induction false} Shrinks(x: nat, k: nat)
    ensures Shr(x, k) <= x && (k > 0 && x > 0 ==> Shr(x, k) < x)
  {
    if k > 0 {
      Shrinks(x / 2, k - 1);
    }
  }

  /** Nothing is lost by an xor-shift. */
  lemma {:induction false} XorShiftInjective(x: nat, y: nat, k: nat)
    requires k > 0 && XorShift(x, k) == XorShift(y, k)
    ensures x == y
    decreases x + y
  {
    var x', y' := Shr(x, k), Shr(y, k);
    XorThenShift(x, x', k);
    XorThenShift(y, y', k);
    Shrinks(x, k);
    Shrinks(y, k);
    if x' == x && y' == y {
      assert x == 0 && y == 0;
    } else {
      assert XorShift(x', k) == XorShift(y', k);
      XorShiftInjective(x', y', k);
      XorCancels(x, y, x');
    }
  }

  /** The highest bit of an exclusive-or is no higher than its operands'. */
  lemma {:induction false} XorFits(a: nat, b: nat, w: nat)
    requires Shr(a, w) == 0 && Shr(b, w) == 0
    ensures Shr(Xor(a, b), w) == 0
  {
    XorThenShift(a, b, w);
  }

  lemma {:induction false} FitsBelow(x: nat, w: nat, bound: nat)
    requires bound > 0
    ensures x < bound * Doubled(w) <==> Shr(x, w) < bound
  {
    if w > 0 {
      assert bound * Doubled(w) == 2 * (bound * Doubled(w - 1));
      FitsBelow(x / 2, w - 1, bound);
    }
  }

  function Doubled(w: nat): nat { if w == 0 then 1 else 2 * Doubled(w - 1) }

  lemma {:induction false} DoubledAdds(a: nat, b: nat)
    ensures Doubled(a + b) == Doubled(a) * Doubled(b)
  {
    if b > 0 {
      DoubledAdds(a, b - 1);
      assert Doubled(a) * Doubled(b) == 2 * (Doubled(a) * Doubled(b - 1));
    }
  }

  lemma WordHas64Bits()
    ensures Doubled(64) == U64
  {
    assert Doubled(2) == 4;
    DoubledAdds(2, 2);
    DoubledAdds(4, 4);
    DoubledAdds(8, 8);
    DoubledAdds(16, 16);
    DoubledAdds(32, 32);
  }

  lemma XorShiftFits(x: nat, k: nat)
    requires x < U64
    ensures XorShift(x, k) < U64
  {
    WordHas64Bits();
    FitsBelow(x, 64, 1);
    Shrinks(x, k);
    FitsBelow(Shr(x, k), 64, 1);
    XorFits(x, Shr(x, k), 64);
    FitsBelow(XorShift(x, k), 64, 1);
  }

  /** An output is a word again, so its top bits are a fraction. */
  lemma DrawsAreFractions(seed: Bits, n: nat)
    ensures Draw(seed, n) < U64 && 0.0 <= Unit(Draw(seed, n)) < 1.0
  {
    XorShiftFits(WrappingMul(XorShift(WrappingMul(XorShift(Word(seed, n), 30), FACTOR1), 27), FACTOR2), 31);
    UnitIsAFraction(Draw(seed, n));
  }

  // ----- wrapping arithmetic ------------------------------------------------------------

  /** Multiples of `m` in disguise: if `c` has an inverse, `d * c` wraps to zero
      only when `d` does. */
  lemma OddFactorKeepsDifference(d: int, c: nat, inverse: nat, turns: nat, t: int)
    requires c * inverse == 1 + turns * U64 && d * c == U64 * t
    ensures d == U64 * (t * inverse - d * turns)
  {
    assert d * (c * inverse) == (d * c) * inverse;
    assert d * (1 + turns * U64) == d + U64 * (d * turns);
    assert (U64 * t) * inverse == U64 * (t * inverse);
  }

  lemma SameRemainder(a: int, b: int)
    requires a % U64 == b % U64
    ensures a - b == U64 * (a / U64 - b / U64)
  {
  }

  lemma SmallMultiple(d: int, t: int)
    requires d == U64 * t && d < U64 && -d < U64
    ensures d == 0
  {
  }

  lemma MulInjective(a: nat, b: nat, factor: nat, inverse: nat, turns: nat)
    requires a < U64 && b < U64 && factor * inverse == 1 + turns * U64
    requires WrappingMul(a, factor) == WrappingMul(b, factor)
    ensures a == b
  {
    SameRemainder(a * factor, b * factor);
    var t := a * factor / U64 - b * factor / U64;
    assert (a - b) * factor == U64 * t;
    OddFactorKeepsDifference(a - b, factor, inverse, turns, t);
    SmallMultiple(a - b, t * inverse - (a - b) * turns);
  }

  const INVERSE1: nat := 0x96DE_1B17_3F11_9089
  const INVERSE2: nat := 0x3196_42B2_D24D_8EC3
  const INVERSE_GAMMA: nat := 0xF1DE_83E1_9937_733D

  /** One round of the output function, an xor-shift and an odd multiply. */
  lemma RoundInjective(x: nat, y: nat, k: nat, factor: nat, inverse: nat, turns: nat)
    requires x < U64 && y < U64 && k > 0 && factor * inverse == 1 + turns * U64
    requires WrappingMul(XorShift(x, k), factor) == WrappingMul(XorShift(y, k), factor)
    ensures x == y
  {
    XorShiftFits(x, k);
    XorShiftFits(y, k);
    MulInjective(XorShift(x, k), XorShift(y, k), factor, inverse, turns);
    XorShiftInjective(x, y, k);
  }

  /** The output function is one-to-one on words. */
  lemma MixInjective(x: nat, y: nat)
    requires x < U64 && y < U64
    ensures Mix(x) == Mix(y) ==> x == y
  {
    if Mix(x) == Mix(y) {
      MixUndone(x, y);
    }
  }

  lemma MixUndone(x: nat, y: nat)
    requires x < U64 && y < U64 && Mix(x) == Mix(y)
    ensures x == y
  {
    var a, b := WrappingMul(XorShift(x, 30), FACTOR1), WrappingMul(XorShift(y, 30), FACTOR1);
    var c, d := WrappingMul(XorShift(a, 27), FACTOR2), WrappingMul(XorShift(b, 27), FACTOR2);
    XorShiftInjective(c, d, 31);
    RoundInjective(a, b, 27, FACTOR2, INVERSE2, 0x1cd336eda85f1453);
    RoundInjective(x, y, 30, FACTOR1, INVERSE1, 0x70c3bca78f27f46c);
  }

  lemma WrapAdds(a: nat, b: nat)
    ensures WrappingAdd(a % U64, b) == (a + b) % U64
  {
    var q := a / U64;
    assert a + b == (a % U64 + b) + q * U64;
  }

  lemma {:induction false} WordIsLinear(seed: nat, n: nat)
    requires seed < U64
    ensures Word(seed, n) == (seed + n * GAMMA) % U64
  {
    if n > 0 {
      WordIsLinear(seed, n - 1);
      WrapAdds(seed + (n - 1) * GAMMA, GAMMA);
      assert seed + n * GAMMA == seed + (n - 1) * GAMMA + GAMMA;
    }
  }

  /** Any 2^64 consecutive outputs are pairwise distinct, whatever the seed. */
  lemma OutputsAreDistinct(seed: nat, i: nat, j: nat)
    requires seed < U64 && i < j && j - i < U64
    ensures Draw(seed, i) != Draw(seed, j)
  {
    if Draw(seed, i) == Draw(seed, j) {
      WordIsLinear(seed, i);
      WordIsLinear(seed, j);
      MixInjective(Word(seed, i), Word(seed, j));
      var a, b := seed + j * GAMMA, seed + i * GAMMA;
      SameRemainder(a, b);
      var t := a / U64 - b / U64;
      assert (j - i) * GAMMA == U64 * t;
      var turns := 0x957bbf35006ed677;
      OddFactorKeepsDifference(j - i, GAMMA, INVERSE_GAMMA, turns, t);
      SmallMultiple(j - i, t * INVERSE_GAMMA - (j - i) * turns);
    }
  }

  class Rng {
    var word: Bits

    constructor (seed: Bits)
      ensures word == seed
    {
      word := seed;
    }

    method NextU64() returns (z: nat)
      modifies this
      ensures word == Word(old(word), 1)
      ensures z == Draw(old(word), 1) && z < U64
    {
      word := WrappingAdd(word, GAMMA);
      assert word == WrappingAdd(Word(old(word), 0), GAMMA);
      z := word;
      z := WrappingMul(XorShift(z, 30), FACTOR1);
      z := WrappingMul(XorShift(z, 27), FACTOR2);
      DrawsAreFractions(old(word), 1);
      z := XorShift(z, 31);
    }

    method NextUnit() returns (unit: real)
      modifies this
      ensures word == Word(old(word), 1)
      ensures unit == Unit(Draw(old(word), 1)) && 0.0 <= unit < 1.0
    {
      var u := NextU64();
      UnitIsAFraction(u);
      unit := (u / 2048) as real / 0x20_0000_0000_0000 as real;
    }
  }
}
