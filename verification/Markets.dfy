/** Snapping prices and sizes to a market's grid and checking them against its
    rules (`src/markets.rs`), over exact rationals. Whether a product or quotient
    fits the decimal type is a parameter: where it does not, the value passes
    through unrounded, as in the source. */
module Markets {
  import opened Common

  datatype Rounding = Down | Up | Nearest

  type Fits = real -> bool

  function Abs(x: real): real { if x < 0.0 then -x else x }

  /** Whole steps for a magnitude. */
  function Whole(x: real, mode: Rounding): int {
    match mode
    case Down => x.Floor
    case Up => -(-x).Floor
    case Nearest => (x + 0.5).Floor
  }

  /** Rounding is symmetric around zero. */
  function Snapped(steps: real, mode: Rounding): int {
    if steps < 0.0 then -Whole(-steps, mode) else Whole(steps, mode)
  }

  function RoundToIncrement(fits: Fits, value: real, increment: real, mode: Rounding): real {
    if increment == 0.0 || !fits(value / increment) then value
    else
      var snapped := Multiple(Snapped(value / increment, mode), increment);
      if fits(snapped) then snapped else value
  }

  /** The value is moved to the grid rather than passed through. */
  predicate Snaps(fits: Fits, value: real, increment: real, mode: Rounding) {
    increment != 0.0 && fits(value / increment) && fits(Multiple(Snapped(value / increment, mode), increment))
  }

  function Multiple(k: int, increment: real): real { k as real * increment }

  ghost predicate OnGrid(value: real, increment: real) { exists k :: value == Multiple(k, increment) }

  // ----- one step --------------------------------------------------------------------------

  lemma AbsProduct(a: real, b: real)
    ensures Abs(a * b) == Abs(a) * Abs(b)
  {
    if a < 0.0 && b < 0.0 {
      assert a * b == (-a) * (-b) >= 0.0;
    } else if a < 0.0 {
      assert a * b == -((-a) * b) <= 0.0;
    } else if b < 0.0 {
      assert a * b == -(a * (-b)) <= 0.0;
    } else {
      assert a * b >= 0.0;
    }
  }

  lemma ScaleOrder(a: real, b: real, c: real)
    requires c > 0.0
    ensures a <= b <==> a * c <= b * c
  {
    if a <= b {
      assert (b - a) * c >= 0.0;
    } else {
      assert (a - b) * c > 0.0;
    }
  }

  lemma OrderCarries(x: real, y: real, z: real, p: real, q: real)
    requires z > 0.0 && p == x * z && q == y * z
    ensures x <= y <==> p <= q
  {
    ScaleOrder(x, y, z);
  }

  lemma AbsScales(a: real, b: real, increment: real)
    requires increment != 0.0
    ensures Abs(a) <= Abs(b) <==> Abs(a * increment) <= Abs(b * increment)
  {
    AbsProduct(a, increment);
    AbsProduct(b, increment);
    OrderCarries(Abs(a), Abs(b), Abs(increment), Abs(a * increment), Abs(b * increment));
  }

  lemma Distribute(a: real, b: real, c: real)
    ensures (a - b) * c == a * c - b * c
  {
  }

  /** Down is the largest magnitude not beyond the value, Up the smallest not short
      of it, Nearest the closest, away from zero on a tie. */
  ghost predicate BestMultiple(value: real, rounded: real, other: real, mode: Rounding) {
    match mode
    case Down => Abs(rounded) <= Abs(value) && (Abs(other) <= Abs(value) ==> Abs(other) <= Abs(rounded))
    case Up => Abs(value) <= Abs(rounded) && (Abs(value) <= Abs(other) ==> Abs(rounded) <= Abs(other))
    case Nearest =>
      && Abs(value - rounded) <= Abs(value - other)
      && (Abs(value - rounded) == Abs(value - other) ==> Abs(other) <= Abs(rounded))
  }

  lemma WholeIsBest(x: real, k: int)
    requires x >= 0.0
    ensures 0 <= Whole(x, Down) && Whole(x, Down) as real <= x && (k as real <= x ==> k <= Whole(x, Down))
    ensures 0 <= Whole(x, Up) && x <= Whole(x, Up) as real && (x <= k as real ==> Whole(x, Up) <= k)
    ensures 0 <= Whole(x, Nearest)
  {
  }

  lemma BestStep(steps: real, k: int, mode: Rounding)
    ensures BestMultiple(steps, Snapped(steps, mode) as real, k as real, mode)
  {
    var x := Abs(steps);
    var j := if steps < 0.0 then -k else k;
    WholeIsBestMultiple(x, j, mode);
    Mirrored(x, Whole(x, mode) as real, j as real, mode);
  }

  lemma WholeIsBestMultiple(x: real, k: int, mode: Rounding)
    requires x >= 0.0
    ensures BestMultiple(x, Whole(x, mode) as real, k as real, mode)
  {
    WholeIsBest(x, k);
    WholeIsBest(x, -k);
    if mode.Nearest? { NearestIsClosest(x, k); }
  }

  lemma Mirrored(x: real, best: real, other: real, mode: Rounding)
    requires BestMultiple(x, best, other, mode)
    ensures BestMultiple(-x, -best, -other, mode)
  {
  }

  lemma NearestIsClosest(x: real, j: int)
    requires x >= 0.0
    ensures BestMultiple(x, Whole(x, Nearest) as real, j as real, Nearest)
  {
    var n := Whole(x, Nearest);
    assert n as real <= x + 0.5 < n as real + 1.0;
    if j > n {
      assert j as real >= n as real + 1.0;
    } else if j < n {
      assert j as real <= n as real - 1.0;
    }
  }

  lemma BestScales(steps: real, best: real, other: real, increment: real, mode: Rounding)
    requires increment != 0.0 && BestMultiple(steps, best, other, mode)
    ensures BestMultiple(steps * increment, best * increment, other * increment, mode)
  {
    match mode {
      case Down =>
        AbsScales(best, steps, increment);
        AbsScales(other, steps, increment);
        AbsScales(other, best, increment);
      case Up =>
        AbsScales(steps, best, increment);
        AbsScales(steps, other, increment);
        AbsScales(best, other, increment);
      case Nearest =>
        NearestScales(steps, best, other, increment);
    }
  }

  lemma NearestScales(steps: real, best: real, other: real, increment: real)
    requires increment != 0.0 && BestMultiple(steps, best, other, Nearest)
    ensures BestMultiple(steps * increment, best * increment, other * increment, Nearest)
  {
    CloserScales(steps, best, other, increment);
    CloserScales(steps, other, best, increment);
    AbsScales(other, best, increment);
  }

  lemma CloserScales(a: real, b: real, c: real, increment: real)
    requires increment != 0.0
    ensures Abs(a - b) <= Abs(a - c) <==> Abs(a * increment - b * increment) <= Abs(a * increment - c * increment)
  {
    AbsScales(a - b, a - c, increment);
    Distribute(a, b, increment);
    Distribute(a, c, increment);
    assert Abs((a - b) * increment) == Abs(a * increment - b * increment);
    assert Abs((a - c) * increment) == Abs(a * increment - c * increment);
  }

  lemma Undivide(value: real, increment: real)
    requires increment != 0.0
    ensures (value / increment) * increment == value
  {
  }

  ghost predicate Scales(x: real, increment: real, y: real) { x * increment == y }

  lemma BestScaled(steps: real, value: real, best: real, rounded: real, k: real, other: real, increment: real,
                   mode: Rounding)
    requires increment != 0.0 && BestMultiple(steps, best, k, mode)
    requires Scales(steps, increment, value) && Scales(best, increment, rounded) && Scales(k, increment, other)
    ensures BestMultiple(value, rounded, other, mode)
  {
    BestScales(steps, best, k, increment, mode);
    assert steps * increment == value && best * increment == rounded && k * increment == other;
  }

  lemma BestFromSteps(value: real, steps: real, increment: real, mode: Rounding, k: int)
    requires increment != 0.0 && steps == value / increment
    ensures BestMultiple(value, Multiple(Snapped(steps, mode), increment), Multiple(k, increment), mode)
  {
    Undivide(value, increment);
    BestStep(steps, k, mode);
    var best := Snapped(steps, mode);
    BestScaled(steps, value, best as real, Multiple(best, increment),
               k as real, Multiple(k, increment), increment, mode);
  }

  /** Rounding gives the best multiple of the increment its mode asks for. */
  lemma RoundedIsBest(fits: Fits, value: real, increment: real, mode: Rounding, k: int)
    requires Snaps(fits, value, increment, mode)
    ensures var rounded := RoundToIncrement(fits, value, increment, mode);
            OnGrid(rounded, increment) && BestMultiple(value, rounded, Multiple(k, increment), mode)
  {
    BestFromSteps(value, value / increment, increment, mode, k);
  }

  lemma SideScales(a: real, b: real, increment: real)
    requires (a >= 0.0 ==> b >= 0.0) && (a <= 0.0 ==> b <= 0.0)
    ensures (a * increment >= 0.0 ==> b * increment >= 0.0) || increment == 0.0
    ensures (a * increment <= 0.0 ==> b * increment <= 0.0) || increment == 0.0
  {
    if a > 0.0 && increment > 0.0 { assert a * increment > 0.0 && b * increment >= 0.0; }
    if a > 0.0 && increment < 0.0 { assert a * increment < 0.0 && b * increment <= 0.0; }
    if a < 0.0 && increment > 0.0 { assert a * increment < 0.0 && b * increment <= 0.0; }
    if a < 0.0 && increment < 0.0 { assert a * increment > 0.0 && b * increment >= 0.0; }
  }

  /** Rounding never crosses zero. */
  lemma RoundedKeepsSide(fits: Fits, value: real, increment: real, mode: Rounding)
    ensures var rounded := RoundToIncrement(fits, value, increment, mode);
            (value >= 0.0 ==> rounded >= 0.0) && (value <= 0.0 ==> rounded <= 0.0)
  {
    if Snaps(fits, value, increment, mode) {
      var steps := value / increment;
      Undivide(value, increment);
      SnappedKeepsSide(steps, mode);
      SideScales(steps, Snapped(steps, mode) as real, increment);
    }
  }

  lemma SnappedKeepsSide(steps: real, mode: Rounding)
    ensures steps >= 0.0 ==> Snapped(steps, mode) as real >= 0.0
    ensures steps <= 0.0 ==> Snapped(steps, mode) as real <= 0.0
  {
    WholeIsBest(Abs(steps), 0);
    WholeIsBest(0.0, 0);
  }

  /** The multiple a mode asks for, on the value's side of zero. */
  ghost predicate Best(value: real, best: real, increment: real, mode: Rounding) {
    && OnGrid(best, increment) && (forall k :: BestMultiple(value, best, Multiple(k, increment), mode))
    && (value >= 0.0 ==> best >= 0.0) && (value <= 0.0 ==> best <= 0.0)
  }

  /** Rounded to the best multiple, unless there is no grid or no room for it. */
  ghost predicate RoundsTo(fits: Fits, value: real, increment: real, mode: Rounding, rounded: real) {
    if increment == 0.0 || !fits(value / increment) then rounded == value
    else exists best :: Best(value, best, increment, mode) && rounded == if fits(best) then best else value
  }

  lemma BestIsUnique(value: real, a: real, b: real, increment: real, mode: Rounding)
    requires Best(value, a, increment, mode) && Best(value, b, increment, mode)
    ensures a == b
  {
    var j, k :| a == Multiple(j, increment) && b == Multiple(k, increment);
    assert BestMultiple(value, a, Multiple(k, increment), mode) && BestMultiple(value, b, Multiple(j, increment), mode);
  }

  lemma SnappedIsBest(value: real, increment: real, mode: Rounding)
    requires increment != 0.0
    ensures Best(value, Multiple(Snapped(value / increment, mode), increment), increment, mode)
  {
    forall k ensures BestMultiple(value, Multiple(Snapped(value / increment, mode), increment), Multiple(k, increment),
                                  mode) {
      BestFromSteps(value, value / increment, increment, mode, k);
    }
    RoundedKeepsSide(_ => true, value, increment, mode);
  }

  /** The rounding of every mode is that one and no other. */
  lemma RoundToIncrementIff(fits: Fits, value: real, increment: real, mode: Rounding, rounded: real)
    ensures RoundToIncrement(fits, value, increment, mode) == rounded <==>
              RoundsTo(fits, value, increment, mode, rounded)
  {
    if increment != 0.0 && fits(value / increment) {
      var snapped := Multiple(Snapped(value / increment, mode), increment);
      SnappedIsBest(value, increment, mode);
      if best :| Best(value, best, increment, mode) && rounded == if fits(best) then best else value {
        BestIsUnique(value, best, snapped, increment, mode);
      }
    }
  }

  lemma RoundedOnGrid(value: real, k: int, increment: real, mode: Rounding)
    requires increment != 0.0 && value == Multiple(k, increment)
    ensures value / increment == k as real && Snapped(value / increment, mode) == k
  {
    Redivide(k as real, increment);
  }

  lemma Redivide(x: real, increment: real)
    requires increment != 0.0
    ensures x * increment / increment == x
  {
  }

  /** A rounded value stays where it is. */
  lemma RoundingIsIdempotent(fits: Fits, value: real, increment: real, mode: Rounding)
    ensures var rounded := RoundToIncrement(fits, value, increment, mode);
            RoundToIncrement(fits, rounded, increment, mode) == rounded
  {
    if Snaps(fits, value, increment, mode) {
      var k := Snapped(value / increment, mode);
      RoundedOnGrid(Multiple(k, increment), k, increment, mode);
    }
  }

  lemma SnappedIsMonotone(a: real, b: real, mode: Rounding)
    requires a <= b
    ensures Snapped(a, mode) <= Snapped(b, mode)
  {
    SnappedKeepsSide(a, mode);
    SnappedKeepsSide(b, mode);
    if a >= 0.0 {
      WholeIsMonotone(a, b, mode);
    } else if b < 0.0 {
      WholeIsMonotone(-b, -a, mode);
    }
  }

  lemma WholeIsMonotone(a: real, b: real, mode: Rounding)
    requires 0.0 <= a <= b
    ensures Whole(a, mode) <= Whole(b, mode)
  {
  }

  lemma ProductIsMonotone(a: real, b: real, c: real)
    requires a <= b
    ensures c >= 0.0 ==> a * c <= b * c
    ensures c <= 0.0 ==> b * c <= a * c
  {
    if c >= 0.0 {
      assert (b - a) * c >= 0.0;
    } else {
      assert (b - a) * (-c) >= 0.0;
    }
  }

  lemma Flip(x: real, increment: real)
    ensures x * (-increment) == -(x * increment)
  {
  }

  lemma MonotoneSteps(a: real, b: real, m: int, n: int, value: real, other: real, increment: real)
    requires increment != 0.0 && Scales(a, increment, value) && Scales(b, increment, other) && value <= other
    requires (a <= b ==> m <= n) && (b <= a ==> n <= m)
    ensures Multiple(m, increment) <= Multiple(n, increment)
  {
    if increment > 0.0 {
      ScaleOrder(a, b, increment);
      ProductIsMonotone(m as real, n as real, increment);
    } else {
      Flip(a, increment);
      Flip(b, increment);
      ScaleOrder(b, a, -increment);
      assert n <= m;
      ProductIsMonotone(n as real, m as real, increment);
    }
  }

  /** The multiple of the increment `value` snaps to, whether or not it fits. */
  function Target(value: real, increment: real, mode: Rounding): real
    requires increment != 0.0
  {
    Multiple(Snapped(value / increment, mode), increment)
  }

  lemma TargetIsMonotone(value: real, other: real, increment: real, mode: Rounding)
    requires increment != 0.0 && value <= other
    ensures Target(value, increment, mode) <= Target(other, increment, mode)
  {
    var a, b := value / increment, other / increment;
    Undivide(value, increment);
    Undivide(other, increment);
    if a <= b {
      SnappedIsMonotone(a, b, mode);
    } else {
      SnappedIsMonotone(b, a, mode);
    }
    MonotoneSteps(a, b, Snapped(a, mode), Snapped(b, mode), value, other, increment);
  }

  /** The decimal type holds the numbers up to a whole limit. */
  ghost predicate Limited(fits: Fits, limit: nat) { forall x :: fits(x) <==> Abs(x) <= limit as real }

  lemma SnappedFits(steps: real, mode: Rounding, limit: nat)
    requires Abs(steps) <= limit as real
    ensures Abs(Snapped(steps, mode) as real) <= limit as real
  {
    WholeIsMonotone(Abs(steps), limit as real, mode);
    WholeOfWhole(limit, mode);
    SnappedIsWhole(steps, mode);
  }

  lemma WholeOfWhole(n: nat, mode: Rounding)
    ensures Whole(n as real, mode) == n
  {
  }

  lemma SnappedIsWhole(steps: real, mode: Rounding)
    ensures Abs(Snapped(steps, mode) as real) == Whole(Abs(steps), mode) as real
  {
    WholeIsBest(Abs(steps), 0);
  }

  lemma Between(a: real, b: real, c: real, increment: real, value: real, other: real, third: real, limit: real)
    requires Scales(a, increment, value) && Scales(b, increment, other) && Scales(c, increment, third)
    requires increment != 0.0 && value <= other <= third && Abs(a) <= limit && Abs(c) <= limit
    ensures Abs(b) <= limit
  {
    if increment > 0.0 {
      ScaleOrder(a, b, increment);
      ScaleOrder(b, c, increment);
    } else {
      Flip(a, increment);
      Flip(b, increment);
      Flip(c, increment);
      ScaleOrder(b, a, -increment);
      ScaleOrder(c, b, -increment);
    }
  }

  lemma TargetIsBest(value: real, increment: real, mode: Rounding, k: int)
    requires increment != 0.0
    ensures BestMultiple(value, Target(value, increment, mode), Multiple(k, increment), mode)
    ensures value <= 0.0 ==> Target(value, increment, mode) <= 0.0
  {
    BestFromSteps(value, value / increment, increment, mode, k);
    SnappedKeepsSide(value / increment, mode);
    Undivide(value, increment);
    SideScales(value / increment, Snapped(value / increment, mode) as real, increment);
  }

  lemma FarTarget(limit: real, other: real, near: real, far: real, mode: Rounding)
    requires BestMultiple(other, far, near, mode) && near <= far && (other <= 0.0 ==> far <= 0.0)
    requires Abs(other) <= limit && Abs(near) <= limit && limit < Abs(far)
    ensures near <= other
  {
  }

  lemma FarQuotient(fits: Fits, limit: nat, value: real, other: real, increment: real, mode: Rounding)
    requires Limited(fits, limit) && value <= other && Snaps(fits, value, increment, mode)
    requires other < Target(value, increment, mode)
    ensures fits(other / increment)
  {
    var a, b := value / increment, other / increment;
    Undivide(value, increment);
    Undivide(other, increment);
    StepsBetween(a, b, Snapped(a, mode), increment, value, other, limit, mode);
  }

  lemma StepsBetween(a: real, b: real, k: int, increment: real, value: real, other: real, limit: nat, mode: Rounding)
    requires increment != 0.0 && Scales(a, increment, value) && Scales(b, increment, other) && k == Snapped(a, mode)
    requires Abs(a) <= limit as real && value <= other < Multiple(k, increment)
    ensures Abs(b) <= limit as real
  {
    SnappedFits(a, mode, limit);
    Between(a, b, k as real, increment, value, other, Multiple(k, increment), limit as real);
  }

  /** No value up to one that passes through is rounded beyond it. */
  lemma NoneLeapsOver(fits: Fits, limit: nat, value: real, other: real, increment: real, mode: Rounding)
    requires Limited(fits, limit) && fits(other) && value <= other
    requires Snaps(fits, value, increment, mode) && !Snaps(fits, other, increment, mode)
    ensures Target(value, increment, mode) <= other
  {
    var near, far := Target(value, increment, mode), Target(other, increment, mode);
    if other < near {
      FarQuotient(fits, limit, value, other, increment, mode);
      TargetIsMonotone(value, other, increment, mode);
      TargetIsBest(other, increment, mode, Snapped(value / increment, mode));
      FarTarget(limit as real, other, near, far, mode);
    }
  }

  lemma NegatedQuotient(value: real, increment: real)
    requires increment != 0.0
    ensures (-value) / increment == -(value / increment)
  {
  }

  lemma NegatedMultiple(k: int, increment: real)
    ensures Multiple(-k, increment) == -Multiple(k, increment)
  {
  }

  lemma RoundingIsOdd(fits: Fits, limit: nat, value: real, increment: real, mode: Rounding)
    requires Limited(fits, limit)
    ensures RoundToIncrement(fits, -value, increment, mode) == -RoundToIncrement(fits, value, increment, mode)
    ensures Snaps(fits, -value, increment, mode) <==> Snaps(fits, value, increment, mode)
  {
    if increment != 0.0 {
      NegatedQuotient(value, increment);
      SnappedIsOdd(value / increment, mode);
      NegatedMultiple(Snapped(value / increment, mode), increment);
    }
  }

  lemma SnappedIsOdd(steps: real, mode: Rounding)
    ensures Snapped(-steps, mode) == -Snapped(steps, mode)
  {
    WholeIsBest(0.0, 0);
  }

  /** Rounding keeps order, values that pass through included. */
  lemma RoundingIsMonotone(fits: Fits, limit: nat, value: real, other: real, increment: real, mode: Rounding)
    requires Limited(fits, limit) && fits(value) && fits(other) && value <= other
    ensures RoundToIncrement(fits, value, increment, mode) <= RoundToIncrement(fits, other, increment, mode)
  {
    if Snaps(fits, value, increment, mode) {
      if Snaps(fits, other, increment, mode) {
        TargetIsMonotone(value, other, increment, mode);
      } else {
        NoneLeapsOver(fits, limit, value, other, increment, mode);
      }
    } else if Snaps(fits, other, increment, mode) {
      RoundingIsOdd(fits, limit, value, increment, mode);
      RoundingIsOdd(fits, limit, other, increment, mode);
      NoneLeapsOver(fits, limit, -other, -value, increment, mode);
    }
  }

  // ----- market rules --------------------------------------------------------------------------

  datatype Market = Market(tick: real, lot: real, minSize: real, maxSize: real)

  datatype OrderError = NonPositivePrice | PriceNotOnTick | NonPositiveSize | SizeNotOnLot | SizeBelowMin | SizeAboveMax

  /** `%`: what is left after whole steps toward zero. */
  function Remainder(value: real, increment: real): real
    requires increment != 0.0
  {
    value - Multiple(Snapped(value / increment, Down), increment)
  }

  lemma NoRemainderIff(value: real, increment: real)
    requires increment != 0.0
    ensures Remainder(value, increment) == 0.0 <==> OnGrid(value, increment)
  {
    if k :| value == Multiple(k, increment) {
      RoundedOnGrid(value, k, increment, Down);
    }
  }

  function ValidateOrder(m: Market, price: real, size: real): Result<(), OrderError> {
    if price <= 0.0 then Err(NonPositivePrice)
    else if m.tick != 0.0 && Remainder(price, m.tick) != 0.0 then Err(PriceNotOnTick)
    else if size <= 0.0 then Err(NonPositiveSize)
    else if m.lot != 0.0 && Remainder(size, m.lot) != 0.0 then Err(SizeNotOnLot)
    else if size < m.minSize then Err(SizeBelowMin)
    else if size > m.maxSize then Err(SizeAboveMax)
    else Ok(())
  }

  ghost predicate OnGridOrFree(value: real, increment: real) { increment == 0.0 || OnGrid(value, increment) }

  ghost predicate Tradable(m: Market, price: real, size: real) {
    && price > 0.0 && OnGridOrFree(price, m.tick)
    && size > 0.0 && OnGridOrFree(size, m.lot)
    && m.minSize <= size <= m.maxSize
  }

  /** `e` is the first rule the order breaks. */
  ghost predicate Breaks(m: Market, price: real, size: real, e: OrderError) {
    match e
    case NonPositivePrice => price <= 0.0
    case PriceNotOnTick => price > 0.0 && !OnGridOrFree(price, m.tick)
    case NonPositiveSize => PriceFits(m, price) && size <= 0.0
    case SizeNotOnLot => PriceFits(m, price) && size > 0.0 && !OnGridOrFree(size, m.lot)
    case SizeBelowMin => PriceFits(m, price) && SizeFits(m, size) && size < m.minSize
    case SizeAboveMax => PriceFits(m, price) && SizeFits(m, size) && m.minSize <= size && m.maxSize < size
  }

  ghost predicate PriceFits(m: Market, price: real) { price > 0.0 && OnGridOrFree(price, m.tick) }

  ghost predicate SizeFits(m: Market, size: real) { size > 0.0 && OnGridOrFree(size, m.lot) }

  /** An order passes exactly when it keeps every rule; otherwise the error names
      the first rule it breaks. */
  lemma ValidIffTradable(m: Market, price: real, size: real)
    ensures ValidateOrder(m, price, size).Ok? <==> Tradable(m, price, size)
    ensures forall e :: ValidateOrder(m, price, size) == Err(e) <==> Breaks(m, price, size, e)
  {
    if m.tick != 0.0 { NoRemainderIff(price, m.tick); }
    if m.lot != 0.0 { NoRemainderIff(size, m.lot); }
  }

  function NormalizeOrder(fits: Fits, m: Market, price: real, size: real, mode: Rounding)
    : Result<(real, real), OrderError>
  {
    var p := RoundToIncrement(fits, price, m.tick, mode);
    var s := RoundToIncrement(fits, size, m.lot, mode);
    match ValidateOrder(m, p, s)
    case Ok(_) => Ok((p, s))
    case Err(e) => Err(e)
  }

  /** An order is normalised in the mode asked for: what comes out is the price and the
      size rounded that way, or the first rule they break. */
  lemma NormalizedIff(fits: Fits, m: Market, price: real, size: real, mode: Rounding, p: real, s: real)
    requires RoundsTo(fits, price, m.tick, mode, p) && RoundsTo(fits, size, m.lot, mode, s)
    ensures NormalizeOrder(fits, m, price, size, mode).Ok? <==> Tradable(m, p, s)
    ensures Tradable(m, p, s) ==> NormalizeOrder(fits, m, price, size, mode) == Ok((p, s))
    ensures forall e :: NormalizeOrder(fits, m, price, size, mode) == Err(e) <==> Breaks(m, p, s, e)
  {
    RoundToIncrementIff(fits, price, m.tick, mode, p);
    RoundToIncrementIff(fits, size, m.lot, mode, s);
    ValidIffTradable(m, p, s);
  }

  /** A normalised order is tradable and normalising it again changes nothing. */
  lemma NormalizedIsReady(fits: Fits, m: Market, price: real, size: real, mode: Rounding)
    requires NormalizeOrder(fits, m, price, size, mode).Ok?
    ensures var (p, s) := NormalizeOrder(fits, m, price, size, mode).value;
            Tradable(m, p, s) && NormalizeOrder(fits, m, p, s, mode) == Ok((p, s))
  {
    var (p, s) := NormalizeOrder(fits, m, price, size, mode).value;
    ValidIffTradable(m, p, s);
    RoundingIsIdempotent(fits, price, m.tick, mode);
    RoundingIsIdempotent(fits, size, m.lot, mode);
  }

  lemma DownNeverGrows(fits: Fits, value: real, increment: real)
    ensures Abs(RoundToIncrement(fits, value, increment, Down)) <= Abs(value)
  {
    if Snaps(fits, value, increment, Down) {
      RoundedIsBest(fits, value, increment, Down, 0);
    }
  }

  /** Rounded down, a positive order asks for no more than it did. */
  lemma DownNeverEnlarges(fits: Fits, m: Market, price: real, size: real)
    requires size > 0.0 && NormalizeOrder(fits, m, price, size, Down).Ok?
    ensures NormalizeOrder(fits, m, price, size, Down).value.1 <= size
    ensures price > 0.0 ==> NormalizeOrder(fits, m, price, size, Down).value.0 <= price
  {
    DownNeverGrows(fits, size, m.lot);
    DownNeverGrows(fits, price, m.tick);
    RoundedKeepsSide(fits, size, m.lot, Down);
  }

  /** When rounding down leaves a size too small, no size on the grid up to the
      one asked for would have been large enough. */
  lemma TooSmallIsHopeless(fits: Fits, m: Market, price: real, size: real, other: real)
    requires size > 0.0 && 0.0 < other <= size && OnGridOrFree(other, m.lot)
    requires NormalizeOrder(fits, m, price, size, Down) in {Err(SizeBelowMin), Err(NonPositiveSize)}
    ensures other < m.minSize
  {
    var rounded := RoundToIncrement(fits, size, m.lot, Down);
    ValidIffTradable(m, RoundToIncrement(fits, price, m.tick, Down), rounded);
    RoundedKeepsSide(fits, size, m.lot, Down);
    if Snaps(fits, size, m.lot, Down) {
      var k :| other == Multiple(k, m.lot);
      RoundedIsBest(fits, size, m.lot, Down, k);
    }
  }
}
