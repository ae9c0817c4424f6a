/** Risk-to-points arithmetic and trailing-step stops.

    Prices and rupee amounts are exact reals; Python's `round(x, 2)` is
    rounding half to even at two decimals, applied to the exact quotient. */
module MathHelpers {
  import opened Common

  /** ASCII upper-casing of one character (`str.upper` restricted to ASCII). */
  function UpperChar(c: char): (u: char)
    ensures 'a' <= c <= 'z' ==> 'A' <= u <= 'Z' && u as int - 'A' as int == c as int - 'a' as int
    ensures !('a' <= c <= 'z') ==> u == c
    ensures !('a' <= u <= 'z')
  {
    if 'a' <= c <= 'z' then (c as int - 32) as char else c
  }

  /** Upper-casing keeps the length, leaves no lower-case letter, keeps
      every character that is not a lower-case letter, and maps each
      lower-case letter to its capital. */
  function Upper(s: string): (u: string)
    ensures |u| == |s|
    ensures forall i :: 0 <= i < |s| ==> !('a' <= u[i] <= 'z')
    ensures forall i :: 0 <= i < |s| && !('a' <= s[i] <= 'z') ==> u[i] == s[i]
    ensures forall i :: 0 <= i < |s| && 'a' <= s[i] <= 'z' ==> u[i] as int - 'A' as int == s[i] as int - 'a' as int
  {
    seq(|s|, i requires 0 <= i < |s| => UpperChar(s[i]))
  }

  /** The mode test is case-blind: any spelling of PER_LOT selects it. */
  lemma PerLotSpellings()
    ensures Upper("PER_LOT") == "PER_LOT"
    ensures Upper("per_lot") == "PER_LOT"
    ensures Upper("Per_Lot") == "PER_LOT"
    ensures Upper("TOTAL") != "PER_LOT" && Upper("total") != "PER_LOT"
  {
    assert Upper("per_lot") == "PER_LOT";
    assert Upper("Per_Lot") == "PER_LOT";
  }

  /** `round(x, 2)`: the nearest multiple of 0.01, ties to an even number of
      hundredths. */
  function Round2(x: real): (r: real)
    ensures (r * 100.0).Floor as real == r * 100.0
    ensures -0.005 <= r - x <= 0.005
    ensures (r - x == 0.005 || r - x == -0.005) ==> (r * 100.0).Floor % 2 == 0
  {
    var y := x * 100.0;
    var n := y.Floor;
    var frac := y - n as real;
    var m := if frac < 0.5 then n
             else if frac > 0.5 then n + 1
             else if n % 2 == 0 then n else n + 1;
    m as real / 100.0
  }

  /** `money_to_points`: a rupee budget turned into a price distance, per lot
      or for the whole position. Dividing by a zero quantity raises. */
  function MoneyToPoints(value: real, quantity: real, lots: real, mode: string): (r: Result<real>)
    ensures r.Err? <==> quantity == 0.0
    ensures r.Err? ==> r.error == ZeroDivision
    ensures r.Ok? && Upper(mode) == "PER_LOT" ==> -0.005 <= r.value - value * lots / quantity <= 0.005
    ensures r.Ok? && Upper(mode) != "PER_LOT" ==> -0.005 <= r.value - value / quantity <= 0.005
    ensures r.Ok? ==> r.value == Round2(if Upper(mode) == "PER_LOT" then value * lots / quantity else value / quantity)
  {
    var total := if Upper(mode) == "PER_LOT" then value * lots else value;
    if quantity == 0.0 then Err(ZeroDivision) else Ok(Round2(total / quantity))
  }

  /** Any mode other than PER_LOT (after upper-casing) ignores `lots`. */
  lemma NonPerLotIgnoresLots(value: real, quantity: real, lots1: real, lots2: real, mode: string)
    requires Upper(mode) != "PER_LOT"
    ensures MoneyToPoints(value, quantity, lots1, mode) == MoneyToPoints(value, quantity, lots2, mode)
  {
  }

  /** PER_LOT spreads `value * lots` over the quantity, exactly as TOTAL
      spreads a budget of `value * lots`. */
  lemma PerLotIsTotalOfLots(value: real, quantity: real, lots: real, mode: string)
    requires Upper(mode) == "PER_LOT"
    ensures MoneyToPoints(value, quantity, lots, mode) == MoneyToPoints(value * lots, quantity, 1.0, "TOTAL")
  {
    assert Upper("TOTAL") == "TOTAL";
  }

  /** PER_LOT is scale-invariant: k lots over k * q units give the same
      distance as one lot over q units. */
  lemma PerLotScaleInvariant(value: real, q: real, k: real, mode: string)
    requires Upper(mode) == "PER_LOT"
    requires q != 0.0 && k != 0.0
    ensures MoneyToPoints(value, k * q, k, mode) == MoneyToPoints(value, q, 1.0, mode)
  {
    CancelCommonFactor(value, q, k);
    PerLotQuotient(value, k * q, k, mode);
    PerLotQuotient(value, q, 1.0, mode);
  }

  lemma CancelCommonFactor(value: real, q: real, k: real)
    requires q != 0.0 && k != 0.0
    ensures k * q != 0.0
    ensures value * k / (k * q) == value * 1.0 / q
  {
  }

  lemma PerLotQuotient(value: real, quantity: real, lots: real, mode: string)
    requires Upper(mode) == "PER_LOT" && quantity != 0.0
    ensures MoneyToPoints(value, quantity, lots, mode) == Ok(Round2(value * lots / quantity))
  {
  }

  /** The cases the repository's unit tests pin. */
  lemma MoneyToPointsExamples()
    ensures MoneyToPoints(1000.0, 75.0, 1.0, "PER_LOT") == Ok(13.33)
    ensures MoneyToPoints(500.0, 75.0, 1.0, "PER_LOT") == Ok(6.67)
    ensures MoneyToPoints(250.0, 75.0, 1.0, "PER_LOT") == Ok(3.33)
    ensures MoneyToPoints(1000.0, 150.0, 2.0, "PER_LOT") == Ok(13.33)
    ensures MoneyToPoints(500.0, 150.0, 2.0, "PER_LOT") == Ok(6.67)
    ensures MoneyToPoints(250.0, 150.0, 2.0, "PER_LOT") == Ok(3.33)
    ensures MoneyToPoints(1000.0, 150.0, 2.0, "TOTAL") == Ok(6.67)
    ensures MoneyToPoints(500.0, 150.0, 2.0, "TOTAL") == Ok(3.33)
    ensures MoneyToPoints(250.0, 150.0, 2.0, "TOTAL") == Ok(1.67)
    ensures MoneyToPoints(1000.0, 800.0, 1.0, "PER_LOT") == Ok(1.25)
    ensures MoneyToPoints(500.0, 800.0, 1.0, "PER_LOT") == Ok(0.62)
    ensures MoneyToPoints(250.0, 800.0, 1.0, "PER_LOT") == Ok(0.31)
  {
    assert Upper("PER_LOT") == "PER_LOT";
    assert Upper("TOTAL") == "TOTAL";
  }

  /** The number of whole steps of `stepSize` that fit in `gap`. */
  function WholeSteps(gap: real, stepSize: real): (k: int)
    requires stepSize > 0.0
    ensures k as real * stepSize <= gap < (k + 1) as real * stepSize
    ensures gap >= 0.0 ==> k >= 0
  {
    FloorOfQuotient(gap, stepSize);
    (gap / stepSize).Floor
  }

  lemma FloorOfQuotient(gap: real, stepSize: real)
    requires stepSize > 0.0
    ensures (gap / stepSize).Floor as real * stepSize <= gap < ((gap / stepSize).Floor + 1) as real * stepSize
    ensures gap >= 0.0 ==> (gap / stepSize).Floor >= 0
  {
    var q := gap / stepSize;
    QuotientTimes(gap, stepSize);
    var k := q.Floor;
    assert k as real <= q < (k + 1) as real;
    ScaleLe(k as real, q, stepSize);
    ScaleLt(q, (k + 1) as real, stepSize);
    assert q * stepSize == gap;
    assert q * stepSize < (k + 1) as real * stepSize;
    assert k as real * stepSize <= gap;
    assert gap < (k + 1) as real * stepSize;
    if gap >= 0.0 {
      QuotientNonNegative(gap, stepSize);
    }
  }

  lemma QuotientTimes(gap: real, stepSize: real)
    requires stepSize > 0.0
    ensures (gap / stepSize) * stepSize == gap
  {
  }

  lemma QuotientNonNegative(gap: real, stepSize: real)
    requires gap >= 0.0 && stepSize > 0.0
    ensures gap / stepSize >= 0.0
  {
    ScaleLe(0.0, gap, 1.0 / stepSize);
    assert gap * (1.0 / stepSize) == gap / stepSize;
  }

  lemma ScaleLe(a: real, b: real, s: real)
    requires a <= b && s > 0.0
    ensures a * s <= b * s
  {
    assert (b - a) * s >= 0.0;
  }

  lemma ScaleLt(a: real, b: real, s: real)
    requires a < b && s > 0.0
    ensures a * s < b * s
  {
    assert (b - a) * s > 0.0;
  }

  /** `trailing_steps`: the stop raised by whole steps above the first target. */
  function TrailingSteps(baseSl: real, ltp: real, firstTarget: real, stepSize: real): (r: real)
    ensures ltp <= firstTarget || stepSize <= 0.0 ==> r == baseSl
    ensures baseSl <= r
  {
    var pointsAboveTarget := ltp - firstTarget;
    if pointsAboveTarget <= 0.0 then baseSl
    else if stepSize <= 0.0 then baseSl
    else
      var k := WholeSteps(pointsAboveTarget, stepSize);
      ScaleLe(0.0, k as real, stepSize);
      baseSl + k as real * stepSize
  }

  lemma TrailingStepsBelowTarget(baseSl: real, ltp: real, firstTarget: real, stepSize: real)
    requires ltp <= firstTarget
    ensures TrailingSteps(baseSl, ltp, firstTarget, stepSize) == baseSl
  {
  }

  lemma TrailingStepsNoStep(baseSl: real, ltp: real, firstTarget: real, stepSize: real)
    requires stepSize <= 0.0
    ensures TrailingSteps(baseSl, ltp, firstTarget, stepSize) == baseSl
  {
  }

  /** Above the target the stop moves up by `k` whole steps, where `k` steps
      fit in the distance above the target and `k + 1` do not. */
  lemma TrailingStepsWholeSteps(baseSl: real, ltp: real, firstTarget: real, stepSize: real)
    returns (k: nat)
    requires ltp > firstTarget && stepSize > 0.0
    ensures TrailingSteps(baseSl, ltp, firstTarget, stepSize) == baseSl + k as real * stepSize
    ensures k as real * stepSize <= ltp - firstTarget < (k + 1) as real * stepSize
  {
    var gap := ltp - firstTarget;
    k := WholeSteps(gap, stepSize);
  }

  /** The trailed stop never falls below the base and never rises by more
      than the price has moved above the target. */
  lemma TrailingStepsBounds(baseSl: real, ltp: real, firstTarget: real, stepSize: real)
    ensures baseSl <= TrailingSteps(baseSl, ltp, firstTarget, stepSize)
    ensures ltp > firstTarget ==> TrailingSteps(baseSl, ltp, firstTarget, stepSize) <= baseSl + (ltp - firstTarget)
  {
    if ltp > firstTarget && stepSize > 0.0 {
      var k := TrailingStepsWholeSteps(baseSl, ltp, firstTarget, stepSize);
    }
  }

  /** The trailed stop is non-decreasing in the last traded price. */
  lemma TrailingStepsMonotone(baseSl: real, ltp1: real, ltp2: real, firstTarget: real, stepSize: real)
    requires ltp1 <= ltp2
    ensures TrailingSteps(baseSl, ltp1, firstTarget, stepSize) <= TrailingSteps(baseSl, ltp2, firstTarget, stepSize)
  {
    if ltp1 > firstTarget && stepSize > 0.0 {
      var k1 := WholeSteps(ltp1 - firstTarget, stepSize);
      var k2 := WholeSteps(ltp2 - firstTarget, stepSize);
      WholeStepsMonotone(ltp1 - firstTarget, ltp2 - firstTarget, stepSize);
      calc {
        TrailingSteps(baseSl, ltp1, firstTarget, stepSize);
      ==  { TrailingStepsAbove(baseSl, ltp1, firstTarget, stepSize); }
        baseSl + k1 as real * stepSize;
      <=  { ScaleLe(k1 as real, k2 as real, stepSize); }
        baseSl + k2 as real * stepSize;
      ==  { TrailingStepsAbove(baseSl, ltp2, firstTarget, stepSize); }
        TrailingSteps(baseSl, ltp2, firstTarget, stepSize);
      }
    } else {
      TrailingStepsBounds(baseSl, ltp2, firstTarget, stepSize);
    }
  }

  /** Above the target with a positive step, the stop is the base raised by
      the whole number of steps that fit. */
  lemma TrailingStepsAbove(baseSl: real, ltp: real, firstTarget: real, stepSize: real)
    requires ltp > firstTarget && stepSize > 0.0
    ensures TrailingSteps(baseSl, ltp, firstTarget, stepSize) ==
              baseSl + WholeSteps(ltp - firstTarget, stepSize) as real * stepSize
  {
  }

  lemma WholeStepsMonotone(gap1: real, gap2: real, stepSize: real)
    requires gap1 <= gap2 && stepSize > 0.0
    ensures WholeSteps(gap1, stepSize) <= WholeSteps(gap2, stepSize)
  {
    ScaleLe(gap1, gap2, 1.0 / stepSize);
    assert gap1 / stepSize == gap1 * (1.0 / stepSize);
    assert gap2 / stepSize == gap2 * (1.0 / stepSize);
  }

  /** Worked values: at the target nothing moves; one and three steps above. */
  lemma TrailingStepsExamples()
    ensures TrailingSteps(27.0, 34.0, 34.0, 3.34) == 27.0
    ensures TrailingSteps(27.0, 38.0, 34.0, 3.34) == 30.34
    ensures TrailingSteps(27.0, 45.0, 34.0, 3.34) == 37.02
  {
    var k1 := TrailingStepsWholeSteps(27.0, 38.0, 34.0, 3.34);
    assert k1 == 1;
    var k3 := TrailingStepsWholeSteps(27.0, 45.0, 34.0, 3.34);
    assert k3 == 3;
  }
}
