/** Integer widths and 18-digit fixed-point arithmetic: `Uint128`, `Decimal`, `SignedInt`. */
module FixedPoint {
  import opened Results

  /** One, as a raw `Decimal`. */
  const ONE: nat := 1_000_000_000_000_000_000

  const MAX_UINT128: nat := 340_282_366_920_938_463_463_374_607_431_768_211_455
  const MAX_UINT64: nat := 18_446_744_073_709_551_615

  /** A value kept in 128 bits; anything wider panics. */
  function Fit(x: nat): Result<nat> {
    if x <= MAX_UINT128 then Success(x) else Failure(Overflow)
  }

  function Min(a: nat, b: nat): nat {
    if a <= b then a else b
  }

  /** By how much `a` exceeds `b`. */
  function Above(a: nat, b: nat): nat {
    if a > b then a - b else 0
  }

  /** Floor of `x * rate`, the product of an integer and a raw decimal. */
  function MulFloor(x: nat, rate: nat): (y: nat)
    ensures y * ONE <= x * rate < y * ONE + ONE
  {
    x * rate / ONE
  }

  /** Floor of `a / b` as a raw decimal. */
  function RatioFloor(a: nat, b: nat): (r: nat)
    requires b > 0
    ensures r * b <= a * ONE < r * b + b
  {
    a * ONE / b
  }

  /** `Decimal::from_ratio`: panics on a zero denominator and on a result wider than 128 bits. */
  function FromRatio(a: nat, b: nat): Result<nat> {
    if b == 0 then Failure(ZeroDenominator) else Fit(RatioFloor(a, b))
  }

  /** `decimal_division`: the number of tokens that `a` coins buy at raw rate `b`. */
  function DecimalDivision(a: nat, b: nat): Result<nat> {
    var decimal :- FromRatio(a, MulFloor(ONE, b));
    Success(MulFloor(ONE, decimal))
  }

  /** The division buys the largest whole number of tokens that the payment covers at the rate. */
  lemma DecimalDivisionIsLargest(a: nat, b: nat, m: nat)
    requires b > 0
    ensures DecimalDivision(a, b) == Success(m) <==> m <= MAX_UINT128 && m * b <= a * ONE < (m + 1) * b
  {
    ScaleExactly(b);
    var d := RatioFloor(a, b);
    ScaleExactly(d);
    assert (m + 1) * b == m * b + b;
    if m < d {
      MulLe(m + 1, d, b);
    } else if m > d {
      MulLe(d + 1, m, b);
      assert (d + 1) * b == d * b + b;
    }
  }

  lemma ScaleExactly(x: nat)
    ensures MulFloor(ONE, x) == x
  {
  }

  lemma MulLe(a: nat, b: nat, c: nat)
    requires a <= b
    ensures a * c <= b * c
  {
  }

  /** A product that is not larger has a factor that is not larger. */
  lemma MulCancel(a: nat, b: nat, c: nat)
    requires c > 0 && a * c < b * c + c
    ensures a <= b
  {
    assert (b + 1) * c == b * c + c;
    MulLe(Min(b + 1, a), a, c);
  }

  lemma MulFloorMonotone(x: nat, y: nat, rate: nat)
    requires x <= y
    ensures MulFloor(x, rate) <= MulFloor(y, rate)
  {
    MulLe(x, y, rate);
  }

  lemma MulFloorSuperadditive(x: nat, y: nat, rate: nat)
    ensures MulFloor(x, rate) + MulFloor(y, rate) <= MulFloor(x + y, rate)
  {
    assert (x + y) * rate == x * rate + y * rate;
  }

  lemma MulFloorSubadditive(x: nat, y: nat, rate: nat)
    ensures MulFloor(x + y, rate) <= MulFloor(x, rate) + MulFloor(y, rate) + 1
  {
    assert (x + y) * rate == x * rate + y * rate;
  }

  /** Paying an amount out at the ratio it was divided by never pays more than the amount. */
  lemma RatioThenMul(a: nat, b: nat)
    requires b > 0
    ensures MulFloor(b, RatioFloor(a, b)) <= a
  {
    var r := RatioFloor(a, b);
    assert b * r == r * b;
  }

  /** `SignedInt`: a magnitude and a sign, `negative` set when the difference was below zero. */
  datatype SignedInt = SignedInt(magnitude: nat, negative: bool)

  function FromSubtraction(minuend: nat, subtrahend: nat): (r: SignedInt)
    ensures if r.negative then minuend + r.magnitude == subtrahend && r.magnitude > 0
            else minuend == subtrahend + r.magnitude
  {
    if subtrahend <= minuend then SignedInt(minuend - subtrahend, false)
    else SignedInt(subtrahend - minuend, true)
  }
}
