/** Shared value types and the numeric helpers every engine of the reminder manager uses:
    an Option type, Math.min / Math.max / clamping on exact reals, and Math.round to a
    fixed number of decimals, written as floor(x * k + 1/2) / k. */
module Common {

  datatype Option<+T> = None | Some(value: T) {
    function GetOr(default: T): T {
      match this
      case Some(v) => v
      case None => default
    }
  }

  /** The outcome of an operation that either yields a value or reports an error. */
  datatype Result<+T, +E> = Ok(value: T) | Err(error: E)

  function Min(a: real, b: real): real { if a <= b then a else b }

  function Max(a: real, b: real): real { if a >= b then a else b }

  function Abs(x: int): nat { if x < 0 then -x else x }

  /** `Math.max(lo, Math.min(hi, x))`, the clamp both prediction engines apply. */
  function Clamp(x: real, lo: real, hi: real): (r: real)
    requires lo <= hi
    ensures lo <= r <= hi
    ensures lo <= x <= hi ==> r == x
    ensures x < lo ==> r == lo
    ensures x > hi ==> r == hi
  {
    Max(lo, Min(hi, x))
  }

  /** `Math.round(x * 10) / 10` on exact reals: rounds half up to a multiple of 0.1. */
  function Round1(x: real): real { ((x * 10.0 + 0.5).Floor as real) / 10.0 }

  /** `Math.round(x * 100) / 100` on exact reals: rounds half up to a multiple of 0.01. */
  function Round2(x: real): real { ((x * 100.0 + 0.5).Floor as real) / 100.0 }

  /** A value with at most one decimal, i.e. `x * 10` is a whole number. */
  predicate OneDecimal(x: real) { (x * 10.0).Floor as real == x * 10.0 }

  /** A value with at most two decimals. */
  predicate TwoDecimals(x: real) { (x * 100.0).Floor as real == x * 100.0 }

  /** One-decimal rounding lands on the grid and moves the value by at most 0.05. */
  lemma Round1Near(x: real)
    ensures OneDecimal(Round1(x))
    ensures x - 0.05 < Round1(x) <= x + 0.05
  {
    var f := (x * 10.0 + 0.5).Floor;
    assert Round1(x) * 10.0 == f as real;
  }

  /** A value that already has one decimal is left unchanged. */
  lemma Round1Grid(x: real)
    requires OneDecimal(x)
    ensures Round1(x) == x
  {
    var n := (x * 10.0).Floor;
    assert (x * 10.0 + 0.5).Floor == n;
  }

  lemma Round1Monotone(x: real, y: real)
    requires x <= y
    ensures Round1(x) <= Round1(y)
  {
    FloorMonotone(x * 10.0 + 0.5, y * 10.0 + 0.5);
  }

  /** One-decimal rounding stays inside any interval whose ends have one decimal. */
  lemma Round1Between(x: real, lo: real, hi: real)
    requires OneDecimal(lo) && OneDecimal(hi) && lo <= x <= hi
    ensures lo <= Round1(x) <= hi
  {
    Round1Monotone(lo, x);
    Round1Monotone(x, hi);
    Round1Grid(lo);
    Round1Grid(hi);
  }

  /** Two-decimal rounding lands on the grid and moves the value by at most 0.005. */
  lemma Round2Near(x: real)
    ensures TwoDecimals(Round2(x))
    ensures x - 0.005 < Round2(x) <= x + 0.005
  {
    var f := (x * 100.0 + 0.5).Floor;
    assert Round2(x) * 100.0 == f as real;
  }

  lemma Round2Grid(x: real)
    requires TwoDecimals(x)
    ensures Round2(x) == x
  {
    var n := (x * 100.0).Floor;
    assert (x * 100.0 + 0.5).Floor == n;
  }

  lemma Round2Monotone(x: real, y: real)
    requires x <= y
    ensures Round2(x) <= Round2(y)
  {
    FloorMonotone(x * 100.0 + 0.5, y * 100.0 + 0.5);
  }

  lemma FloorMonotone(a: real, b: real)
    requires a <= b
    ensures a.Floor <= b.Floor
  {}
}
