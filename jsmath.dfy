/** The JavaScript Math functions the calculators use, over exact reals. */
module JsMath {

  /** Math.round: the nearest integer, a half rounded up (Math.round(2.5) is 3, Math.round(-2.5) is -2). */
  function Round(x: real): (r: int)
    ensures x - 0.5 < r as real <= x + 0.5
  {
    (x + 0.5).Floor
  }

  /** Math.round(x * 10) / 10: the nearest multiple of one tenth, a half rounded up. */
  function RoundTenth(x: real): (r: real)
    ensures x - 0.05 < r <= x + 0.05
    ensures (r * 10.0).Floor as real == r * 10.0
  {
    Round(x * 10.0) as real / 10.0
  }

  /** Math.max of two numbers. */
  function Max(a: real, b: real): (r: real)
    ensures a <= r && b <= r
    ensures r == a || r == b
  {
    if a >= b then a else b
  }

  /** Math.min of two numbers. */
  function Min(a: real, b: real): (r: real)
    ensures r <= a && r <= b
    ensures r == a || r == b
  {
    if a <= b then a else b
  }

  /** Math.abs. */
  function Abs(x: real): (r: real)
    ensures 0.0 <= r
    ensures r == x || r == -x
  {
    if x < 0.0 then -x else x
  }

  /** Two integers within the same half-open unit interval are equal: the rounding of a number is unique. */
  lemma RoundUnique(x: real, n: int)
    requires x - 0.5 < n as real <= x + 0.5
    ensures Round(x) == n
  {
  }

  /** Rounding preserves order (a non-decreasing function). */
  lemma RoundMonotone(x: real, y: real)
    requires x <= y
    ensures Round(x) <= Round(y)
  {
  }

  /** An integer is its own rounding. */
  lemma RoundOfInteger(n: int)
    ensures Round(n as real) == n
  {
  }

  /** Rounding commutes with adding an integer. */
  lemma RoundShift(x: real, k: int)
    ensures Round(x + k as real) == Round(x) + k
  {
    RoundUnique(x + k as real, Round(x) + k);
  }

  /** Rounding to a tenth preserves order. */
  lemma RoundTenthMonotone(x: real, y: real)
    requires x <= y
    ensures RoundTenth(x) <= RoundTenth(y)
  {
    RoundMonotone(x * 10.0, y * 10.0);
  }

  /** Rounding to a tenth commutes with adding a whole number, such as the kilogram and pound margins
      of the ideal-weight range. */
  lemma RoundTenthShift(x: real, k: int)
    ensures RoundTenth(x + k as real) == RoundTenth(x) + k as real
  {
    assert (x + k as real) * 10.0 == x * 10.0 + (10 * k) as real;
    RoundShift(x * 10.0, 10 * k);
  }
}
