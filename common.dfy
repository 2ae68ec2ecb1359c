/** Shared value helpers for the scoring engine: an optional value, clamping,
    absolute value, sums, and the round-half-to-even rule used for the
    one-decimal composites and the two-decimal price. */
module Common {

  /** A value that may be absent (Python's None). */
  datatype Option<T> = None | Some(value: T)

  /** max(lo, min(hi, x)). */
  function Clamp(x: real, lo: real, hi: real): (r: real)
    requires lo <= hi
    ensures lo <= r <= hi
    ensures lo <= x <= hi ==> r == x
    ensures x < lo ==> r == lo
    ensures hi < x ==> r == hi
  {
    if x < lo then lo else if hi < x then hi else x
  }

  /** min(hi, max(lo, x)) on integers. */
  function ClampInt(x: int, lo: int, hi: int): (r: int)
    requires lo <= hi
    ensures lo <= r <= hi
    ensures lo <= x <= hi ==> r == x
    ensures x < lo ==> r == lo
    ensures hi < x ==> r == hi
  {
    if x < lo then lo else if hi < x then hi else x
  }

  function Abs(x: real): (r: real)
    ensures r >= 0.0
    ensures r == x || r == -x
  {
    if x < 0.0 then -x else x
  }

  /** Python's sum() over a list of amounts. */
  function Sum(s: seq<real>): real
  {
    if s == [] then 0.0 else s[0] + Sum(s[1..])
  }

  lemma {:induction false} SumNonNegative(s: seq<real>)
    requires forall i :: 0 <= i < |s| ==> s[i] >= 0.0
    ensures Sum(s) >= 0.0
  {
    if s != [] {
      assert forall i :: 0 <= i < |s[1..]| ==> s[1..][i] == s[i + 1];
      SumNonNegative(s[1..]);
    }
  }

  /** int(x): truncation toward zero. */
  function Trunc(x: real): (n: int)
    ensures x >= 0.0 ==> 0 <= n && n as real <= x < n as real + 1.0
    ensures x < 0.0 ==> n <= 0 && n as real - 1.0 < x <= n as real
  {
    if x >= 0.0 then x.Floor else -((-x).Floor)
  }

  /** The integer nearest to y, halfway cases going to the even neighbour
      (the tie rule of Python's round). */
  function RoundHalfEven(y: real): (n: int)
    ensures y - 0.5 <= n as real <= y + 0.5
    ensures (n as real) - y == 0.5 || y - (n as real) == 0.5 ==> n % 2 == 0
  {
    var f := y.Floor;
    var frac := y - f as real;
    if frac < 0.5 then f
    else if frac > 0.5 then f + 1
    else if f % 2 == 0 then f
    else f + 1
  }

  lemma RoundHalfEvenMonotone(x: real, y: real)
    requires x <= y
    ensures RoundHalfEven(x) <= RoundHalfEven(y)
  {
    assert x.Floor <= y.Floor;
  }

  lemma RoundHalfEvenOfInt(n: int)
    ensures RoundHalfEven(n as real) == n
  {
    assert (n as real).Floor == n;
  }

  /** round(x, 1): the nearest multiple of 0.1, ties to the even tenth. */
  function RoundTenth(x: real): (r: real)
    ensures x - 0.05 <= r <= x + 0.05
  {
    RoundHalfEven(x * 10.0) as real / 10.0
  }

  /** round(x, 2): the nearest multiple of 0.01, ties to the even hundredth. */
  function RoundCent(x: real): (r: real)
    ensures x - 0.005 <= r <= x + 0.005
  {
    RoundHalfEven(x * 100.0) as real / 100.0
  }

  lemma RoundTenthMonotone(x: real, y: real)
    requires x <= y
    ensures RoundTenth(x) <= RoundTenth(y)
  {
    RoundHalfEvenMonotone(x * 10.0, y * 10.0);
  }

  /** Rounding to a tenth leaves whole numbers alone. */
  lemma RoundTenthOfInt(n: int)
    ensures RoundTenth(n as real) == n as real
  {
    assert (n as real) * 10.0 == (n * 10) as real;
    RoundHalfEvenOfInt(n * 10);
  }

  /** A price rounds to zero cents exactly when it lies within half a cent
      of zero (both edges included: each is a tie that goes to the even 0). */
  lemma RoundCentZero(x: real)
    ensures RoundCent(x) == 0.0 <==> -0.005 <= x <= 0.005
  {
    var y := x * 100.0;
    assert RoundCent(x) == 0.0 <==> RoundHalfEven(y) == 0;
    if -0.5 <= y <= 0.5 {
      if y < 0.0 {
        assert y.Floor == -1;
      } else {
        assert y.Floor == 0;
      }
    }
  }
}
