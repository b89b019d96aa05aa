/** Exact arithmetic helpers: JavaScript's remainder and rounding, powers and sums over reals. */
module Numeric {

  /** JavaScript's `a % b`: the remainder of division truncated toward zero, so it has the
      sign of the dividend (Dafny's own `%` is Euclidean and never negative). */
  function TruncRem(a: int, b: int): (r: int)
    requires b > 0
    ensures a >= 0 ==> 0 <= r < b
    ensures a < 0 ==> -b < r <= 0
  {
    if a >= 0 then a % b
    else -((-a) % b)
  }

  /** The truncated remainder differs from the Euclidean one by b exactly when the dividend
      is negative and not a multiple of b. */
  lemma TruncRemEuclid(a: int, b: int)
    requires b > 0
    ensures a >= 0 || a % b == 0 ==> TruncRem(a, b) == a % b
    ensures a < 0 && a % b != 0 ==> TruncRem(a, b) == a % b - b
  {
    if a < 0 {
      ModOfNegation(a, b);
    }
  }

  /** The Euclidean remainder is the only remainder in [0, b). */
  lemma ModUnique(a: int, b: int, q: int, m: int)
    requires b > 0 && 0 <= m < b && a == q * b + m
    ensures a % b == m && a / b == q
  {
    var q', m' := a / b, a % b;
    assert a == q' * b + m';
    assert (q - q') * b == m' - m;
    if q - q' >= 1 {
      assert false;
    } else if q - q' <= -1 {
      assert false;
    }
  }

  lemma ModOfNegation(a: int, b: int)
    requires b > 0 && a < 0
    ensures (-a) % b == 0 ==> a % b == 0
    ensures (-a) % b != 0 ==> a % b == b - (-a) % b
  {
    var q, m := (-a) / b, (-a) % b;
    assert -a == q * b + m;
    if m == 0 {
      ModUnique(a, b, -q, 0);
    } else {
      ModUnique(a, b, -q - 1, b - m);
    }
  }

  /** `Math.round(x)`: the nearest integer, halves rounded up. */
  function Round(x: real): (n: int)
    ensures x - 0.5 < n as real <= x + 0.5
  {
    (x + 0.5).Floor
  }

  /** `Math.round(x * 10000) / 10000`: `x` rounded to four decimal places. */
  function Round4(x: real): (r: real)
    ensures x - 0.00005 < r <= x + 0.00005
    ensures 0.0 <= x <= 1.0 ==> 0.0 <= r <= 1.0
  {
    Round(x * 10000.0) as real / 10000.0
  }

  /** `b` to the power `n`. */
  function Pow(b: real, n: nat): real
  {
    if n == 0 then 1.0 else Pow(b, n - 1) * b
  }

  lemma {:induction false} PowPositive(b: real, n: nat)
    requires b > 0.0
    ensures Pow(b, n) > 0.0
  {
    if n > 0 {
      PowPositive(b, n - 1);
    }
  }

  /** Sum of `m[lo] + m[lo + 1] + ... + m[hi]`, added left to right as a loop over the keys does. */
  function SumRange(m: map<int, real>, lo: int, hi: int): real
    requires forall x :: lo <= x <= hi ==> x in m
    decreases hi - lo
  {
    if hi < lo then 0.0 else SumRange(m, lo, hi - 1) + m[hi]
  }

  lemma {:induction false} SumRangePositive(m: map<int, real>, lo: int, hi: int)
    requires lo <= hi
    requires forall x :: lo <= x <= hi ==> x in m && m[x] > 0.0
    ensures SumRange(m, lo, hi) > 0.0
    decreases hi - lo
  {
    if lo < hi {
      SumRangePositive(m, lo, hi - 1);
    }
  }

  /** Dividing every entry by `s` divides the sum by `s`. */
  lemma {:induction false} SumRangeScaled(m: map<int, real>, n: map<int, real>, lo: int, hi: int, s: real)
    requires s != 0.0
    requires forall x :: lo <= x <= hi ==> x in m && x in n && n[x] == m[x] / s
    ensures SumRange(n, lo, hi) == SumRange(m, lo, hi) / s
    decreases hi - lo
  {
    if lo <= hi {
      SumRangeScaled(m, n, lo, hi - 1, s);
      assert SumRange(n, lo, hi) == SumRange(m, lo, hi - 1) / s + m[hi] / s;
      DivAdd(SumRange(m, lo, hi - 1), m[hi], s);
    }
  }

  lemma DivAdd(a: real, b: real, s: real)
    requires s != 0.0
    ensures a / s + b / s == (a + b) / s
  {
  }

  lemma DivSelf(s: real)
    requires s != 0.0
    ensures s / s == 1.0
  {
  }

  lemma MulPositive(a: real, b: real)
    requires a > 0.0 && b > 0.0
    ensures a * b > 0.0
  {
  }

  /** Sum of a sequence of reals, added left to right (`reduce((a, b) => a + b, 0)`). */
  function Sum(s: seq<real>): real
  {
    if s == [] then 0.0 else Sum(s[..|s| - 1]) + s[|s| - 1]
  }

  /** Sum of a sequence of integers, added left to right. */
  function SumInts(s: seq<int>): int
  {
    if s == [] then 0 else SumInts(s[..|s| - 1]) + s[|s| - 1]
  }

  function Max(a: real, b: real): (m: real)
    ensures m >= a && m >= b && (m == a || m == b)
  {
    if a >= b then a else b
  }
}
