/** The JavaScript numeric operations the age pipeline relies on, stated exactly.
    `Math.round` rounds half-way cases up (towards +infinity), so on every real
    it is `floor(x + 1/2)`. Integer means are rounded through `RoundDiv`, an
    integer-only formula proved equal to rounding the exact quotient. */
module JsMath {

  datatype Option<+T> = None | Some(value: T)

  /** `Math.round(x)`. */
  function Round(x: real): (r: int)
    ensures r as real <= x + 0.5 < r as real + 1.0
  {
    (x + 0.5).Floor
  }

  /** Rounding is determined by the two bounds of its contract. */
  lemma RoundUnique(x: real, q: int)
    requires q as real <= x + 0.5 < q as real + 1.0
    ensures Round(x) == q
  {
  }

  /** `Math.round(sum / n)` on integers, computed without reals. */
  function RoundDiv(sum: int, n: int): (r: int)
    requires n > 0
  {
    (2 * sum + n) / (2 * n)
  }

  /** The integer formula agrees with rounding the exact quotient. */
  lemma RoundDivIsRound(sum: int, n: int)
    requires n > 0
    ensures RoundDiv(sum, n) == Round(sum as real / n as real)
  {
    var q := RoundDiv(sum, n);
    var d := 2 * n;
    var rem := (2 * sum + n) % d;
    assert 2 * sum + n == d * q + rem && 0 <= rem < d;
    // in integers: (2q - 1) * n <= 2 * sum < (2q + 1) * n
    assert (2 * q - 1) * n <= 2 * sum < (2 * q + 1) * n;
    var lo, hi, s2, nr := (2 * q - 1) as real, (2 * q + 1) as real, (2 * sum) as real, n as real;
    assert lo * nr <= s2 < hi * nr;
    RealDivBetween(lo, s2, hi, nr);
    assert lo / 2.0 <= (s2 / nr) / 2.0 < hi / 2.0;
    assert (s2 / nr) / 2.0 == sum as real / n as real;
    RoundUnique(sum as real / n as real, q);
  }

  lemma RealDivBetween(lo: real, b: real, hi: real, n: real)
    requires n > 0.0 && lo * n <= b < hi * n
    ensures lo <= b / n < hi
  {
  }

  function Sum(s: seq<int>): int
  {
    if s == [] then 0 else Sum(s[..|s| - 1]) + s[|s| - 1]
  }

  function SumReal(s: seq<real>): real
  {
    if s == [] then 0.0 else SumReal(s[..|s| - 1]) + s[|s| - 1]
  }

  /** `Math.round` of the arithmetic mean of a non-empty integer history. */
  function RoundMean(s: seq<int>): int
    requires |s| > 0
  {
    RoundDiv(Sum(s), |s|)
  }

  /** `Math.round` of the mean of a non-empty real history. */
  function RoundMeanReal(s: seq<real>): int
    requires |s| > 0
  {
    Round(SumReal(s) / |s| as real)
  }

  function Abs(x: int): nat
  {
    if x < 0 then -x else x
  }

  /** Every element lies in [lo, hi], so the sum lies in [|s| * lo, |s| * hi]. */
  lemma {:induction false} SumBounds(s: seq<int>, lo: int, hi: int)
    requires forall i :: 0 <= i < |s| ==> lo <= s[i] <= hi
    ensures |s| * lo <= Sum(s) <= |s| * hi
  {
    if s != [] {
      var p := s[..|s| - 1];
      assert forall i :: 0 <= i < |p| ==> p[i] == s[i];
      SumBounds(p, lo, hi);
      assert |s| * lo == |p| * lo + lo;
      assert |s| * hi == |p| * hi + hi;
    }
  }

  lemma DivAtLeast(a: int, d: int, m: int)
    requires d > 0 && a >= d * m
    ensures a / d >= m
  {
    var q, r := a / d, a % d;
    assert a == d * q + r && r < d;
    assert d * (q - m + 1) > 0;
    PositiveFactor(d, q - m + 1);
  }

  lemma DivBelow(a: int, d: int, m: int)
    requires d > 0 && a < d * m
    ensures a / d < m
  {
    var q, r := a / d, a % d;
    assert a == d * q + r && 0 <= r;
    assert d * (m - q) > 0;
    PositiveFactor(d, m - q);
  }

  lemma PositiveFactor(d: int, k: int)
    requires d > 0 && d * k > 0
    ensures k > 0
  {
  }

  /** A rounded mean never leaves the range of the values averaged. */
  lemma RoundMeanWithin(s: seq<int>, lo: int, hi: int)
    requires |s| > 0
    requires forall i :: 0 <= i < |s| ==> lo <= s[i] <= hi
    ensures lo <= RoundMean(s) <= hi
  {
    var n := |s|;
    SumBounds(s, lo, hi);
    DivAtLeast(2 * Sum(s) + n, 2 * n, lo);
    DivBelow(2 * Sum(s) + n, 2 * n, hi + 1);
  }

  /** A history of identical values rounds back to that value. */
  lemma RoundMeanConstant(s: seq<int>, v: int)
    requires |s| > 0
    requires forall i :: 0 <= i < |s| ==> s[i] == v
    ensures RoundMean(s) == v
  {
    RoundMeanWithin(s, v, v);
  }
}
