/**
 * Arithmetic the analysis relies on: sums as `Array.prototype.reduce` folds
 * them (left to right, starting from 0), and the square root that
 * `Math.sqrt` computes, which is passed in as a function.
 */
module Numeric {

  function Abs(v: int): (r: nat)
    ensures r == v || r == -v
  {
    if v < 0 then -v else v
  }

  /** `Math.pow(d, 2)`. */
  function Square(d: real): real {
    d * d
  }

  lemma SquareNonNegative(d: real)
    ensures 0.0 <= Square(d)
  {
  }

  lemma SquarePositive(d: real)
    requires d != 0.0
    ensures 0.0 < Square(d)
  {
    calc {
      Square(d);
    ==
      d * d;
    >
      0.0;
    }
  }

  /** A product of non-zero factors is non-zero. */
  lemma ProductNonZero(u: real, v: real)
    requires u != 0.0 && v != 0.0
    ensures u * v != 0.0
  {
  }

  /** Equal factors give equal products. */
  lemma ProductOfEquals(a: real, b: real, c: real, d: real)
    requires a == c && b == d
    ensures a * b == c * d
  {
  }

  lemma ProductNonNegative(u: real, v: real)
    requires 0.0 <= u && 0.0 <= v
    ensures 0.0 <= u * v
  {
  }

  /** Only 0 squares to 0. */
  lemma SquareZero(d: real)
    requires d * d == 0.0
    ensures d == 0.0
  {
    if d != 0.0 {
      SquarePositive(d);
    }
  }

  lemma ProductPositive(u: real, v: real)
    requires 0.0 < u && 0.0 < v
    ensures 0.0 < u * v
  {
  }

  /** Two parts that together stay within a positive whole make up at most
      one whole. */
  lemma PartsAtMostOne(r: real, e: real, t: real)
    requires 0.0 < t && r + e <= t
    ensures r / t + e / t <= 1.0
  {
    var f, g := r / t, e / t;
    assert f * t == r && g * t == e;
    assert (f + g - 1.0) * t == r + e - t;
    if f + g - 1.0 > 0.0 {
      ProductPositive(f + g - 1.0, t);
    }
  }

  lemma QuotientNonNegative(r: real, t: real)
    requires 0.0 <= r && 0.0 < t
    ensures 0.0 <= r / t
  {
    var f := r / t;
    assert f * t == r;
    if f < 0.0 {
      ProductPositive(-f, t);
    }
  }

  /** (a / b) · c = (a · c) / b */
  lemma ScaleQuotient(a: real, b: real, c: real)
    requires b != 0.0
    ensures (a / b) * c == (a * c) / b
  {
    var f, g := a / b, (a * c) / b;
    assert f * b == a && g * b == a * c;
    assert (f * c) * b == g * b;
  }

  /** (a / b) / c = a / (b · c) */
  lemma QuotientOfQuotient(a: real, b: real, c: real)
    requires b != 0.0 && c != 0.0
    ensures (a / b) / c == a / (b * c)
  {
    var f := a / b;
    var g := f / c;
    assert f * b == a && g * c == f;
    assert g * (b * c) == a;
  }

  /** `xs.reduce((acc, val) => acc + val, 0)` over numbers. */
  function Sum(xs: seq<real>): real {
    if xs == [] then 0.0 else Sum(xs[..|xs| - 1]) + xs[|xs| - 1]
  }

  /** The same fold over integer scores. */
  function SumInt(xs: seq<int>): int {
    if xs == [] then 0 else SumInt(xs[..|xs| - 1]) + xs[|xs| - 1]
  }

  /** `sqrt` returns the non-negative square root of every non-negative
      argument, as `Math.sqrt` does over the reals. The root of 0 is stated
      outright although it follows from the rest. */
  ghost predicate IsSquareRoot(sqrt: real -> real) {
    && sqrt(0.0) == 0.0
    && forall v: real :: 0.0 <= v ==> 0.0 <= sqrt(v) && sqrt(v) * sqrt(v) == v
  }

  lemma SqrtOfZero(sqrt: real -> real)
    requires IsSquareRoot(sqrt)
    ensures sqrt(0.0) == 0.0
  {
  }

  /** A positive argument has a positive root. */
  lemma SqrtOfPositive(sqrt: real -> real, v: real)
    requires IsSquareRoot(sqrt) && 0.0 < v
    ensures 0.0 < sqrt(v)
  {
    var r := sqrt(v);
    assert 0.0 <= r && r * r == v;
  }

  /** A root stays within any bound whose square bounds the argument. */
  lemma SqrtAtMost(sqrt: real -> real, v: real, t: real)
    requires IsSquareRoot(sqrt)
    requires 0.0 <= v && 0.0 <= t && v <= t * t
    ensures sqrt(v) <= t
  {
    var r := sqrt(v);
    assert 0.0 <= r && r * r == v;
    if r > t {
      SquareStrictlyMonotonic(t, r);
    }
  }

  lemma SquareStrictlyMonotonic(t: real, r: real)
    requires 0.0 <= t < r
    ensures t * t < r * r
  {
    var d := r - t;
    assert r * r == t * t + d * (r + t);
    assert 0.0 < d * (r + t);
  }

  /** The fold one element at a time, for sums over prefixes. */
  lemma SumPrefix(xs: seq<real>, k: nat)
    requires 0 < k <= |xs|
    ensures Sum(xs[..k]) == Sum(xs[..k - 1]) + xs[k - 1]
  {
    assert xs[..k][..k - 1] == xs[..k - 1];
  }

  lemma SumIntPrefix(xs: seq<int>, k: nat)
    requires 0 < k <= |xs|
    ensures SumInt(xs[..k]) == SumInt(xs[..k - 1]) + xs[k - 1]
  {
    assert xs[..k][..k - 1] == xs[..k - 1];
  }

  /** A sum of non-negative terms is non-negative. */
  lemma {:induction false} SumNonNegative(xs: seq<real>)
    requires forall i :: 0 <= i < |xs| ==> 0.0 <= xs[i]
    ensures 0.0 <= Sum(xs)
  {
    if xs != [] {
      SumNonNegative(xs[..|xs| - 1]);
    }
  }

  /** A sum of non-negative terms is zero only when every term is. */
  lemma {:induction false} SumZeroOnlyIfAllZero(xs: seq<real>)
    requires forall i :: 0 <= i < |xs| ==> 0.0 <= xs[i]
    requires Sum(xs) == 0.0
    ensures forall i :: 0 <= i < |xs| ==> xs[i] == 0.0
  {
    if xs != [] {
      var init := xs[..|xs| - 1];
      SumNonNegative(init);
      SumZeroOnlyIfAllZero(init);
      assert forall i :: 0 <= i < |init| ==> xs[i] == init[i];
    }
  }

  /** Summing `|xs|` copies of `c` gives `|xs| * c`. */
  lemma {:induction false} SumConstant(xs: seq<real>, c: real)
    requires forall i :: 0 <= i < |xs| ==> xs[i] == c
    ensures Sum(xs) == |xs| as real * c
  {
    if xs != [] {
      SumConstant(xs[..|xs| - 1], c);
    }
  }

  /** Scores between `lo` and `hi` sum to between `n * lo` and `n * hi`. */
  lemma {:induction false} SumIntBounds(xs: seq<int>, lo: int, hi: int)
    requires forall i :: 0 <= i < |xs| ==> lo <= xs[i] <= hi
    ensures |xs| * lo <= SumInt(xs) <= |xs| * hi
  {
    if xs != [] {
      SumIntBounds(xs[..|xs| - 1], lo, hi);
    }
  }
}
