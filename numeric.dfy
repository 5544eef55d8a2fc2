/**
 * The pieces of JavaScript's `Math` and of the array idioms (`reduce`,
 * `Math.max(...xs)`, a stable descending sort, a keep-the-later reduce)
 * that the scoring engine is built from.
 */
module Numeric {

  /** Math.min of two numbers. */
  function Min(a: real, b: real): real { if a <= b then a else b }

  /** Math.max of two numbers. */
  function Max(a: real, b: real): real { if a >= b then a else b }

  /** Math.abs. */
  function Abs(x: real): real { if x < 0.0 then -x else x }

  /** `xs.reduce((a, b) => a + b, 0)`: a left fold starting from 0. */
  function Sum(s: seq<real>): real
  {
    if s == [] then 0.0 else Sum(s[..|s| - 1]) + s[|s| - 1]
  }

  /** Every element lies in [lo, hi]. */
  predicate AllWithin(s: seq<real>, lo: real, hi: real)
  {
    forall i :: 0 <= i < |s| ==> lo <= s[i] <= hi
  }

  /** `Math.max(...s)` on a non-empty list (on an empty one JavaScript gives -Infinity). */
  function MaxOf(s: seq<real>): (m: real)
    requires |s| > 0
    ensures m in s
    ensures forall i :: 0 <= i < |s| ==> s[i] <= m
  {
    if |s| == 1 then s[0] else Max(MaxOf(s[..|s| - 1]), s[|s| - 1])
  }

  /**
   * The index a stable descending sort puts first: the first position of a
   * maximal value.
   */
  function FirstMaxIndex(s: seq<real>): (i: nat)
    requires |s| > 0
    ensures i < |s|
    ensures forall j :: 0 <= j < |s| ==> s[j] <= s[i]
    ensures forall j :: 0 <= j < i ==> s[j] < s[i]
  {
    if |s| == 1 then 0
    else
      var p := FirstMaxIndex(s[..|s| - 1]);
      if s[|s| - 1] > s[p] then |s| - 1 else p
  }

  /**
   * The index kept by `entries.reduce((a, b) => a[1] > b[1] ? a : b)`: the
   * accumulator survives only when strictly larger, so the last position of a
   * maximal value wins.
   */
  function LastMaxIndex(s: seq<real>): (i: nat)
    requires |s| > 0
    ensures i < |s|
    ensures forall j :: 0 <= j < |s| ==> s[j] <= s[i]
    ensures forall j :: i < j < |s| ==> s[j] < s[i]
  {
    if |s| == 1 then 0
    else
      var p := LastMaxIndex(s[..|s| - 1]);
      if s[p] > s[|s| - 1] then p else |s| - 1
  }

  /** The maximum is the value at the first maximal position. */
  lemma MaxAtFirstMaxIndex(s: seq<real>)
    requires |s| > 0
    ensures MaxOf(s) == s[FirstMaxIndex(s)]
  {
    var m := MaxOf(s);
    var k :| 0 <= k < |s| && s[k] == m;
    assert s[k] <= s[FirstMaxIndex(s)];
  }

  /** The list without its element at position i. */
  function RemoveAt(s: seq<real>, i: nat): (r: seq<real>)
    requires i < |s|
    ensures |r| == |s| - 1
  {
    s[..i] + s[i + 1..]
  }

  /**
   * What is known of `Math.pow(x, 1.5)`: on the unit interval it stays in the
   * unit interval. Its values are not reasoned about.
   */
  ghost predicate IsUnitPower(pow: real -> real)
  {
    forall x :: 0.0 <= x <= 1.0 ==> 0.0 <= pow(x) <= 1.0
  }

  /** What is known of `Math.sqrt`: it is non-negative on non-negative numbers. */
  ghost predicate IsSquareRootBound(sqrt: real -> real)
  {
    forall x :: 0.0 <= x ==> 0.0 <= sqrt(x)
  }

  /** A product of two non-negative numbers is non-negative. */
  lemma MulNonNegative(a: real, b: real)
    ensures 0.0 <= a && 0.0 <= b ==> 0.0 <= a * b
  {
  }

  /** `a * b`, kept as a function so that a square stays a product of two factors. */
  function Product(a: real, b: real): real
  {
    a * b
  }

  /** `Math.pow(x, 2)`. */
  function Square(x: real): real
  {
    Product(x, x)
  }

  /** Factors of the same sign give a non-negative product, a positive one when neither is zero. */
  lemma ProductSign(a: real, b: real)
    requires (0.0 <= a && 0.0 <= b) || (a <= 0.0 && b <= 0.0)
    ensures 0.0 <= Product(a, b)
    ensures a != 0.0 && b != 0.0 ==> 0.0 < Product(a, b)
  {
    if a < 0.0 {
      assert Product(a, b) == (-a) * (-b);
    }
  }

  /** A fraction p in [0, 1] of a non-negative w lies between 0 and w. */
  lemma ScaledWithin(p: real, w: real)
    requires 0.0 <= p <= 1.0 && 0.0 <= w
    ensures 0.0 <= p * w <= w
  {
    ProductSign(p, w);
    ProductSign(1.0 - p, w);
    assert Product(1.0 - p, w) == w - p * w;
  }

  /** A square is non-negative, and zero only at zero. */
  lemma SquareSign(x: real)
    ensures 0.0 <= Square(x)
    ensures x != 0.0 ==> 0.0 < Square(x)
  {
    ProductSign(x, x);
  }

  /** The fold of a concatenation is the sum of the folds. */
  lemma {:induction false} SumConcat(a: seq<real>, b: seq<real>)
    ensures Sum(a + b) == Sum(a) + Sum(b)
  {
    if b == [] {
      assert a + b == a;
    } else {
      var init := b[..|b| - 1];
      var x := b[|b| - 1];
      SumConcat(a, init);
      assert a + b == (a + init) + [x];
      assert (a + b)[..|a + b| - 1] == a + init;
      assert Sum(a + b) == Sum(a + init) + x;
      assert Sum(b) == Sum(init) + x;
    }
  }

  /** The fold adds up to n * lo at least and n * hi at most. */
  lemma {:induction false} SumWithin(s: seq<real>, lo: real, hi: real)
    requires AllWithin(s, lo, hi)
    ensures |s| as real * lo <= Sum(s) <= |s| as real * hi
  {
    if s != [] {
      var init := s[..|s| - 1];
      var x := s[|s| - 1];
      assert AllWithin(init, lo, hi) by {
        forall k | 0 <= k < |init| ensures lo <= init[k] <= hi {
          assert init[k] == s[k];
        }
      }
      SumWithin(init, lo, hi);
      assert lo <= x <= hi;
      var n := |init| as real;
      assert |s| as real * lo == n * lo + lo;
      assert |s| as real * hi == n * hi + hi;
    }
  }

  /** The sum divided by the length. */
  function Mean(s: seq<real>): real
    requires |s| > 0
  {
    Sum(s) / |s| as real
  }

  /** An average of values in [lo, hi] lies in [lo, hi]. */
  lemma MeanWithin(s: seq<real>, lo: real, hi: real)
    requires |s| > 0 && AllWithin(s, lo, hi)
    ensures lo <= Mean(s) <= hi
  {
    SumWithin(s, lo, hi);
    var n := |s| as real;
    assert Sum(s) / n >= (n * lo) / n;
    assert Sum(s) / n <= (n * hi) / n;
  }

  /**
   * With no negative element, the sum is at least any two distinct elements
   * together (and at least one element when i == j).
   */
  lemma {:induction false} SumAtLeastTwo(s: seq<real>, i: nat, j: nat)
    requires forall k :: 0 <= k < |s| ==> 0.0 <= s[k]
    requires i < |s| && j < |s|
    ensures i != j ==> s[i] + s[j] <= Sum(s)
    ensures s[i] <= Sum(s)
  {
    var n := |s| - 1;
    var init := s[..n];
    assert forall k :: 0 <= k < |init| ==> 0.0 <= init[k];
    if i == n && j == n {
      if n > 0 { SumAtLeastTwo(init, 0, 0); }
    } else if i == n {
      SumAtLeastTwo(init, j, j);
    } else if j == n {
      SumAtLeastTwo(init, i, i);
    } else {
      SumAtLeastTwo(init, i, j);
    }
  }
}
