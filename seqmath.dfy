/**
 * Whole-sequence reductions over exact real samples: the numpy `sum`,
 * `min`, `max` and `argmax` that the projection engine relies on, and
 * element-wise division by a positive scale.
 */
module SeqMath {

  /** numpy `sum`: Σ s[k], zero for no samples and the sample itself for one. Accumulates from the back. */
  function Sum(s: seq<real>): (t: real)
    ensures s == [] ==> t == 0.0
    ensures |s| == 1 ==> t == s[0]
  {
    if s == [] then 0.0 else Sum(s[..|s| - 1]) + s[|s| - 1]
  }

  /** The smallest sample (numpy `min`): a member of `s` below or equal to every sample. */
  function MinOf(s: seq<real>): (m: real)
    requires |s| > 0
    ensures m in s
    ensures forall k :: 0 <= k < |s| ==> m <= s[k]
  {
    if |s| == 1 then s[0]
    else
      var m' := MinOf(s[..|s| - 1]);
      if s[|s| - 1] < m' then s[|s| - 1] else m'
  }

  /** The largest sample (numpy `max`): a member of `s` above or equal to every sample. */
  function MaxOf(s: seq<real>): (m: real)
    requires |s| > 0
    ensures m in s
    ensures forall k :: 0 <= k < |s| ==> s[k] <= m
  {
    if |s| == 1 then s[0]
    else
      var m' := MaxOf(s[..|s| - 1]);
      if s[|s| - 1] > m' then s[|s| - 1] else m'
  }

  /**
   * numpy `argmax`: the index of the maximum, and on ties the lowest such
   * index, since every earlier sample is strictly smaller.
   */
  function ArgMax(s: seq<real>): (p: nat)
    requires |s| > 0
    ensures p < |s|
    ensures s[p] == MaxOf(s)
    ensures forall k :: 0 <= k < p ==> s[k] < s[p]
  {
    if |s| == 1 then 0
    else
      var p' := ArgMax(s[..|s| - 1]);
      if s[|s| - 1] > s[p'] then |s| - 1 else p'
  }

  /** Element-wise `s / c` for a positive scale `c`. */
  function Divide(s: seq<real>, c: real): (r: seq<real>)
    requires c > 0.0
    ensures |r| == |s|
    ensures forall k :: 0 <= k < |s| ==> r[k] == s[k] / c
  {
    seq(|s|, k requires 0 <= k < |s| => s[k] / c)
  }

  /** The minimum is the only member of `s` that bounds every sample from below. */
  lemma MinOfUnique(s: seq<real>, v: real)
    requires v in s
    requires forall k :: 0 <= k < |s| ==> v <= s[k]
    ensures MinOf(s) == v
  {
    var i :| 0 <= i < |s| && s[i] == v;
    var j :| 0 <= j < |s| && s[j] == MinOf(s);
    assert v <= s[j] && MinOf(s) <= s[i];
  }

  /** The maximum is the only member of `s` that bounds every sample from above. */
  lemma MaxOfUnique(s: seq<real>, v: real)
    requires v in s
    requires forall k :: 0 <= k < |s| ==> s[k] <= v
    ensures MaxOf(s) == v
  {
    var i :| 0 <= i < |s| && s[i] == v;
    var j :| 0 <= j < |s| && s[j] == MaxOf(s);
    assert s[j] <= v && s[i] <= MaxOf(s);
  }

  /** A maximal index with only strictly smaller samples before it is the first argmax. */
  lemma ArgMaxUnique(s: seq<real>, p: nat)
    requires p < |s|
    requires forall k :: 0 <= k < |s| ==> s[k] <= s[p]
    requires forall k :: 0 <= k < p ==> s[k] < s[p]
    ensures ArgMax(s) == p
  {
    assert s[p] <= s[ArgMax(s)];
  }

  /** Dividing by a positive scale keeps the order of any two values. */
  lemma DivideMonotone(a: real, b: real, c: real)
    requires c > 0.0
    ensures a <= b <==> a / c <= b / c
    ensures a < b <==> a / c < b / c
    ensures a == b <==> a / c == b / c
  {
    assert a / c * c == a && b / c * c == b;
    if a / c <= b / c {
      assert a / c * c <= b / c * c;
    }
    if a / c < b / c {
      assert a / c * c < b / c * c;
    }
  }

  /** Every sample at least `c` makes the total at least `|s| * c`, and likewise from above. */
  lemma {:induction false} SumBounds(s: seq<real>, lo: real, hi: real)
    requires forall k :: 0 <= k < |s| ==> lo <= s[k] <= hi
    ensures |s| as real * lo <= Sum(s) <= |s| as real * hi
  {
    if s != [] {
      var front := s[..|s| - 1];
      assert forall k :: 0 <= k < |front| ==> front[k] == s[k];
      SumBounds(front, lo, hi);
      var n, last := |front| as real, s[|s| - 1];
      assert Sum(s) == Sum(front) + last;
      assert |s| as real == n + 1.0;
      StepBounds(n, lo, hi, Sum(front), last);
      assert (n + 1.0) * lo <= Sum(s) <= (n + 1.0) * hi;
    }
  }

  lemma StepBounds(n: real, lo: real, hi: real, total: real, x: real)
    requires n * lo <= total <= n * hi && lo <= x <= hi
    ensures (n + 1.0) * lo <= total + x <= (n + 1.0) * hi
  {
    assert (n + 1.0) * lo == n * lo + lo && (n + 1.0) * hi == n * hi + hi;
  }

  /** Scaling every sample by `1/c` scales the total by `1/c`. */
  lemma {:induction false} SumDivide(s: seq<real>, c: real)
    requires c > 0.0
    ensures Sum(Divide(s, c)) == Sum(s) / c
  {
    if s != [] {
      var front := s[..|s| - 1];
      assert Divide(s, c)[..|s| - 1] == Divide(front, c);
      SumDivide(front, c);
      assert Sum(Divide(s, c)) == Sum(s) / c by {
        assert Sum(Divide(s, c)) == Sum(front) / c + s[|s| - 1] / c;
      }
    }
  }

  /** Dividing by a positive scale divides the maximum by it and keeps the first argmax. */
  lemma DivideMaxAndArgMax(s: seq<real>, c: real)
    requires |s| > 0 && c > 0.0
    ensures MaxOf(Divide(s, c)) == MaxOf(s) / c
    ensures MinOf(Divide(s, c)) == MinOf(s) / c
    ensures ArgMax(Divide(s, c)) == ArgMax(s)
  {
    var d := Divide(s, c);
    var p := ArgMax(s);
    forall k | 0 <= k < |s|
      ensures d[k] <= d[p] && MinOf(s) / c <= d[k]
      ensures k < p ==> d[k] < d[p]
    {
      DivideMonotone(s[k], s[p], c);
      DivideMonotone(MinOf(s), s[k], c);
    }
    var i :| 0 <= i < |s| && s[i] == MinOf(s);
    assert d[i] == MinOf(s) / c;
    MaxOfUnique(d, d[p]);
    MinOfUnique(d, MinOf(s) / c);
    ArgMaxUnique(d, p);
  }

  /** Dividing by a positive maximum makes the maximum exactly 1. */
  lemma DivideByMaxIsOne(s: seq<real>)
    requires |s| > 0 && MaxOf(s) > 0.0
    ensures MaxOf(Divide(s, MaxOf(s))) == 1.0
  {
    var m := MaxOf(s);
    DivideMaxAndArgMax(s, m);
    DivideSelf(m);
  }

  lemma DivideSelf(c: real)
    requires c > 0.0
    ensures c / c == 1.0
  {
  }

  // Real-arithmetic steps kept out of larger proof contexts.

  lemma QuotientBounds(x: real, n: real, lo: real, hi: real)
    requires n > 0.0 && n * lo <= x <= n * hi
    ensures lo <= x / n <= hi
    ensures x / n * n == x
  {
    assert x / n * n == x;
  }

  lemma ScaledRatio(x: real, y: real, u: real, v: real, c: real)
    requires c > 0.0 && u != v
    ensures (x / c - y / c) / (u / c - v / c) == (x - y) / (u - v)
  {
    assert x / c - y / c == (x - y) / c;
    assert u / c - v / c == (u - v) / c;
  }

  lemma ScaledMidpoint(x: real, y: real, c: real)
    requires c > 0.0
    ensures (x / c + y / c) / 2.0 == ((x + y) / 2.0) / c
  {
  }

  lemma FractionInUnit(num: real, den: real)
    requires den > 0.0 && 0.0 <= num <= den
    ensures 0.0 <= num / den <= 1.0
  {
    assert num / den * den == num;
  }

  lemma QuotientSwap(x: real, a: real, b: real)
    requires a > 0.0 && b > 0.0
    ensures (x / a) / b == (x / b) / a
  {
    assert (x / a) / b == x / (a * b) == (x / b) / a;
  }

  /** x², which is never negative. */
  function Square(x: real): (y: real)
    ensures y >= 0.0
  {
    x * x
  }

  lemma QuotientNonNegative(x: real, n: real)
    requires n > 0.0 && x >= 0.0
    ensures x / n >= 0.0
  {
  }
}
