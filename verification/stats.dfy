/** The numpy reductions the source applies to one channel (sum, mean, var, min, max,
    median, abs, diff), defined on sequences of reals, with the facts about them that
    the rest of the model uses. */
module SeqStats {
  import opened Numeric

  function Abs(x: real): (r: real)
    ensures r >= 0.0 && (r == x || r == -x)
  {
    if x < 0.0 then -x else x
  }

  /** np.sum, accumulated from the left. */
  function Sum(s: seq<real>): real
  {
    if |s| == 0 then 0.0 else Sum(s[..|s| - 1]) + s[|s| - 1]
  }

  /** np.mean of a non-empty array (numpy gives NaN for an empty one). */
  function Mean(s: seq<real>): real
    requires |s| > 0
  {
    Sum(s) / (|s| as real)
  }

  /** s - m, elementwise. */
  function Shift(s: seq<real>, m: real): (r: seq<real>)
    ensures |r| == |s|
  {
    seq(|s|, k requires 0 <= k < |s| => s[k] - m)
  }

  /** s / d, elementwise. */
  function Scale(s: seq<real>, d: real): (r: seq<real>)
    requires d != 0.0
    ensures |r| == |s|
  {
    seq(|s|, k requires 0 <= k < |s| => s[k] / d)
  }

  /** s ** 2, elementwise. */
  function Squares(s: seq<real>): (r: seq<real>)
    ensures |r| == |s|
  {
    seq(|s|, k requires 0 <= k < |s| => Square(s[k]))
  }

  /** np.abs, elementwise. */
  function AbsAll(s: seq<real>): (r: seq<real>)
    ensures |r| == |s|
  {
    seq(|s|, k requires 0 <= k < |s| => Abs(s[k]))
  }

  /** np.diff: consecutive differences. */
  function Diff(s: seq<real>): (r: seq<real>)
    ensures |r| == if |s| == 0 then 0 else |s| - 1
  {
    if |s| == 0 then [] else seq(|s| - 1, k requires 0 <= k < |s| - 1 => s[k + 1] - s[k])
  }

  /** np.var (population variance, ddof = 0). */
  function Variance(s: seq<real>): real
    requires |s| > 0
  {
    Mean(Squares(Shift(s, Mean(s))))
  }

  /** np.min */
  function Min(s: seq<real>): (r: real)
    requires |s| > 0
    ensures forall k :: 0 <= k < |s| ==> r <= s[k]
    ensures exists k :: 0 <= k < |s| && s[k] == r
  {
    if |s| == 1 then s[0]
    else
      var m := Min(s[..|s| - 1]);
      assert forall k :: 0 <= k < |s| - 1 ==> s[..|s| - 1][k] == s[k];
      if s[|s| - 1] < m then s[|s| - 1] else m
  }

  /** np.max */
  function Max(s: seq<real>): (r: real)
    requires |s| > 0
    ensures forall k :: 0 <= k < |s| ==> s[k] <= r
    ensures exists k :: 0 <= k < |s| && s[k] == r
  {
    if |s| == 1 then s[0]
    else
      var m := Max(s[..|s| - 1]);
      assert forall k :: 0 <= k < |s| - 1 ==> s[..|s| - 1][k] == s[k];
      if s[|s| - 1] > m then s[|s| - 1] else m
  }

  /** np.sum of a boolean array: how many entries are true. */
  function Count(b: seq<bool>): (r: nat)
    ensures r <= |b|
  {
    if |b| == 0 then 0 else Count(b[..|b| - 1]) + (if b[|b| - 1] then 1 else 0)
  }

  lemma {:induction false} CountZero(b: seq<bool>)
    ensures Count(b) == 0 <==> forall k :: 0 <= k < |b| ==> !b[k]
    decreases |b|
  {
    if |b| > 0 {
      var n := |b| - 1;
      assert forall k :: 0 <= k < n ==> b[..n][k] == b[k];
      CountZero(b[..n]);
    }
  }

  /** Marking more entries never lowers the count. */
  lemma {:induction false} CountMonotone(a: seq<bool>, b: seq<bool>)
    requires |a| == |b| && forall k :: 0 <= k < |a| && a[k] ==> b[k]
    ensures Count(a) <= Count(b)
    decreases |a|
  {
    if |a| > 0 {
      var n := |a| - 1;
      assert forall k :: 0 <= k < n ==> a[..n][k] == a[k] && b[..n][k] == b[k];
      CountMonotone(a[..n], b[..n]);
    }
  }

  predicate Constant(s: seq<real>)
  {
    forall k :: 0 <= k < |s| ==> s[k] == s[0]
  }

  predicate Sorted(s: seq<real>)
  {
    forall i, j :: 0 <= i < j < |s| ==> s[i] <= s[j]
  }

  function Insert(x: real, s: seq<real>): (r: seq<real>)
    requires Sorted(s)
    ensures Sorted(r) && |r| == |s| + 1
    ensures multiset(r) == multiset(s) + multiset{x}
  {
    if |s| == 0 then [x]
    else if x <= s[0] then [x] + s
    else
      var t := Insert(x, s[1..]);
      InsertBehindHead(x, s, t);
      [s[0]] + t
  }

  /** Putting the head of `s` in front of a sorted arrangement of the rest of `s`
      and of a larger `x` keeps it sorted. */
  lemma InsertBehindHead(x: real, s: seq<real>, t: seq<real>)
    requires Sorted(s) && |s| > 0 && s[0] < x
    requires Sorted(t) && multiset(t) == multiset(s[1..]) + multiset{x}
    ensures Sorted([s[0]] + t)
    ensures multiset([s[0]] + t) == multiset(s) + multiset{x}
  {
    assert s == [s[0]] + s[1..];
    forall k | 0 <= k < |t|
      ensures s[0] <= t[k]
    {
      assert t[k] in multiset(t);
      if t[k] != x {
        assert t[k] in multiset(s[1..]);
        assert t[k] in s[1..];
      }
    }
  }

  /** The sorted order np.median selects from (an insertion sort). */
  function SortSeq(s: seq<real>): (r: seq<real>)
    ensures Sorted(r) && |r| == |s|
    ensures multiset(r) == multiset(s)
  {
    if |s| == 0 then []
    else
      assert s == [s[0]] + s[1..];
      Insert(s[0], SortSeq(s[1..]))
  }

  /** np.median: the middle element of the sorted data, or the mean of the two
      middle elements when the length is even. */
  function Median(s: seq<real>): (r: real)
    requires |s| > 0
    ensures Min(s) <= r <= Max(s)
  {
    var t := SortSeq(s);
    var h := |s| / 2;
    if |s| % 2 == 1 then
      SortedWithin(s, t, h);
      t[h]
    else
      PairWithin(s, t, h);
      (t[h - 1] + t[h]) / 2.0
  }

  lemma PairWithin(s: seq<real>, t: seq<real>, h: nat)
    requires |s| > 0 && multiset(t) == multiset(s) && 0 < h < |t|
    ensures Min(s) <= (t[h - 1] + t[h]) / 2.0 <= Max(s)
  {
    SortedWithin(s, t, h - 1);
    SortedWithin(s, t, h);
  }

  lemma SortedWithin(s: seq<real>, t: seq<real>, i: nat)
    requires |s| > 0 && multiset(t) == multiset(s) && i < |t|
    ensures Min(s) <= t[i] <= Max(s)
  {
    assert t[i] in multiset(s);
    var k :| 0 <= k < |s| && s[k] == t[i];
  }

  /** Median absolute deviation as the source computes it:
      np.median(np.abs(x - np.median(x))). */
  function Mad(s: seq<real>): (r: real)
    requires |s| > 0
    ensures r >= 0.0
  {
    Median(AbsAll(Shift(s, Median(s))))
  }

  // ---------------------------------------------------------------------------
  // Facts about sums.

  lemma {:induction false} SumPrefix(s: seq<real>, k: nat)
    requires k < |s|
    ensures Sum(s[..k + 1]) == Sum(s[..k]) + s[k]
  {
    assert s[..k + 1][..k] == s[..k];
  }

  lemma {:induction false} SumShift(s: seq<real>, m: real)
    ensures Sum(Shift(s, m)) == Sum(s) - (|s| as real) * m
    decreases |s|
  {
    if |s| > 0 {
      var n := |s| - 1;
      assert Shift(s, m)[..n] == Shift(s[..n], m);
      SumShift(s[..n], m);
    }
  }

  lemma {:induction false} SumScale(s: seq<real>, d: real)
    requires d != 0.0
    ensures Sum(Scale(s, d)) == Sum(s) / d
    decreases |s|
  {
    if |s| > 0 {
      var n := |s| - 1;
      assert Scale(s, d)[..n] == Scale(s[..n], d);
      SumScale(s[..n], d);
      assert Sum(s[..n]) / d + s[n] / d == (Sum(s[..n]) + s[n]) / d;
    }
  }

  lemma {:induction false} SumNonNegative(s: seq<real>)
    requires forall k :: 0 <= k < |s| ==> s[k] >= 0.0
    ensures Sum(s) >= 0.0
    ensures Sum(s) == 0.0 <==> forall k :: 0 <= k < |s| ==> s[k] == 0.0
    decreases |s|
  {
    if |s| > 0 {
      var n := |s| - 1;
      assert forall k :: 0 <= k < n ==> s[..n][k] == s[k];
      SumNonNegative(s[..n]);
    }
  }

  /** Every element in [lo, hi] puts the sum in [|s| lo, |s| hi]. */
  lemma {:induction false} SumBounds(s: seq<real>, lo: real, hi: real)
    requires forall k :: 0 <= k < |s| ==> lo <= s[k] <= hi
    ensures (|s| as real) * lo <= Sum(s) <= (|s| as real) * hi
    decreases |s|
  {
    if |s| > 0 {
      var n := |s| - 1;
      assert forall k :: 0 <= k < n ==> s[..n][k] == s[k];
      SumBounds(s[..n], lo, hi);
      assert (|s| as real) * lo == (n as real) * lo + lo;
      assert (|s| as real) * hi == (n as real) * hi + hi;
      assert Sum(s) == Sum(s[..n]) + s[n];
    }
  }

  lemma MeanBounds(s: seq<real>)
    requires |s| > 0
    ensures Min(s) <= Mean(s) <= Max(s)
  {
    MeanWithin(s, Min(s), Max(s));
  }

  /** Every element in [lo, hi] puts the mean in [lo, hi]. */
  lemma MeanWithin(s: seq<real>, lo: real, hi: real)
    requires |s| > 0
    requires forall k :: 0 <= k < |s| ==> lo <= s[k] <= hi
    ensures lo <= Mean(s) <= hi
  {
    SumBounds(s, lo, hi);
    QuotientBounds(Sum(s), |s| as real, lo, hi);
  }

  /** A sequence is constant exactly when every element equals the mean. */
  lemma {:induction false} ConstantIffAllMean(c: seq<real>)
    requires |c| > 0
    ensures Constant(c) <==> forall k :: 0 <= k < |c| ==> c[k] == Mean(c)
  {
    if Constant(c) {
      MeanOfConstant(c);
    }
  }

  lemma MeanOfConstant(s: seq<real>)
    requires |s| > 0 && Constant(s)
    ensures Mean(s) == s[0]
  {
    MeanWithin(s, s[0], s[0]);
  }

  lemma VarianceNonNegative(s: seq<real>)
    requires |s| > 0
    ensures Variance(s) >= 0.0
    ensures Variance(s) == 0.0 <==> forall k :: 0 <= k < |s| ==> s[k] == Mean(s)
  {
    var q := Squares(Shift(s, Mean(s)));
    forall k | 0 <= k < |q| ensures q[k] >= 0.0 && (q[k] == 0.0 <==> s[k] == Mean(s)) {
      SquareFacts(s[k] - Mean(s));
    }
    SumNonNegative(q);
    assert Variance(s) == Sum(q) / (|s| as real);
  }

  lemma MeanTimesCount(s: seq<real>)
    requires |s| > 0
    ensures (|s| as real) * Mean(s) == Sum(s)
  {
  }

  /** The squared deviations add up to |s| times the variance. */
  lemma SumSquaredDeviations(s: seq<real>)
    requires |s| > 0
    ensures Sum(Squares(Shift(s, Mean(s)))) == (|s| as real) * Variance(s)
  {
    MeanTimesCount(Squares(Shift(s, Mean(s))));
  }

  lemma ConstantVarianceZero(s: seq<real>)
    requires |s| > 0 && Constant(s)
    ensures Variance(s) == 0.0 && Mean(s) == s[0]
  {
    MeanOfConstant(s);
    VarianceNonNegative(s);
  }

  lemma MedianOfConstant(s: seq<real>)
    requires |s| > 0 && Constant(s)
    ensures Median(s) == s[0] && Mad(s) == 0.0
  {
    assert Min(s) == s[0] && Max(s) == s[0];
    var a := AbsAll(Shift(s, Median(s)));
    assert Constant(a) && a[0] == 0.0;
    assert Min(a) == 0.0 && Max(a) == 0.0;
  }

  // ---------------------------------------------------------------------------
  // Reductions that go through np.sqrt.

  /** np.std (population standard deviation) of a non-empty array. */
  function Std(s: seq<real>, nm: Numerics): real
    requires |s| > 0
  {
    nm.sqrt(Variance(s))
  }

  /** np.sqrt(np.mean(c ** 2)) */
  function Rms(c: seq<real>, nm: Numerics): real
    requires |c| > 0
  {
    nm.sqrt(Mean(Squares(c)))
  }

  /** The RMS is non-negative and 0 exactly for an all-zero channel. */
  lemma {:induction false} RmsBounds(c: seq<real>, nm: Numerics)
    requires Sound(nm) && |c| > 0
    ensures Rms(c, nm) >= 0.0
    ensures Rms(c, nm) == 0.0 <==> forall k :: 0 <= k < |c| ==> c[k] == 0.0
  {
    var q := Squares(c);
    forall k | 0 <= k < |q|
      ensures q[k] >= 0.0 && (q[k] == 0.0 <==> c[k] == 0.0)
    {
      SquareFacts(c[k]);
    }
    SumNonNegative(q);
    MeanZeroIff(q);
    SqrtZeroIff(nm, Mean(q));
  }

  lemma QuotientSign(a: real, b: real)
    requires a >= 0.0 && b > 0.0
    ensures a / b >= 0.0 && (a / b == 0.0 <==> a == 0.0)
  {
    var q := a / b;
    assert q * b == a;
    if q < 0.0 {
      ProductPositive(-q, b);
    }
  }

  lemma {:induction false} MeanZeroIff(q: seq<real>)
    requires |q| > 0 && forall k :: 0 <= k < |q| ==> q[k] >= 0.0
    ensures Mean(q) >= 0.0
    ensures Mean(q) == 0.0 <==> Sum(q) == 0.0
  {
    SumNonNegative(q);
    QuotientSign(Sum(q), |q| as real);
  }

  /** The standard deviation is the non-negative square root of the variance. */
  lemma StdBounds(s: seq<real>, nm: Numerics)
    requires Sound(nm) && |s| > 0
    ensures Std(s, nm) >= 0.0 && Square(Std(s, nm)) == Variance(s)
  {
    VarianceNonNegative(s);
  }
}
