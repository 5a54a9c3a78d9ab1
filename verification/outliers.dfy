/** `detectar_outliers`: flag every sample whose absolute z-score within its own
    channel is strictly above the threshold. */
module Outliers {
  import opened Numeric
  import opened SeqStats
  import opened Signals

  /** np.abs on a float. */
  function FloatAbs(x: Float): (r: Float)
    ensures x.Num? ==> r == Num(Abs(x.value))
    ensures x.NaN? <==> r.NaN?
  {
    match x
    case Num(v) => Num(Abs(v))
    case NaN => NaN
    case _ => PosInf
  }

  /** `x > t` on a float: false for NaN and -inf, true for +inf. */
  predicate Above(x: Float, t: real)
  {
    match x
    case Num(v) => v > t
    case PosInf => true
    case _ => false
  }

  /** np.abs((c - np.mean(c)) / np.std(c)) on a non-empty channel: 0 / 0 is NaN
      when the standard deviation is 0. */
  function ZScores(c: seq<real>, nm: Numerics): (z: seq<Float>)
    requires |c| > 0
    ensures |z| == |c|
    ensures forall k :: 0 <= k < |z| ==> !z[k].NegInf? && (z[k].Num? ==> z[k].value >= 0.0)
  {
    var m := Mean(c);
    var sd := nm.sqrt(Variance(c));
    seq(|c|, k requires 0 <= k < |c| => FloatAbs(Divide(c[k] - m, sd)))
  }

  /** `z_scores > threshold`, elementwise. */
  function Exceeds(z: seq<Float>, t: real): (r: seq<bool>)
    ensures |r| == |z|
  {
    seq(|z|, k requires 0 <= k < |z| => Above(z[k], t))
  }

  /** outliers[:, i] for one channel. An empty channel has nothing to flag. */
  function OutlierMask(c: seq<real>, t: real, nm: Numerics): (r: seq<bool>)
    ensures |r| == |c|
  {
    if |c| == 0 then [] else Exceeds(ZScores(c, nm), t)
  }

  /** detectar_outliers(sinal, threshold): a boolean array of the reshaped
      input's shape whose column j is the mask of input column j alone. */
  method DetectarOutliers(sinal: Signal, threshold: real, nm: Numerics) returns (outliers: array2<bool>)
    requires sinal.WellFormed()
    ensures fresh(outliers)
    ensures outliers.Length0 == sinal.Rows() && outliers.Length1 == sinal.Cols()
    ensures forall k, j :: 0 <= k < sinal.Rows() && 0 <= j < sinal.Cols() ==>
      outliers[k, j] == OutlierMask(sinal.Column(j), threshold, nm)[k]
  {
    var x := sinal.Reshaped();
    var n, m := x.Rows(), x.Cols();
    outliers := new bool[n, m]((_, _) => false);
    for i := 0 to m
      invariant forall k, j :: 0 <= k < n && 0 <= j < i ==>
        outliers[k, j] == OutlierMask(x.Column(j), threshold, nm)[k]
    {
      var c := x.Column(i);
      if n > 0 {
        var zScores := ZScores(c, nm);
        WriteColumn(outliers, i, Exceeds(zScores, threshold));
      }
    }
  }

  // ---------------------------------------------------------------------------
  // What the mask means.

  /** With a non-zero standard deviation, a sample is flagged exactly when its
      distance from the mean is strictly more than threshold standard deviations. */
  lemma {:induction false} OutlierIff(c: seq<real>, t: real, nm: Numerics, k: nat)
    requires Sound(nm) && k < |c| && nm.sqrt(Variance(c)) != 0.0
    ensures nm.sqrt(Variance(c)) > 0.0
    ensures OutlierMask(c, t, nm)[k] <==> Abs(c[k] - Mean(c)) > t * nm.sqrt(Variance(c))
  {
    VarianceNonNegative(c);
    var sd := nm.sqrt(Variance(c));
    var d := c[k] - Mean(c);
    assert OutlierMask(c, t, nm)[k] == (Abs(d / sd) > t);
    AbsQuotient(d, sd);
    ProductMonotone(Abs(d) / sd, t, sd);
    assert (Abs(d) / sd) * sd == Abs(d);
  }

  /** A channel whose standard deviation is 0 has no outliers whatever the
      threshold: every deviation is 0, 0 / 0 is NaN and NaN > t is false. */
  lemma ZeroStdNoOutliers(c: seq<real>, t: real, nm: Numerics)
    requires Sound(nm) && |c| > 0 && nm.sqrt(Variance(c)) == 0.0
    ensures forall k :: 0 <= k < |c| ==> !OutlierMask(c, t, nm)[k]
  {
    VarianceNonNegative(c);
    SqrtZeroIff(nm, Variance(c));
  }

  /** In particular a constant channel has no outliers. */
  lemma ConstantNoOutliers(c: seq<real>, t: real, nm: Numerics)
    requires Sound(nm) && |c| > 0 && Constant(c)
    ensures Count(OutlierMask(c, t, nm)) == 0
  {
    ConstantVarianceZero(c);
    SqrtZeroIff(nm, Variance(c));
    ZeroStdNoOutliers(c, t, nm);
    CountZero(OutlierMask(c, t, nm));
  }

  /** Chebyshev's bound: with a positive threshold t at most |c| / t^2 samples of
      a channel are flagged, so at most one ninth of it for the default t = 3. */
  lemma OutlierCountBound(c: seq<real>, t: real, nm: Numerics)
    requires Sound(nm) && t > 0.0
    ensures AtMostFraction(Count(OutlierMask(c, t, nm)), Square(t), |c|)
  {
    if |c| > 0 {
      VarianceNonNegative(c);
      var mask := OutlierMask(c, t, nm);
      if nm.sqrt(Variance(c)) == 0.0 {
        ZeroStdNoOutliers(c, t, nm);
        CountZero(mask);
        SquareFacts(t);
      } else {
        SpreadOutlierCountBound(c, t, nm);
      }
    }
  }

  lemma {:induction false} SpreadOutlierCountBound(c: seq<real>, t: real, nm: Numerics)
    requires Sound(nm) && t > 0.0 && |c| > 0 && nm.sqrt(Variance(c)) != 0.0
    ensures AtMostFraction(Count(OutlierMask(c, t, nm)), Square(t), |c|)
  {
    ChebyshevSetting(c, t, nm);
    CountBound(Squares(Shift(c, Mean(c))), OutlierMask(c, t, nm), Square(t), Variance(c), |c|);
  }

  /** The squared deviations of a channel with a positive spread, its mask and
      its variance meet the requirements of the counting argument. */
  lemma ChebyshevSetting(c: seq<real>, t: real, nm: Numerics)
    requires Sound(nm) && t > 0.0 && |c| > 0 && nm.sqrt(Variance(c)) != 0.0
    ensures ChebyshevReady(Squares(Shift(c, Mean(c))), OutlierMask(c, t, nm), Square(t), Variance(c), |c|)
  {
    PositiveSpread(c, nm);
    FlaggedTermsDominate(c, t, nm);
    SumSquaredDeviations(c);
  }

  /** |q| = n terms adding up to n v, each marked one at least t2 v. */
  predicate ChebyshevReady(q: seq<real>, mask: seq<bool>, t2: real, v: real, n: nat)
  {
    v > 0.0 && Dominates(q, mask, t2 * v) && |q| == n && Sum(q) == (n as real) * v
  }

  /** cnt t2 <= n: at most n / t2 of n samples are counted. */
  predicate AtMostFraction(cnt: nat, t2: real, n: nat)
  {
    (cnt as real) * t2 <= n as real
  }

  lemma PositiveSpread(c: seq<real>, nm: Numerics)
    requires Sound(nm) && |c| > 0 && nm.sqrt(Variance(c)) != 0.0
    ensures Variance(c) > 0.0
  {
    VarianceNonNegative(c);
    SqrtZeroIff(nm, Variance(c));
  }

  /** If the terms add up to |q| v and each marked term is at least t2 v, at most
      |q| / t2 terms are marked. */
  lemma {:induction false} CountBound(q: seq<real>, mask: seq<bool>, t2: real, v: real, n: nat)
    requires ChebyshevReady(q, mask, t2, v, n)
    ensures AtMostFraction(Count(mask), t2, n)
  {
    var b := t2 * v;
    CountedSumRepeated(q, mask, b);
    var total, cnt := Sum(q), Count(mask);
    ChebyshevStep(total, cnt, n, t2, v, b);
    assert (cnt as real) * t2 <= n as real;
  }

  /** Every squared deviation is non-negative, and a flagged sample's is more
      than t^2 times the variance. */
  lemma FlaggedTermsDominate(c: seq<real>, t: real, nm: Numerics)
    requires Sound(nm) && t > 0.0 && |c| > 0 && nm.sqrt(Variance(c)) != 0.0
    ensures Dominates(Squares(Shift(c, Mean(c))), OutlierMask(c, t, nm), Square(t) * Variance(c))
  {
    var q, mask := Squares(Shift(c, Mean(c))), OutlierMask(c, t, nm);
    var b := Square(t) * Variance(c);
    VarianceNonNegative(c);
    SquareFacts(t);
    ProductPositive(Square(t), Variance(c));
    assert |q| == |mask| && b >= 0.0;
    forall k | 0 <= k < |q|
      ensures q[k] >= 0.0 && (mask[k] ==> q[k] >= b)
    {
      FlaggedTermDominates(c, t, nm, k);
    }
  }

  /** The same for one sample. */
  lemma FlaggedTermDominates(c: seq<real>, t: real, nm: Numerics, k: nat)
    requires Sound(nm) && t > 0.0 && k < |c| && nm.sqrt(Variance(c)) != 0.0
    ensures Squares(Shift(c, Mean(c)))[k] >= 0.0
    ensures OutlierMask(c, t, nm)[k] ==> Squares(Shift(c, Mean(c)))[k] >= Square(t) * Variance(c)
  {
    var d := c[k] - Mean(c);
    assert Squares(Shift(c, Mean(c)))[k] == Square(d);
    SquareFacts(d);
    if OutlierMask(c, t, nm)[k] {
      VarianceNonNegative(c);
      var sd := nm.sqrt(Variance(c));
      SquareFacts(sd);
      OutlierIff(c, t, nm, k);
      FlaggedSquare(d, t, sd);
    }
  }

  lemma FlaggedSquare(d: real, t: real, sd: real)
    requires t > 0.0 && sd > 0.0 && Abs(d) > t * sd
    ensures Square(d) >= Square(t) * Square(sd)
  {
    ProductPositive(t, sd);
    SquareMonotone(Abs(d), t * sd);
    SquareOfProduct(t, sd);
    if d < 0.0 {
      SquareOfNegation(d);
    }
  }

  lemma ChebyshevStep(total: real, cnt: nat, n: nat, t2: real, v: real, b: real)
    requires v > 0.0 && b == t2 * v && total == (n as real) * v && total >= Repeated(cnt, b)
    ensures (cnt as real) * t2 <= n as real
  {
    RepeatedIsProduct(cnt, b);
    assert ((cnt as real) * t2) * v <= (n as real) * v;
    ProductMonotone((cnt as real) * t2, n as real, v);
  }

  /** A sum of non-negative terms is at least b for every term the mask marks. */
  lemma {:induction false} CountedSum(q: seq<real>, mask: seq<bool>, b: real)
    requires Dominates(q, mask, b)
    ensures Sum(q) >= (Count(mask) as real) * b
  {
    CountedSumRepeated(q, mask, b);
    var total, c := Sum(q), Count(mask);
    AtLeastRepeated(total, c, b);
    assert total >= (c as real) * b;
  }

  lemma AtLeastRepeated(s: real, c: nat, b: real)
    requires s >= Repeated(c, b)
    ensures s >= (c as real) * b
  {
    RepeatedIsProduct(c, b);
  }

  /** b + b + ... + b, c times. */
  function Repeated(c: nat, b: real): real
  {
    if c == 0 then 0.0 else Repeated(c - 1, b) + b
  }

  lemma {:induction false} RepeatedIsProduct(c: nat, b: real)
    ensures Repeated(c, b) == (c as real) * b
  {
    if c > 0 {
      RepeatedIsProduct(c - 1, b);
      assert ((c - 1) as real) * b + b == (c as real) * b;
    }
  }

  /** Every term is non-negative and every term the mask marks is at least b. */
  predicate Dominates(q: seq<real>, mask: seq<bool>, b: real)
  {
    |q| == |mask| && b >= 0.0 &&
    forall k :: 0 <= k < |q| ==> q[k] >= 0.0 && (mask[k] ==> q[k] >= b)
  }

  lemma {:induction false} CountedSumRepeated(q: seq<real>, mask: seq<bool>, b: real)
    requires Dominates(q, mask, b)
    ensures Sum(q) >= Repeated(Count(mask), b)
    decreases |q|
  {
    if |q| > 0 {
      var n := |q| - 1;
      assert forall k :: 0 <= k < n ==> q[..n][k] == q[k] && mask[..n][k] == mask[k];
      CountedSumRepeated(q[..n], mask[..n], b);
    }
  }

  lemma AbsQuotient(d: real, sd: real)
    requires sd > 0.0
    ensures Abs(d / sd) == Abs(d) / sd
  {
  }
}
