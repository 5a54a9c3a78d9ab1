/** `extract_time_domain_features`: ten statistics of a one-dimensional signal,
    returned as one dictionary. */
module TimeFeatures {
  import opened Numeric
  import opened SeqStats

  /** The dictionary's ten entries, in the order the literal lists them. */
  datatype TimeDomainFeatures = TimeDomainFeatures(
    mean: real,
    std: real,
    variance: real,
    min: real,
    max: real,
    range: real,
    rms: real,
    skewness: Float,
    kurtosis: Float,
    zeroCrossings: nat)

  /** np.signbit on a real: set for negative values (-0.0 is not modelled). */
  predicate SignBit(x: real)
  {
    x < 0.0
  }

  /** np.diff(np.signbit(data)): where consecutive samples differ in sign bit. */
  function SignBitChanged(data: seq<real>): (r: seq<bool>)
    ensures |r| == if |data| == 0 then 0 else |data| - 1
    ensures forall k :: 0 <= k < |r| ==> (r[k] <==> SignBit(data[k]) != SignBit(data[k + 1]))
  {
    if |data| == 0 then []
    else seq(|data| - 1, k requires 0 <= k < |data| - 1 => SignBit(data[k + 1]) != SignBit(data[k]))
  }

  /** extract_time_domain_features(data). The entries are evaluated in order, and
      np.mean, np.std and np.var of an empty array only warn, so the first raise
      on an empty signal is np.min's. */
  function ExtractTimeDomainFeatures(data: seq<real>, nm: Numerics): (r: Result<TimeDomainFeatures>)
    ensures r.Err? <==> |data| == 0
    ensures r.Err? ==> r.error == EmptyReduction
  {
    if |data| == 0 then Err(EmptyReduction)
    else
      Ok(TimeDomainFeatures(
        Mean(data),
        Std(data, nm),
        Variance(data),
        Min(data),
        Max(data),
        Max(data) - Min(data),
        Rms(data, nm),
        nm.skew(data),
        nm.kurtosis(data),
        Count(SignBitChanged(data))))
  }

  /** The mean lies between the minimum and the maximum, the range is their
      non-negative difference, and the variance is non-negative and 0 exactly when
      the range is 0. */
  lemma {:induction false} TimeFeaturesOrder(data: seq<real>, nm: Numerics)
    requires |data| > 0
    ensures var f := ExtractTimeDomainFeatures(data, nm).value;
      f.min <= f.mean <= f.max && f.range == f.max - f.min && f.range >= 0.0 &&
      f.variance >= 0.0 && (f.variance == 0.0 <==> f.range == 0.0)
  {
    MeanBounds(data);
    VarianceNonNegative(data);
    RangeZeroIffConstant(data);
    ConstantIffAllMean(data);
  }

  /** With a real square root, std is the non-negative root of the variance and
      rms is non-negative, 0 exactly for an all-zero signal. */
  lemma {:induction false} TimeFeaturesRoots(data: seq<real>, nm: Numerics)
    requires Sound(nm) && |data| > 0
    ensures var f := ExtractTimeDomainFeatures(data, nm).value;
      f.std >= 0.0 && Square(f.std) == f.variance &&
      f.rms >= 0.0 && (f.rms == 0.0 <==> forall k :: 0 <= k < |data| ==> data[k] == 0.0)
  {
    StdBounds(data, nm);
    RmsBounds(data, nm);
  }

  /** A signal is constant exactly when its maximum equals its minimum. */
  lemma {:induction false} RangeZeroIffConstant(data: seq<real>)
    requires |data| > 0
    ensures Max(data) - Min(data) == 0.0 <==> Constant(data)
  {
    if Constant(data) {
      assert Min(data) == data[0] && Max(data) == data[0];
    }
  }

  /** At most len - 1 crossings, and none exactly when every sample has the sign
      bit of the first one; in particular none for a non-negative signal. */
  lemma {:induction false} ZeroCrossingsBounds(data: seq<real>, nm: Numerics)
    requires |data| > 0
    ensures var z := ExtractTimeDomainFeatures(data, nm).value.zeroCrossings;
      z <= |data| - 1 &&
      (z == 0 <==> forall k :: 0 <= k < |data| ==> SignBit(data[k]) == SignBit(data[0]))
    ensures (forall k :: 0 <= k < |data| ==> data[k] >= 0.0) ==>
      ExtractTimeDomainFeatures(data, nm).value.zeroCrossings == 0
  {
    var changed := SignBitChanged(data);
    CountZero(changed);
    if Count(changed) == 0 {
      SameSignBitFrom(data, |data| - 1);
    }
  }

  /** No change between neighbours up to `k` keeps sample `k` on the first
      sample's side. */
  lemma {:induction false} SameSignBitFrom(data: seq<real>, k: nat)
    requires k < |data|
    requires forall i :: 0 <= i < |data| - 1 ==> SignBit(data[i]) == SignBit(data[i + 1])
    ensures forall i :: 0 <= i <= k ==> SignBit(data[i]) == SignBit(data[0])
  {
    if k > 0 {
      SameSignBitFrom(data, k - 1);
      assert SignBit(data[k - 1]) == SignBit(data[k]);
    }
  }
}
