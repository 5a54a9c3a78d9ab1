/** `normalizar_sinal`: per-channel min-max, z-score or robust (median / MAD)
    normalisation, each with its divide-by-zero guard. */
module Normalization {
  import opened Numeric
  import opened SeqStats
  import opened Signals

  /** The three method names the loop recognises, and every other string. */
  datatype Choice = MinMax | ZScore | Robust | Unknown

  /** Which branch of the loop body a method name selects. */
  function ChoiceOf(metodo: string): (e: Choice)
    ensures e == MinMax <==> metodo == "minmax"
    ensures e == ZScore <==> metodo == "zscore"
    ensures e == Robust <==> metodo == "robust"
  {
    if metodo == "minmax" then MinMax
    else if metodo == "zscore" then ZScore
    else if metodo == "robust" then Robust
    else Unknown
  }

  /** The 'minmax' branch on one channel: (x - min) / (max - min), or the channel
      itself when max - min == 0. */
  function MinMaxChannel(c: seq<real>): (r: seq<real>)
    requires |c| > 0
    ensures |r| == |c|
  {
    var lo, hi := Min(c), Max(c);
    if hi - lo == 0.0 then c else Rescale(c, lo, hi)
  }

  /** (x - lo) / (hi - lo), elementwise. */
  function Rescale(c: seq<real>, lo: real, hi: real): (r: seq<real>)
    requires hi - lo != 0.0
    ensures |r| == |c|
  {
    seq(|c|, k requires 0 <= k < |c| => (c[k] - lo) / (hi - lo))
  }

  /** The 'zscore' branch on one channel: (x - mean) / std, or x - mean when std == 0.
      An empty channel has nothing to write (numpy's mean and std are NaN there). */
  function ZScoreChannel(c: seq<real>, nm: Numerics): (r: seq<real>)
    ensures |r| == |c|
  {
    if |c| == 0 then []
    else
      var m := Mean(c);
      var sd := Std(c, nm);
      if sd == 0.0 then Shift(c, m) else Scale(Shift(c, m), sd)
  }

  /** The 'robust' branch on one channel: (x - median) / MAD, or x - median when
      MAD == 0. An empty channel has nothing to write. */
  function RobustChannel(c: seq<real>): (r: seq<real>)
    ensures |r| == |c|
  {
    if |c| == 0 then []
    else
      var med := Median(c);
      var mad := Mad(c);
      if mad == 0.0 then Shift(c, med) else Scale(Shift(c, med), mad)
  }

  /** What column j of the result holds, for a method the loop accepts. */
  function NormalizedChannel(c: seq<real>, e: Choice, nm: Numerics): (r: seq<real>)
    requires e != Unknown && (e == MinMax ==> |c| > 0)
    ensures |r| == |c|
  {
    match e
    case MinMax => MinMaxChannel(c)
    case ZScore => ZScoreChannel(c, nm)
    case Robust => RobustChannel(c)
  }

  /** normalizar_sinal(sinal, metodo). The result has the shape of the reshaped
      input and its column j is the normalisation of input column j alone. The
      method name is only looked at inside the channel loop, so an unknown name
      raises only when there is at least one channel; min-max also raises on a
      channel with no samples (np.min of a zero-size array). */
  method NormalizarSinal(sinal: Signal, metodo: string, nm: Numerics) returns (res: Result<array2<real>>)
    requires sinal.WellFormed()
    ensures var e := ChoiceOf(metodo);
      res.Err? <==> sinal.Cols() > 0 && (e == Unknown || (e == MinMax && sinal.Rows() == 0))
    ensures res.Err? ==> res.error == if ChoiceOf(metodo) == Unknown then InvalidMethod else EmptyReduction
    ensures res.Ok? ==> fresh(res.value)
    ensures res.Ok? ==> res.value.Length0 == sinal.Rows() && res.value.Length1 == sinal.Cols()
    ensures res.Ok? ==> forall k, j :: 0 <= k < sinal.Rows() && 0 <= j < sinal.Cols() ==>
      res.value[k, j] == NormalizedChannel(sinal.Column(j), ChoiceOf(metodo), nm)[k]
  {
    var x := sinal.Reshaped();
    var n, m := x.Rows(), x.Cols();
    var out := new real[n, m]((_, _) => 0.0);
    var escolha := ChoiceOf(metodo);  // the same outcome at every step of the loop
    for i := 0 to m
      invariant i > 0 ==> escolha != Unknown && (escolha == MinMax ==> n > 0)
      invariant forall k, j :: 0 <= k < n && 0 <= j < i ==>
        out[k, j] == NormalizedChannel(x.Column(j), escolha, nm)[k]
    {
      var c := x.Column(i);
      var v := NormalizeChannelStep(c, escolha, nm);
      if v.Err? {
        return Err(v.error);
      }
      WriteColumn(out, i, v.value);
    }
    return Ok(out);
  }

  /** The loop body for one channel `c`: the branch the method name selects,
      or the error it raises. */
  method NormalizeChannelStep(c: seq<real>, escolha: Choice, nm: Numerics) returns (v: Result<seq<real>>)
    ensures v.Err? <==> escolha == Unknown || (escolha == MinMax && |c| == 0)
    ensures v.Err? ==> v.error == if escolha == Unknown then InvalidMethod else EmptyReduction
    ensures v.Ok? ==> v.value == NormalizedChannel(c, escolha, nm)
  {
    if escolha == MinMax {
      if |c| == 0 {
        return Err(EmptyReduction);
      }
      var minimo := Min(c);
      var maximo := Max(c);
      if maximo - minimo == 0.0 {
        v := Ok(c);
      } else {
        v := Ok(Rescale(c, minimo, maximo));
      }
    } else if escolha == ZScore {
      if |c| == 0 {
        return Ok([]);  // an empty column: nothing is written
      }
      var media := Mean(c);
      var desvio := Std(c, nm);
      if desvio == 0.0 {
        v := Ok(Shift(c, media));
      } else {
        v := Ok(Scale(Shift(c, media), desvio));
      }
    } else if escolha == Robust {
      if |c| == 0 {
        return Ok([]);  // an empty column: nothing is written
      }
      var mediana := Median(c);
      var mad := Mad(c);
      if mad == 0.0 {
        v := Ok(Shift(c, mediana));
      } else {
        v := Ok(Scale(Shift(c, mediana), mad));
      }
    } else {
      return Err(InvalidMethod);
    }
  }

  // ---------------------------------------------------------------------------
  // What each branch promises.

  /** Min-max on a non-constant channel lands in [0, 1], sends every sample equal
      to the minimum to 0 and every sample equal to the maximum to 1. */
  lemma MinMaxInUnitRange(c: seq<real>)
    requires |c| > 0 && Min(c) != Max(c)
    ensures forall k :: 0 <= k < |c| ==> 0.0 <= MinMaxChannel(c)[k] <= 1.0
    ensures forall k :: 0 <= k < |c| && c[k] == Min(c) ==> MinMaxChannel(c)[k] == 0.0
    ensures forall k :: 0 <= k < |c| && c[k] == Max(c) ==> MinMaxChannel(c)[k] == 1.0
  {
    RescaleInUnitRange(c, Min(c), Max(c));
  }

  /** Rescaling by a range that holds every sample lands in [0, 1], with the ends
      of the range going to 0 and 1. */
  lemma RescaleInUnitRange(c: seq<real>, lo: real, hi: real)
    requires lo < hi && forall k :: 0 <= k < |c| ==> lo <= c[k] <= hi
    ensures forall k :: 0 <= k < |c| ==> 0.0 <= Rescale(c, lo, hi)[k] <= 1.0
    ensures forall k :: 0 <= k < |c| && c[k] == lo ==> Rescale(c, lo, hi)[k] == 0.0
    ensures forall k :: 0 <= k < |c| && c[k] == hi ==> Rescale(c, lo, hi)[k] == 1.0
  {
    forall k | 0 <= k < |c|
      ensures 0.0 <= Rescale(c, lo, hi)[k] <= 1.0
      ensures c[k] == lo ==> Rescale(c, lo, hi)[k] == 0.0
      ensures c[k] == hi ==> Rescale(c, lo, hi)[k] == 1.0
    {
      UnitScaled(c[k], lo, hi);
    }
  }

  /** Min-max leaves a constant channel unchanged. */
  lemma MinMaxConstant(c: seq<real>)
    requires |c| > 0 && Constant(c)
    ensures MinMaxChannel(c) == c
  {
    assert Min(c) == c[0] && Max(c) == c[0];
  }

  /** Z-score subtracts the mean only when std == 0, so a constant channel comes
      out all zeros. */
  lemma ZScoreConstant(c: seq<real>, nm: Numerics)
    requires Sound(nm) && |c| > 0 && Constant(c)
    ensures forall k :: 0 <= k < |c| ==> ZScoreChannel(c, nm)[k] == 0.0
  {
    ConstantVarianceZero(c);
    SqrtZeroIff(nm, Variance(c));
  }

  /** The z-scored channel has mean 0, in both branches. */
  lemma ZScoreMeanZero(c: seq<real>, nm: Numerics)
    requires |c| > 0
    ensures Mean(ZScoreChannel(c, nm)) == 0.0
  {
    var m := Mean(c);
    var sd := Std(c, nm);
    var d := Shift(c, m);
    SumShift(c, m);
    MeanTimesCount(c);
    assert Sum(d) == 0.0;
    if sd != 0.0 {
      SumScale(d, sd);
    }
  }

  /** On a channel with std != 0 the z-scored channel has variance 1. */
  lemma ZScoreUnitVariance(c: seq<real>, nm: Numerics)
    requires Sound(nm) && |c| > 0 && Std(c, nm) != 0.0
    ensures Variance(ZScoreChannel(c, nm)) == 1.0
  {
    var v := Variance(c);
    VarianceNonNegative(c);
    var sd := nm.sqrt(v);
    assert Square(sd) == v;
    var d := Shift(c, Mean(c));
    var z := Scale(d, sd);
    assert ZScoreChannel(c, nm) == z;
    ZScoreMeanZero(c, nm);
    assert Shift(z, Mean(z)) == z;
    SquareFacts(sd);
    forall k | 0 <= k < |z|
      ensures Squares(z)[k] == Scale(Squares(d), v)[k]
    {
      SquareOfQuotient(d[k], sd);
    }
    assert Squares(z) == Scale(Squares(d), v);
    SumScale(Squares(d), v);
    assert v == Sum(Squares(d)) / (|c| as real);
    UnitRatio(Sum(Squares(d)), |c| as real, v);
  }

  /** Robust normalisation sends a constant channel to all zeros (its MAD is 0). */
  lemma RobustConstant(c: seq<real>)
    requires |c| > 0 && Constant(c)
    ensures forall k :: 0 <= k < |c| ==> RobustChannel(c)[k] == 0.0
  {
    MedianOfConstant(c);
  }

  lemma SquareOfQuotient(x: real, d: real)
    requires d != 0.0
    ensures Square(d) != 0.0 && Square(x / d) == Square(x) / Square(d)
  {
    SquareFacts(d);
  }

  lemma UnitRatio(s: real, n: real, v: real)
    requires n > 0.0 && v != 0.0 && v == s / n
    ensures (s / v) / n == 1.0
  {
    assert s == v * n;
    assert s / v == n;
  }

  lemma UnitScaled(x: real, lo: real, hi: real)
    requires lo <= x <= hi && lo < hi
    ensures 0.0 <= (x - lo) / (hi - lo) <= 1.0
    ensures x == lo ==> (x - lo) / (hi - lo) == 0.0
    ensures x == hi ==> (x - lo) / (hi - lo) == 1.0
  {
    if x != hi {
      QuotientBounds(x - lo, hi - lo, 0.0, 1.0);
    }
  }
}
