/** `verificar_qualidade_sinal`: a dictionary with one entry `canal_<i>` per
    channel holding five quality metrics of that channel. */
module Quality {
  import opened Numeric
  import opened SeqStats
  import opened Signals
  import opened Decimal

  /** f'canal_{i}' */
  function ChannelKey(i: nat): string
  {
    "canal_" + Digits(i)
  }

  /** Different channels get different keys. */
  lemma ChannelKeyInjective(i: nat, j: nat)
    requires ChannelKey(i) == ChannelKey(j)
    ensures i == j
  {
    assert ChannelKey(i)[6..] == Digits(i);
    assert ChannelKey(j)[6..] == Digits(j);
    ParseDigitsOfDigits(i);
    ParseDigitsOfDigits(j);
  }

  /** The five metrics stored for one channel. */
  datatype ChannelQuality = ChannelQuality(
    snrEstimado: Float,
    amplitudeMaxima: real,
    saturacao: real,
    zeroCrossings: nat,
    rms: real)

  /** 20 log10(std(c) / (std(diff(c)) + 1e-10)). For a single sample np.diff is
      empty and its std is NaN, which propagates; a zero ratio gives
      log10(0) = -inf. */
  function Snr(c: seq<real>, nm: Numerics): (r: Float)
    requires |c| > 0
    ensures |c| == 1 ==> r.NaN?
  {
    if |c| == 1 then NaN
    else
      match Divide(Std(c, nm), Std(Diff(c), nm) + 0.0000000001)
      case Num(ratio) =>
        if ratio > 0.0 then Num(20.0 * nm.log10(ratio))
        else if ratio == 0.0 then NegInf
        else NaN
      case PosInf => PosInf
      case _ => NaN
  }

  /** np.max(np.abs(c)) */
  function AmplitudeMaxima(c: seq<real>): real
    requires |c| > 0
  {
    Max(AbsAll(c))
  }

  /** np.abs(c) > 0.95 * np.max(np.abs(c)), elementwise (a strict comparison). */
  function Saturated(c: seq<real>): (r: seq<bool>)
    requires |c| > 0
    ensures |r| == |c|
  {
    var limite := 0.95 * AmplitudeMaxima(c);
    seq(|c|, k requires 0 <= k < |c| => Abs(c[k]) > limite)
  }

  /** The share of saturated samples. */
  function Saturacao(c: seq<real>): real
    requires |c| > 0
  {
    (Count(Saturated(c)) as real) / (|c| as real)
  }

  /** np.sign */
  function Sign(x: real): int
  {
    if x > 0.0 then 1 else if x < 0.0 then -1 else 0
  }

  /** np.diff(np.sign(c)) != 0: where consecutive samples differ in sign, which
      includes entering or leaving 0. */
  function SignChanged(c: seq<real>): (r: seq<bool>)
    ensures |r| == if |c| == 0 then 0 else |c| - 1
  {
    if |c| == 0 then []
    else seq(|c| - 1, k requires 0 <= k < |c| - 1 => Sign(c[k + 1]) - Sign(c[k]) != 0)
  }

  /** metricas['canal_i'] for one non-empty channel. */
  function ChannelMetrics(c: seq<real>, nm: Numerics): (q: ChannelQuality)
    requires |c| > 0
    ensures q.amplitudeMaxima >= 0.0 && 0.0 <= q.saturacao <= 1.0 && q.zeroCrossings <= |c| - 1
    ensures |c| == 1 ==> q.snrEstimado.NaN?
  {
    AmplitudeBounds(c);
    SaturacaoBounds(c);
    SignChangesBounds(c);
    ChannelQuality(Snr(c, nm), AmplitudeMaxima(c), Saturacao(c), Count(SignChanged(c)), Rms(c, nm))
  }

  /** The keys canal_0 .. canal_{m-1}. */
  function ChannelKeys(m: nat): set<string>
  {
    if m == 0 then {} else ChannelKeys(m - 1) + {ChannelKey(m - 1)}
  }

  /** The key set holds exactly the keys of the channels below `m`. */
  lemma {:induction false} ChannelKeysMembers(m: nat)
    ensures forall key :: key in ChannelKeys(m) <==> exists i :: 0 <= i < m && key == ChannelKey(i)
  {
    if m > 0 {
      ChannelKeysMembers(m - 1);
      forall key | key in ChannelKeys(m)
        ensures exists i :: 0 <= i < m && key == ChannelKey(i)
      {
        if key != ChannelKey(m - 1) {
          assert key in ChannelKeys(m - 1);
          var i :| 0 <= i < m - 1 && key == ChannelKey(i);
        }
      }
      forall i | 0 <= i < m
        ensures ChannelKey(i) in ChannelKeys(m)
      {
        if i < m - 1 {
          assert ChannelKey(i) in ChannelKeys(m - 1);
        }
      }
    }
  }

  /** canal_m is not among the keys of the channels below `m`. */
  lemma {:induction false} ChannelKeyFresh(m: nat)
    ensures ChannelKey(m) !in ChannelKeys(m)
  {
    ChannelKeysMembers(m);
    ChannelKeysDistinct(m);
  }

  /** Channels below `i` have keys other than canal_i. */
  lemma ChannelKeysDistinct(i: nat)
    ensures forall j :: 0 <= j < i ==> ChannelKey(j) != ChannelKey(i)
  {
    forall j | 0 <= j < i
      ensures ChannelKey(j) != ChannelKey(i)
    {
      if ChannelKey(j) == ChannelKey(i) {
        ChannelKeyInjective(j, i);
      }
    }
  }

  /** The dictionary holding `vals[i]` under canal_i, built by adding the keys
      in channel order. */
  function KeyedMap<V>(vals: seq<V>): map<string, V>
  {
    if |vals| == 0 then map[]
    else KeyedMap(vals[..|vals| - 1])[ChannelKey(|vals| - 1) := vals[|vals| - 1]]
  }

  /** There are `m` keys for `m` channels. */
  lemma {:induction false} ChannelKeysCount(m: nat)
    ensures |ChannelKeys(m)| == m
  {
    if m > 0 {
      ChannelKeysCount(m - 1);
      ChannelKeyFresh(m - 1);
    }
  }

  /** The dictionary of `m` values has exactly the keys of the first `m` channels. */
  lemma {:induction false} KeyedMapKeys<V>(vals: seq<V>)
    ensures KeyedMap(vals).Keys == ChannelKeys(|vals|)
  {
    if |vals| > 0 {
      KeyedMapKeys(vals[..|vals| - 1]);
    }
  }

  /** ... and the key of channel i holds the value of channel i. */
  lemma {:induction false} KeyedMapValue<V>(vals: seq<V>, i: nat)
    requires i < |vals|
    ensures ChannelKey(i) in KeyedMap(vals) && KeyedMap(vals)[ChannelKey(i)] == vals[i]
  {
    var m := |vals|;
    if i < m - 1 {
      var prefix := vals[..m - 1];
      KeyedMapValue(prefix, i);
      if ChannelKey(i) == ChannelKey(m - 1) {
        ChannelKeyInjective(i, m - 1);
      }
      assert prefix[i] == vals[i];
    }
  }

  /** The dictionary of `m` values: `m` entries, one per channel key. */
  lemma KeyedMapSummary<V>(vals: seq<V>)
    ensures KeyedMap(vals).Keys == ChannelKeys(|vals|) && |KeyedMap(vals)| == |vals|
    ensures forall i :: 0 <= i < |vals| ==>
      ChannelKey(i) in KeyedMap(vals) && KeyedMap(vals)[ChannelKey(i)] == vals[i]
  {
    KeyedMapKeys(vals);
    ChannelKeysCount(|vals|);
    assert |KeyedMap(vals)| == |KeyedMap(vals).Keys|;
    forall i | 0 <= i < |vals|
      ensures ChannelKey(i) in KeyedMap(vals) && KeyedMap(vals)[ChannelKey(i)] == vals[i]
    {
      KeyedMapValue(vals, i);
    }
  }

  /** The dictionary of the first `i` values extended by value i. */
  lemma KeyedMapPrefixStep<V>(vals: seq<V>, i: nat)
    requires i < |vals|
    ensures KeyedMap(vals[..i + 1]) == KeyedMap(vals[..i])[ChannelKey(i) := vals[i]]
  {
    assert vals[..i + 1][..i] == vals[..i];
  }

  /** The metrics of every channel, in channel order. */
  function ChannelTable(sinal: Signal, nm: Numerics): (t: seq<ChannelQuality>)
    requires sinal.WellFormed() && (sinal.Cols() > 0 ==> sinal.Rows() > 0)
    ensures |t| == sinal.Cols()
  {
    seq(sinal.Cols(), j requires 0 <= j < sinal.Cols() => ChannelMetrics(sinal.Column(j), nm))
  }

  /** The dictionary verificar_qualidade_sinal returns. */
  function QualityReport(sinal: Signal, nm: Numerics): map<string, ChannelQuality>
    requires sinal.WellFormed() && (sinal.Cols() > 0 ==> sinal.Rows() > 0)
  {
    KeyedMap(ChannelTable(sinal.Reshaped(), nm))
  }

  /** One key per channel, and no other. */
  lemma QualityReportKeys(sinal: Signal, nm: Numerics)
    requires sinal.WellFormed() && (sinal.Cols() > 0 ==> sinal.Rows() > 0)
    ensures QualityReport(sinal, nm).Keys == ChannelKeys(sinal.Cols())
    ensures |QualityReport(sinal, nm)| == sinal.Cols()
  {
    KeyedMapSummary(ChannelTable(sinal.Reshaped(), nm));
  }

  /** The key of channel i holds the metrics of channel i alone. */
  lemma QualityReportValue(sinal: Signal, nm: Numerics, i: nat)
    requires sinal.WellFormed() && (sinal.Cols() > 0 ==> sinal.Rows() > 0) && i < sinal.Cols()
    ensures ChannelKey(i) in QualityReport(sinal, nm)
    ensures QualityReport(sinal, nm)[ChannelKey(i)] == ChannelMetrics(sinal.Column(i), nm)
  {
    var x := sinal.Reshaped();
    KeyedMapValue(ChannelTable(x, nm), i);
    assert x.Column(i) == sinal.Column(i);
  }

  /** verificar_qualidade_sinal(sinal, fs): `fs` is accepted and not used. The
      channels are visited in order, each adding its key; a channel with no
      samples raises when np.max meets the empty array. */
  method VerificarQualidadeSinal(sinal: Signal, fs: int, nm: Numerics)
    returns (res: Result<map<string, ChannelQuality>>)
    requires sinal.WellFormed()
    ensures res.Err? <==> sinal.Cols() > 0 && sinal.Rows() == 0
    ensures res.Err? ==> res.error == EmptyReduction
    ensures res.Ok? ==> res.value == QualityReport(sinal, nm)
  {
    var x := sinal.Reshaped();
    var n, m := x.Rows(), x.Cols();
    var metricas: map<string, ChannelQuality> := map[];
    for i := 0 to m
      invariant i > 0 ==> n > 0
      invariant n > 0 ==> metricas == KeyedMap(ChannelTable(x, nm)[..i])
      invariant n == 0 ==> metricas == map[]
    {
      var canal := x.Column(i);
      var nomeCanal := ChannelKey(i);
      if n == 0 {
        return Err(EmptyReduction);
      }
      ghost var tabela := ChannelTable(x, nm);
      assert tabela[i] == ChannelMetrics(canal, nm);
      KeyedMapPrefixStep(tabela, i);
      metricas := metricas[nomeCanal := ChannelMetrics(canal, nm)];
    }
    if n > 0 {
      assert ChannelTable(x, nm)[..m] == ChannelTable(x, nm);
    } else {
      assert ChannelTable(x, nm) == [];
      assert KeyedMap(ChannelTable(x, nm)) == map[];
    }
    assert QualityReport(sinal, nm) == KeyedMap(ChannelTable(x, nm));
    return Ok(metricas);
  }

  // ---------------------------------------------------------------------------
  // What the metrics promise.

  /** The maximum amplitude is non-negative, and it is 0 exactly for an all-zero
      channel. */
  lemma {:induction false} AmplitudeBounds(c: seq<real>)
    requires |c| > 0
    ensures AmplitudeMaxima(c) >= 0.0
    ensures AmplitudeMaxima(c) == 0.0 <==> forall k :: 0 <= k < |c| ==> c[k] == 0.0
  {
    var a := AbsAll(c);
    assert a[0] >= 0.0;
    if AmplitudeMaxima(c) == 0.0 {
      forall k | 0 <= k < |c|
        ensures c[k] == 0.0
      {
        assert a[k] <= 0.0;
      }
    }
  }

  /** No sample is flagged exactly when the channel is all zero: otherwise the
      largest sample exceeds 0.95 of itself. */
  lemma {:induction false} SaturatedCountZero(c: seq<real>)
    requires |c| > 0
    ensures Count(Saturated(c)) == 0 <==> forall k :: 0 <= k < |c| ==> c[k] == 0.0
  {
    AmplitudeBounds(c);
    CountZero(Saturated(c));
    if exists k :: 0 <= k < |c| && c[k] != 0.0 {
      var top :| 0 <= top < |c| && AbsAll(c)[top] == AmplitudeMaxima(c);
      assert Saturated(c)[top];
    }
  }

  /** The saturation share lies in [0, 1]; it is 0 for an all-zero channel and
      otherwise at least one sample (the largest) counts, so it is >= 1 / len. */
  lemma {:induction false} SaturacaoBounds(c: seq<real>)
    requires |c| > 0
    ensures 0.0 <= Saturacao(c) <= 1.0
    ensures (forall k :: 0 <= k < |c| ==> c[k] == 0.0) ==> Saturacao(c) == 0.0
    ensures (exists k :: 0 <= k < |c| && c[k] != 0.0) ==> Saturacao(c) >= 1.0 / (|c| as real)
  {
    ShareBounds(Count(Saturated(c)), |c|);
    SaturatedCountZero(c);
  }

  /** A count out of `len` items, as a share of `len`. */
  lemma ShareBounds(cnt: nat, len: nat)
    requires 0 < len && cnt <= len
    ensures 0.0 <= (cnt as real) / (len as real) <= 1.0
    ensures cnt == 0 ==> (cnt as real) / (len as real) == 0.0
    ensures cnt > 0 ==> (cnt as real) / (len as real) >= 1.0 / (len as real)
  {
    var n := len as real;
    QuotientBounds(cnt as real, n, 0.0, 1.0);
    if cnt > 0 {
      assert n * (1.0 / n) == 1.0;
      QuotientBounds(cnt as real, n, 1.0 / n, 1.0);
    }
  }

  /** At most len - 1 sign changes, and none on a constant channel. */
  lemma SignChangesBounds(c: seq<real>)
    requires |c| > 0
    ensures Count(SignChanged(c)) <= |c| - 1
    ensures Constant(c) ==> Count(SignChanged(c)) == 0
  {
    if Constant(c) {
      CountZero(SignChanged(c));
    }
  }

  /** A channel of two or more samples never has a NaN SNR (the denominator is
      at least 1e-10), and its SNR is -inf exactly when the channel is constant. */
  lemma {:induction false} SnrDefined(c: seq<real>, nm: Numerics)
    requires Sound(nm) && |c| >= 2
    ensures !Snr(c, nm).NaN?
    ensures Snr(c, nm).NegInf? <==> Constant(c)
  {
    var d := Diff(c);
    VarianceNonNegative(c);
    VarianceNonNegative(d);
    var sc, sd := Std(c, nm), Std(d, nm);
    assert sc >= 0.0 && sd >= 0.0;
    var den := sd + 0.0000000001;
    QuotientSign(sc, den);
    SqrtZeroIff(nm, Variance(c));
    ConstantIffAllMean(c);
  }
}
