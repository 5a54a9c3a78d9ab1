/** `extract_all_features`: the time-domain and the frequency-domain dictionaries
    merged into one (`{**time_features, **freq_features}`). */
module AllFeatures {
  import opened Numeric
  import opened TimeFeatures
  import opened FrequencyFeatures

  /** The time-domain dictionary with its own key names. */
  function TimeMap(t: TimeDomainFeatures): (d: map<string, Float>)
    ensures d.Keys == TimeKeys()
  {
    map["mean" := Num(t.mean), "std" := Num(t.std), "variance" := Num(t.variance),
        "min" := Num(t.min), "max" := Num(t.max), "range" := Num(t.range), "rms" := Num(t.rms),
        "skewness" := t.skewness, "kurtosis" := t.kurtosis,
        "zero_crossings" := Num(t.zeroCrossings as real)]
  }

  /** The frequency-domain dictionary with its own key names. */
  function FrequencyMap(f: FrequencyDomainFeatures): (d: map<string, Float>)
    ensures d.Keys == FrequencyKeys()
  {
    map["spectral_centroid" := f.spectralCentroid, "spectral_bandwidth" := f.spectralBandwidth,
        "spectral_rolloff" := Num(f.spectralRolloff), "spectral_flux" := Num(f.spectralFlux),
        "dominant_frequency" := Num(f.dominantFrequency)]
  }

  function TimeKeys(): set<string>
  {
    {"mean", "std", "variance", "min", "max", "range", "rms", "skewness", "kurtosis", "zero_crossings"}
  }

  function FrequencyKeys(): set<string>
  {
    {"spectral_centroid", "spectral_bandwidth", "spectral_rolloff", "spectral_flux", "dominant_frequency"}
  }

  /** {**a, **b}: every entry of `a`, overridden by the entries of `b`. */
  function Merge(a: map<string, Float>, b: map<string, Float>): (r: map<string, Float>)
    ensures r.Keys == a.Keys + b.Keys
    ensures forall k :: k in b ==> r[k] == b[k]
    ensures forall k :: k in a && k !in b ==> r[k] == a[k]
  {
    a + b
  }

  /** extract_all_features(data, fs) as written: the time-domain features are
      computed first (an empty signal raises there), and the frequency-domain call
      then always raises, so the function never returns a dictionary. */
  function ExtractAllFeatures(data: seq<real>, fs: real, magnitude: seq<real>, nm: Numerics)
    : (r: Result<map<string, Float>>)
    requires |magnitude| == |data|
    ensures r.Err?
    ensures r.error == if |data| == 0 then EmptyReduction else if fs == 0.0 then ZeroDivision else UnboundFeatures
  {
    match ExtractTimeDomainFeatures(data, nm)
    case Err(e) => Err(e)
    case Ok(t) =>
      match ExtractFrequencyDomainFeatures(data, fs, magnitude)
      case Err(e) => Err(e)
      case Ok(f) => Ok(Merge(TimeMap(t), FrequencyMap(f)))
  }

  /** extract_all_features with the corrected frequency-domain function. */
  function CorrectedAllFeatures(data: seq<real>, fs: real, magnitude: seq<real>, nm: Numerics)
    : (r: Result<map<string, Float>>)
    requires |magnitude| == |data| && forall k :: 0 <= k < |magnitude| ==> magnitude[k] >= 0.0
    ensures r.Err? <==> |data| <= 1 || fs == 0.0
    ensures r.Err? ==> r.error == if |data| == 0 then EmptyReduction else if fs == 0.0 then ZeroDivision else EmptyIndex
  {
    match ExtractTimeDomainFeatures(data, nm)
    case Err(e) => Err(e)
    case Ok(t) =>
      match CorrectedFrequencyDomainFeatures(data, fs, magnitude, nm)
      case Err(e) => Err(e)
      case Ok(f) => Ok(Merge(TimeMap(t), FrequencyMap(f)))
  }

  /** The two key sets are disjoint, so the merged dictionary has all fifteen
      keys and each entry is the one its own extractor computed: nothing is
      overridden. */
  lemma MergedFeatures(data: seq<real>, fs: real, magnitude: seq<real>, nm: Numerics)
    requires |magnitude| == |data| && forall k :: 0 <= k < |magnitude| ==> magnitude[k] >= 0.0
    requires |data| >= 2 && fs != 0.0
    ensures var r := CorrectedAllFeatures(data, fs, magnitude, nm).value;
      var t := TimeMap(ExtractTimeDomainFeatures(data, nm).value);
      var f := FrequencyMap(CorrectedFrequencyDomainFeatures(data, fs, magnitude, nm).value);
      r.Keys == TimeKeys() + FrequencyKeys() && |r| == 15 &&
      (forall k :: k in t ==> r[k] == t[k]) && (forall k :: k in f ==> r[k] == f[k])
  {
    KeysDisjoint();
    KeysCount();
  }

  /** No time-domain key is a frequency-domain key: their lengths already differ. */
  lemma KeysDisjoint()
    ensures TimeKeys() !! FrequencyKeys()
  {
    assert forall k :: k in TimeKeys() ==> |k| <= 8 || |k| == 14;
    assert forall k :: k in FrequencyKeys() ==> |k| >= 13 && |k| != 14;
  }

  /** Ten time-domain keys and five frequency-domain keys, all different. */
  lemma KeysCount()
    ensures |TimeKeys()| == 10 && |FrequencyKeys()| == 5
    ensures |TimeKeys() + FrequencyKeys()| == 15
  {
    TimeKeysCount();
    FrequencyKeysCount();
    KeysDisjoint();
    assert TimeKeys() * FrequencyKeys() == {};
  }

  lemma TimeKeysCount()
    ensures |TimeKeys()| == 10
  {
    assert "min"[1] != "max"[1];
    assert "variance"[0] != "skewness"[0] && "skewness"[0] != "kurtosis"[0] && "kurtosis"[0] != "variance"[0];
  }

  lemma FrequencyKeysCount()
    ensures |FrequencyKeys()| == 5
  {
  }
}
