/** `extract_frequency_domain_features`: spectral statistics over the first half
    of the spectrum. As written the function always raises once it reaches its
    dictionary literal (the bandwidth entry reads `features` before the literal
    has been assigned to it); `CorrectedFrequencyDomainFeatures` is the function
    with the bandwidth using the centroid just computed. */
module FrequencyFeatures {
  import opened Numeric
  import opened SeqStats

  /** The dictionary's five entries. The centroid and the bandwidth are divisions
      by the total magnitude and are NaN when it is 0. */
  datatype FrequencyDomainFeatures = FrequencyDomainFeatures(
    spectralCentroid: Float,
    spectralBandwidth: Float,
    spectralRolloff: real,
    spectralFlux: real,
    dominantFrequency: real)

  /** np.fft.fftfreq(n, 1 / fs): bin k is k fs / n for the first (n + 1) // 2 bins
      and (k - n) fs / n for the rest. */
  function FftFreq(n: nat, fs: real): (r: seq<real>)
    requires n > 0
    ensures |r| == n
    ensures fs > 0.0 ==> forall k :: 0 <= k < n ==> (r[k] >= 0.0 <==> k < (n + 1) / 2)
  {
    seq(n, k requires 0 <= k < n => ((if k < (n + 1) / 2 then k else k - n) as real) * fs / (n as real))
  }

  /** magnitude[:n] and freqs[:n] with n = len(data) // 2. `magnitude` is
      np.abs(np.fft.fft(data)), which the model takes as given. */
  function HalfSpectrum(magnitude: seq<real>, fs: real): (r: (seq<real>, seq<real>))
    requires |magnitude| > 0
    ensures |r.0| == |magnitude| / 2 && |r.1| == |magnitude| / 2
    ensures forall k :: 0 <= k < |r.0| ==> r.0[k] == magnitude[k]
    ensures forall k :: 0 <= k < |r.1| ==> r.1[k] == (k as real) * fs / (|magnitude| as real)
  {
    var n := |magnitude| / 2;
    FftFreqLowHalf(|magnitude|, fs);
    (magnitude[..n], FftFreq(|magnitude|, fs)[..n])
  }

  /** The first half of the bins are the non-negative frequencies k fs / n. */
  lemma FftFreqLowHalf(n: nat, fs: real)
    requires n > 0
    ensures forall k :: 0 <= k < n / 2 ==> FftFreq(n, fs)[k] == (k as real) * fs / (n as real)
  {
    var f := FftFreq(n, fs);
    assert n / 2 <= (n + 1) / 2;
    forall k | 0 <= k < n / 2
      ensures f[k] == (k as real) * fs / (n as real)
    {
      assert k < (n + 1) / 2;
      assert f[k] == ((if k < (n + 1) / 2 then k else k - n) as real) * fs / (n as real);
    }
  }

  /** f * m, elementwise. */
  function Products(f: seq<real>, m: seq<real>): (r: seq<real>)
    requires |f| == |m|
    ensures |r| == |f|
  {
    seq(|f|, k requires 0 <= k < |f| => f[k] * m[k])
  }

  /** np.cumsum */
  function CumSum(s: seq<real>): (r: seq<real>)
    ensures |r| == |s|
    ensures forall k :: 0 <= k < |s| ==> r[k] == Sum(s[..k + 1])
  {
    seq(|s|, k requires 0 <= k < |s| => Sum(s[..k + 1]))
  }

  /** np.where(s >= t)[0][0]: the first index at or above `t`; IndexError when
      there is none. */
  function FirstAtLeast(s: seq<real>, t: real): (r: Result<nat>)
    ensures r.Ok? <==> exists k :: 0 <= k < |s| && s[k] >= t
    ensures r.Ok? ==> r.value < |s| && s[r.value] >= t
    ensures r.Ok? ==> forall k :: 0 <= k < r.value ==> s[k] < t
    ensures r.Err? ==> r.error == EmptyIndex
  {
    if |s| == 0 then Err(EmptyIndex)
    else if s[0] >= t then Ok(0)
    else
      match FirstAtLeast(s[1..], t)
      case Ok(i) => Ok(i + 1)
      case Err(e) =>
        assert forall k :: 1 <= k < |s| ==> s[1..][k - 1] == s[k];
        Err(e)
  }

  /** np.argmax: the first index of the largest value; ValueError when empty. */
  function ArgMax(s: seq<real>): (r: Result<nat>)
    ensures r.Ok? <==> |s| > 0
    ensures r.Err? ==> r.error == EmptyArgmax
    ensures r.Ok? ==> r.value < |s|
    ensures r.Ok? ==> forall k :: 0 <= k < |s| ==> s[k] <= s[r.value]
    ensures r.Ok? ==> forall k :: 0 <= k < r.value ==> s[k] < s[r.value]
  {
    if |s| == 0 then Err(EmptyArgmax)
    else if |s| == 1 then Ok(0)
    else
      var i := ArgMax(s[..|s| - 1]).value;
      assert forall k :: 0 <= k < |s| - 1 ==> s[..|s| - 1][k] == s[k];
      if s[|s| - 1] > s[i] then Ok(|s| - 1) else Ok(i)
  }

  /** np.sum(freqs * magnitude) / np.sum(magnitude) */
  function SpectralCentroid(freqs: seq<real>, mags: seq<real>): (r: Float)
    requires |freqs| == |mags|
    ensures r.Num? <==> Sum(mags) != 0.0
  {
    Divide(Sum(Products(freqs, mags)), Sum(mags))
  }

  /** np.sum(np.diff(magnitude) ** 2) */
  function SpectralFlux(mags: seq<real>): real
  {
    Sum(Squares(Diff(mags)))
  }

  /** extract_frequency_domain_features(data, fs) as written. np.fft.fft raises on
      an empty signal and `1 / fs` on fs == 0; otherwise the centroid entry is
      evaluated and the bandwidth entry then reads the local `features`, which is
      not yet bound, so the call always raises UnboundLocalError. */
  function ExtractFrequencyDomainFeatures(data: seq<real>, fs: real, magnitude: seq<real>)
    : (r: Result<FrequencyDomainFeatures>)
    requires |magnitude| == |data|
    ensures r.Err?
    ensures r.error == if |data| == 0 then EmptyFft else if fs == 0.0 then ZeroDivision else UnboundFeatures
  {
    if |data| == 0 then Err(EmptyFft)
    else if fs == 0.0 then Err(ZeroDivision)
    else
      var (mags, freqs) := HalfSpectrum(magnitude, fs);
      var centroid := SpectralCentroid(freqs, mags);
      Err(UnboundFeatures)
  }

  /** np.sqrt(np.sum((freqs - centroid) ** 2 * magnitude) / np.sum(magnitude)),
      with a NaN centroid propagating. */
  function SpectralBandwidth(freqs: seq<real>, mags: seq<real>, centroid: Float, nm: Numerics): (r: Float)
    requires |freqs| == |mags|
    ensures r.Num? ==> centroid.Num? && Sum(mags) != 0.0
    ensures centroid.NaN? ==> r.NaN?
    ensures Sound(nm) && r.Num? ==> r.value >= 0.0
  {
    match centroid
    case Num(c) =>
      (match Divide(Sum(Products(Squares(Shift(freqs, c)), mags)), Sum(mags))
       case Num(v) => if v >= 0.0 then Num(nm.sqrt(v)) else NaN
       case _ => NaN)
    case _ => NaN
  }

  /** The five entries on the half spectrum, in the order the literal evaluates
      them, with the bandwidth taken about the centroid just computed. The
      rolloff's `[0][0]` fails on an empty half spectrum before the argmax is
      reached. */
  function SpectralFeatures(mags: seq<real>, freqs: seq<real>, nm: Numerics): (r: Result<FrequencyDomainFeatures>)
    requires |freqs| == |mags| && forall k :: 0 <= k < |mags| ==> mags[k] >= 0.0
    ensures r.Err? <==> |mags| == 0
    ensures r.Err? ==> r.error == EmptyIndex
  {
    var centroid := SpectralCentroid(freqs, mags);
    var bandwidth := SpectralBandwidth(freqs, mags, centroid, nm);
    RolloffExists(mags);
    match FirstAtLeast(CumSum(mags), 0.85 * Sum(mags))
    case Err(e) => Err(e)
    case Ok(i) =>
      var dominant := ArgMax(mags).value;
      Ok(FrequencyDomainFeatures(centroid, bandwidth, freqs[i], SpectralFlux(mags), freqs[dominant]))
  }

  /** The function with line 58 corrected: a signal of one sample has an empty
      half spectrum and fails at the rolloff. */
  function CorrectedFrequencyDomainFeatures(data: seq<real>, fs: real, magnitude: seq<real>, nm: Numerics)
    : (r: Result<FrequencyDomainFeatures>)
    requires |magnitude| == |data|
    requires forall k :: 0 <= k < |magnitude| ==> magnitude[k] >= 0.0
    ensures r.Err? <==> |data| <= 1 || fs == 0.0
    ensures r.Err? ==> r.error == if |data| == 0 then EmptyFft else if fs == 0.0 then ZeroDivision else EmptyIndex
  {
    if |data| == 0 then Err(EmptyFft)
    else if fs == 0.0 then Err(ZeroDivision)
    else
      var (mags, freqs) := HalfSpectrum(magnitude, fs);
      SpectralFeatures(mags, freqs, nm)
  }

  /** For non-negative magnitudes some cumulative sum reaches 85 % of the total
      (the last one is the total), so the rolloff index exists unless the half
      spectrum is empty. */
  lemma {:induction false} RolloffExists(mags: seq<real>)
    requires forall k :: 0 <= k < |mags| ==> mags[k] >= 0.0
    ensures FirstAtLeast(CumSum(mags), 0.85 * Sum(mags)).Ok? <==> |mags| > 0
  {
    if |mags| > 0 {
      SumNonNegative(mags);
      assert mags[..|mags|] == mags;
      assert CumSum(mags)[|mags| - 1] == Sum(mags);
    }
  }

  /** The rolloff frequency is the first bin whose cumulative magnitude reaches
      85 % of the total, and the dominant frequency is the first bin of largest
      magnitude. */
  lemma {:induction false} RolloffAndDominant(data: seq<real>, fs: real, magnitude: seq<real>, nm: Numerics)
    requires |magnitude| == |data| && forall k :: 0 <= k < |magnitude| ==> magnitude[k] >= 0.0
    requires |data| >= 2 && fs != 0.0
    ensures var f := CorrectedFrequencyDomainFeatures(data, fs, magnitude, nm).value;
      var (mags, freqs) := HalfSpectrum(magnitude, fs);
      var total := Sum(mags);
      var cs := CumSum(mags);
      (exists i :: 0 <= i < |mags| && f.spectralRolloff == freqs[i] && cs[i] >= 0.85 * total &&
        forall k :: 0 <= k < i ==> cs[k] < 0.85 * total) &&
      (exists i :: 0 <= i < |mags| && f.dominantFrequency == freqs[i] &&
        (forall k :: 0 <= k < |mags| ==> mags[k] <= mags[i]) && forall k :: 0 <= k < i ==> mags[k] < mags[i])
  {
    var (mags, freqs) := HalfSpectrum(magnitude, fs);
    RolloffExists(mags);
    var i := FirstAtLeast(CumSum(mags), 0.85 * Sum(mags)).value;
    var j := ArgMax(mags).value;
    var f := CorrectedFrequencyDomainFeatures(data, fs, magnitude, nm).value;
    assert f.spectralRolloff == freqs[i] && f.dominantFrequency == freqs[j];
  }

  /** The kept frequencies are 0, fs / len, 2 fs / len, ...: all below the Nyquist
      frequency fs / 2 and, for fs > 0, non-negative and increasing. */
  lemma {:induction false} HalfSpectrumFrequencies(magnitude: seq<real>, fs: real)
    requires |magnitude| > 0 && fs > 0.0
    ensures var freqs := HalfSpectrum(magnitude, fs).1;
      (forall k :: 0 <= k < |freqs| ==> 0.0 <= freqs[k] < fs / 2.0) &&
      forall i, j :: 0 <= i < j < |freqs| ==> freqs[i] < freqs[j]
  {
    var freqs := HalfSpectrum(magnitude, fs).1;
    var n := |magnitude| as real;
    forall k | 0 <= k < |freqs|
      ensures 0.0 <= freqs[k] < fs / 2.0
    {
      BinBelowNyquist(k, |magnitude|, fs);
    }
    forall i, j | 0 <= i < j < |freqs|
      ensures freqs[i] < freqs[j]
    {
      BinIncreasing(i, j, |magnitude|, fs);
    }
  }

  lemma BinBelowNyquist(k: nat, len: nat, fs: real)
    requires len > 0 && k < len / 2 && fs > 0.0
    ensures 0.0 <= (k as real) * fs / (len as real) < fs / 2.0
  {
    var n := len as real;
    var h := n / 2.0;
    assert (k as real) < h;
    ProductMonotone(h, k as real, fs);
    assert h * fs == n * (fs / 2.0);
    StrictQuotient((k as real) * fs, n, fs / 2.0);
    if k > 0 {
      ProductPositive(k as real, fs);
      QuotientSign((k as real) * fs, n);
    }
  }

  lemma StrictQuotient(a: real, n: real, h: real)
    requires n > 0.0 && a < n * h
    ensures a / n < h
  {
    var q := a / n;
    assert q * n == a;
    if q >= h {
      ProductMonotone(h, q, n);
    }
  }

  lemma BinIncreasing(i: nat, j: nat, len: nat, fs: real)
    requires len > 0 && i < j && fs > 0.0
    ensures (i as real) * fs / (len as real) < (j as real) * fs / (len as real)
  {
    var n := len as real;
    ProductMonotone(i as real, j as real, fs);
    var a, b := (i as real) * fs, (j as real) * fs;
    assert a < b;
    ProductMonotone(a / n, b / n, n);
  }

  /** The flux is non-negative, and 0 exactly when the kept magnitudes are all
      equal. */
  lemma {:induction false} FluxBounds(mags: seq<real>)
    ensures SpectralFlux(mags) >= 0.0
    ensures SpectralFlux(mags) == 0.0 <==> Constant(mags)
  {
    var q := Squares(Diff(mags));
    forall k | 0 <= k < |q|
      ensures q[k] >= 0.0 && (q[k] == 0.0 <==> mags[k + 1] == mags[k])
    {
      SquareFacts(mags[k + 1] - mags[k]);
    }
    SumNonNegative(q);
    if Constant(mags) {
      assert forall k :: 0 <= k < |q| ==> q[k] == 0.0;
    }
    if SpectralFlux(mags) == 0.0 {
      ConstantFromNeighbours(mags, if |mags| == 0 then 0 else |mags| - 1);
    }
  }

  lemma {:induction false} ConstantFromNeighbours(s: seq<real>, k: nat)
    requires k < |s| || k == 0
    requires forall i :: 0 <= i < |s| - 1 ==> s[i + 1] == s[i]
    ensures forall i :: 0 <= i <= k && i < |s| ==> s[i] == s[0]
    ensures k == |s| - 1 ==> Constant(s)
  {
    if k > 0 {
      ConstantFromNeighbours(s, k - 1);
      assert s[k] == s[k - 1];
    }
  }

  /** With a positive total magnitude the centroid is a number between the lowest
      and the highest kept frequency; with a zero total it is NaN. */
  lemma {:induction false} CentroidWithin(freqs: seq<real>, mags: seq<real>, lo: real, hi: real)
    requires |freqs| == |mags| && forall k :: 0 <= k < |mags| ==> mags[k] >= 0.0
    requires forall k :: 0 <= k < |freqs| ==> lo <= freqs[k] <= hi
    ensures Sum(mags) > 0.0 ==>
      SpectralCentroid(freqs, mags).Num? && lo <= SpectralCentroid(freqs, mags).value <= hi
    ensures Sum(mags) == 0.0 ==> SpectralCentroid(freqs, mags).NaN?
  {
    SumNonNegative(mags);
    WeightedSumBounds(freqs, mags, lo, hi);
    if Sum(mags) > 0.0 {
      QuotientBounds(Sum(Products(freqs, mags)), Sum(mags), lo, hi);
    } else if Sum(mags) == 0.0 {
      assert Sum(Products(freqs, mags)) == 0.0 by {
        assert lo * Sum(mags) == 0.0 && hi * Sum(mags) == 0.0;
      }
    }
  }

  /** lo * sum(m) <= sum(f * m) <= hi * sum(m) for non-negative weights m. */
  lemma {:induction false} WeightedSumBounds(f: seq<real>, m: seq<real>, lo: real, hi: real)
    requires |f| == |m| && forall k :: 0 <= k < |m| ==> m[k] >= 0.0
    requires forall k :: 0 <= k < |f| ==> lo <= f[k] <= hi
    ensures Sum(m) * lo <= Sum(Products(f, m)) <= Sum(m) * hi
  {
    var p := Products(f, m);
    forall k | 0 <= k < |m|
      ensures ScaleBy(m, lo)[k] <= p[k] <= ScaleBy(m, hi)[k]
    {
      WeightedTerm(f[k], m[k], lo, hi);
    }
    SumMonotone(ScaleBy(m, lo), p);
    SumMonotone(p, ScaleBy(m, hi));
    SumScaleBy(m, lo);
    SumScaleBy(m, hi);
  }

  /** m * c, elementwise. */
  function ScaleBy(m: seq<real>, c: real): (r: seq<real>)
    ensures |r| == |m|
  {
    seq(|m|, k requires 0 <= k < |m| => m[k] * c)
  }

  lemma {:induction false} SumScaleBy(m: seq<real>, c: real)
    ensures Sum(ScaleBy(m, c)) == Sum(m) * c
    decreases |m|
  {
    if |m| > 0 {
      var n := |m| - 1;
      assert forall k :: 0 <= k < n ==> ScaleBy(m, c)[..n][k] == ScaleBy(m[..n], c)[k];
      assert ScaleBy(m, c)[..n] == ScaleBy(m[..n], c);
      SumScaleBy(m[..n], c);
      assert Sum(m[..n]) * c + m[n] * c == (Sum(m[..n]) + m[n]) * c;
    }
  }

  /** Termwise smaller sequences have a smaller sum. */
  lemma {:induction false} SumMonotone(a: seq<real>, b: seq<real>)
    requires |a| == |b| && forall k :: 0 <= k < |a| ==> a[k] <= b[k]
    ensures Sum(a) <= Sum(b)
    decreases |a|
  {
    if |a| > 0 {
      var n := |a| - 1;
      assert forall k :: 0 <= k < n ==> a[..n][k] == a[k] && b[..n][k] == b[k];
      SumMonotone(a[..n], b[..n]);
    }
  }

  lemma WeightedTerm(x: real, w: real, lo: real, hi: real)
    requires w >= 0.0 && lo <= x <= hi
    ensures w * lo <= x * w <= w * hi
  {
    if w > 0.0 {
      ProductMonotone(lo, x, w);
      ProductMonotone(x, hi, w);
    }
  }

  /** The centroid of the corrected function lies between 0 and the Nyquist
      frequency when the kept magnitudes do not all vanish. */
  lemma {:induction false} CorrectedCentroidRange(data: seq<real>, fs: real, magnitude: seq<real>, nm: Numerics)
    requires |magnitude| == |data| && forall k :: 0 <= k < |magnitude| ==> magnitude[k] >= 0.0
    requires |data| >= 2 && fs > 0.0
    requires Sum(HalfSpectrum(magnitude, fs).0) > 0.0
    ensures var c := CorrectedFrequencyDomainFeatures(data, fs, magnitude, nm).value.spectralCentroid;
      c.Num? && 0.0 <= c.value <= fs / 2.0
  {
    var (mags, freqs) := HalfSpectrum(magnitude, fs);
    HalfSpectrumFrequencies(magnitude, fs);
    CentroidWithin(freqs, mags, 0.0, fs / 2.0);
    RolloffExists(mags);
  }

  /** The finding at line 58: on a two-sample signal at 1 Hz the function as
      written raises, where the corrected one returns the five features. */
  lemma UnboundFeaturesExample(magnitude: seq<real>, nm: Numerics)
    requires |magnitude| == 2 && magnitude[0] >= 0.0 && magnitude[1] >= 0.0
    ensures ExtractFrequencyDomainFeatures([1.0, 2.0], 1.0, magnitude) == Err(UnboundFeatures)
    ensures CorrectedFrequencyDomainFeatures([1.0, 2.0], 1.0, magnitude, nm).Ok?
  {
  }
}
