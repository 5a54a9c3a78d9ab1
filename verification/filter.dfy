/** `aplicar_filtro` and `remover_baseline_drift`: validate the filter request,
    normalise the cutoffs by the Nyquist frequency, then filter every channel on
    its own with a zero-phase Butterworth filter. */
module Filtering {
  import opened Numeric
  import opened Signals

  datatype FilterType = Bandpass | Lowpass | Highpass

  /** What is handed to signal.butter: the order, the cutoffs as fractions of the
      Nyquist frequency and the band type; `warned` records whether the
      "cutoff near or above Nyquist" warning was issued. */
  datatype Design = Design(order: int, wn: seq<real>, btype: FilterType, warned: bool)

  function ParseFilterType(tipo: string): (r: Result<FilterType>)
    ensures r.Err? ==> r.error == InvalidFilterType
  {
    if tipo == "bandpass" then Ok(Bandpass)
    else if tipo == "lowpass" then Ok(Lowpass)
    else if tipo == "highpass" then Ok(Highpass)
    else Err(InvalidFilterType)
  }

  /** f / nyquist for every cutoff, in Python float arithmetic: division by a zero
      Nyquist frequency raises ZeroDivisionError. */
  function Normalize(frequencias: seq<real>, nyquist: real): (r: Result<seq<real>>)
    ensures r.Err? <==> nyquist == 0.0
    ensures r.Err? ==> r.error == ZeroDivision
    ensures r.Ok? ==> |r.value| == |frequencias|
    ensures r.Ok? ==> forall i :: 0 <= i < |frequencias| ==> r.value[i] * nyquist == frequencias[i]
  {
    if nyquist == 0.0 then Err(ZeroDivision)
    else Ok(seq(|frequencias|, i requires 0 <= i < |frequencias| => frequencias[i] / nyquist))
  }

  /** `np.any(np.array(freq_normalizada) >= 1.0)` */
  predicate AnyAtLeastOne(wn: seq<real>)
  {
    exists i :: 0 <= i < |wn| && wn[i] >= 1.0
  }

  /** The validation part of aplicar_filtro, in the order the code checks:
      a bandpass needs exactly two cutoffs; lowpass and highpass read only the
      first (and fail on an empty tuple); any other type raises; then the
      division by the Nyquist frequency 0.5 fs. A cutoff at or above Nyquist
      only sets the warning. */
  function FilterDesign(tipo: string, fs: int, frequencias: seq<real>, ordem: int): (r: Result<Design>)
    ensures tipo == "bandpass" && |frequencias| != 2 ==> r == Err(BandpassNeedsTwo)
    ensures (tipo == "lowpass" || tipo == "highpass") && |frequencias| == 0 ==> r == Err(MissingCutoff)
    ensures ParseFilterType(tipo).Err? ==> r == Err(InvalidFilterType)
    ensures r.Ok? <==>
      ParseFilterType(tipo).Ok? && fs != 0 && |frequencias| >= 1 && (tipo == "bandpass" ==> |frequencias| == 2)
    ensures r.Ok? ==> r.value.order == ordem && r.value.btype == ParseFilterType(tipo).value
    ensures r.Ok? ==> |r.value.wn| == if tipo == "bandpass" then 2 else 1
    ensures r.Ok? ==> forall i :: 0 <= i < |r.value.wn| ==> r.value.wn[i] * (0.5 * fs as real) == frequencias[i]
    ensures r.Ok? ==> (r.value.warned <==> AnyAtLeastOne(r.value.wn))
  {
    var nyquist := 0.5 * fs as real;
    match ParseFilterType(tipo)
    case Err(e) => Err(e)
    case Ok(btype) =>
      if btype == Bandpass && |frequencias| != 2 then Err(BandpassNeedsTwo)
      else if btype != Bandpass && |frequencias| == 0 then Err(MissingCutoff)
      else
        var cutoffs := if btype == Bandpass then frequencias else frequencias[..1];
        match Normalize(cutoffs, nyquist)
        case Err(e) => Err(e)
        case Ok(wn) => Ok(Design(ordem, wn, btype, AnyAtLeastOne(wn)))
  }

  /** Lines 34-47 accept or refuse a request by the number of cutoffs alone: two
      requests with the same number of cutoffs both pass or both fail there, and a
      cutoff at or above Nyquist only warns. The values are judged later, by
      signal.butter (see `ButterAccepts`). */
  lemma CutoffValuesNeverRaise(tipo: string, fs: int, f: seq<real>, g: seq<real>, ordem: int)
    requires |f| == |g|
    ensures FilterDesign(tipo, fs, f, ordem).Ok? == FilterDesign(tipo, fs, g, ordem).Ok?
  {
  }

  /** With a positive sampling rate the warning is issued exactly when some used
      cutoff is at or above the Nyquist frequency fs / 2. */
  lemma {:induction false} WarnsIffAboveNyquist(tipo: string, fs: int, frequencias: seq<real>, ordem: int)
    requires fs > 0 && FilterDesign(tipo, fs, frequencias, ordem).Ok?
    ensures var d := FilterDesign(tipo, fs, frequencias, ordem).value;
      d.warned <==> exists i :: 0 <= i < |d.wn| && frequencias[i] >= 0.5 * fs as real
  {
    var d := FilterDesign(tipo, fs, frequencias, ordem).value;
    var nyquist := 0.5 * fs as real;
    forall i | 0 <= i < |d.wn|
      ensures d.wn[i] >= 1.0 <==> frequencias[i] >= nyquist
    {
      assert d.wn[i] * nyquist == frequencias[i];
      ProductMonotone(1.0, d.wn[i], nyquist);
    }
  }

  /** The checks signal.butter makes before computing anything: the order is
      non-negative, every normalised cutoff lies strictly between 0 and 1, and of
      two cutoffs the first is the lower. */
  predicate ButterAccepts(d: Design)
  {
    d.order >= 0 &&
    (forall i :: 0 <= i < |d.wn| ==> 0.0 < d.wn[i] < 1.0) &&
    (|d.wn| >= 2 ==> d.wn[0] < d.wn[1])
  }

  /** filtfilt's default padlen, 3 * max(len(a), len(b)): a Butterworth design of
      order N has N + 1 coefficients, a bandpass 2N + 1. */
  function PadLen(d: Design): (p: nat)
    requires d.order >= 0
    ensures p >= 3 * (d.order + 1)
    ensures d.btype == Bandpass ==> p >= 3 * (2 * d.order + 1)
  {
    3 * (if d.btype == Bandpass then 2 * d.order + 1 else d.order + 1)
  }

  /** What aplicar_filtro does with a request on a signal of `rows` samples and
      `cols` channels before any value is filtered: the validation of lines 34-47,
      then signal.butter's checks, then filtfilt's length check, which the first
      channel reaches (without channels filtfilt is never called). */
  function FilterPlan(tipo: string, fs: int, frequencias: seq<real>, ordem: int, rows: nat, cols: nat)
    : (r: Result<Design>)
    ensures var d := FilterDesign(tipo, fs, frequencias, ordem);
      r.Ok? <==> d.Ok? && ButterAccepts(d.value) && (cols == 0 || rows > PadLen(d.value))
    ensures var d := FilterDesign(tipo, fs, frequencias, ordem);
      r.Ok? ==> r.value == d.value
    ensures var d := FilterDesign(tipo, fs, frequencias, ordem);
      r.Err? ==> r.error == if d.Err? then d.error else if !ButterAccepts(d.value) then FilterRejected else SignalTooShort
  {
    match FilterDesign(tipo, fs, frequencias, ordem)
    case Err(e) => Err(e)
    case Ok(d) =>
      if !ButterAccepts(d) then Err(FilterRejected)
      else if cols > 0 && rows <= PadLen(d) then Err(SignalTooShort)
      else Ok(d)
  }

  /** The Nyquist warning never comes alone: a cutoff at or above 1 is refused by
      signal.butter right after it, whatever the signal. */
  lemma WarningThenRejected(tipo: string, fs: int, frequencias: seq<real>, ordem: int, rows: nat, cols: nat)
    requires FilterDesign(tipo, fs, frequencias, ordem).Ok?
    requires FilterDesign(tipo, fs, frequencias, ordem).value.warned
    ensures FilterPlan(tipo, fs, frequencias, ordem, rows, cols) == Err(FilterRejected)
  {
    var d := FilterDesign(tipo, fs, frequencias, ordem).value;
    var i :| 0 <= i < |d.wn| && d.wn[i] >= 1.0;
  }

  /** The default request of aplicar_filtro, a 4th-order 0.5-45 Hz bandpass,
      passes exactly when fs exceeds 90 Hz and every channel has more than
      27 samples. */
  lemma {:induction false} DefaultBandpassAccepted(fs: int, rows: nat, cols: nat)
    requires fs > 0
    ensures FilterPlan("bandpass", fs, [0.5, 45.0], 4, rows, cols).Ok? <==> fs > 90 && (cols == 0 || rows > 27)
  {
    var nyquist := 0.5 * fs as real;
    var d := FilterDesign("bandpass", fs, [0.5, 45.0], 4).value;
    assert d.wn[0] * nyquist == 0.5 && d.wn[1] * nyquist == 45.0;
    ProductMonotone(0.0, d.wn[0], nyquist);
    ProductMonotone(d.wn[0], d.wn[1], nyquist);
    ProductMonotone(d.wn[1], 1.0, nyquist);
    assert PadLen(d) == 27;
  }

  /** remover_baseline_drift at a positive sampling rate passes exactly when the
      cutoff lies strictly between 0 and fs / 2 and every channel has more than
      15 samples (the padlen of a 4th-order highpass). */
  lemma {:induction false} BaselineDriftAccepted(fs: int, freqCorte: real, rows: nat, cols: nat)
    requires fs > 0
    ensures FilterPlan("highpass", fs, [freqCorte], 4, rows, cols).Ok? <==>
      0.0 < freqCorte < 0.5 * fs as real && (cols == 0 || rows > 15)
  {
    var nyquist := 0.5 * fs as real;
    var d := FilterDesign("highpass", fs, [freqCorte], 4).value;
    assert [freqCorte][..1] == [freqCorte];
    assert d.wn[0] * nyquist == freqCorte;
    ProductMonotone(0.0, d.wn[0], nyquist);
    ProductMonotone(d.wn[0], 1.0, nyquist);
    assert PadLen(d) == 15;
  }

  /** aplicar_filtro(sinal, fs, tipo, frequencias, ordem). `filtfilt(design, x)`
      stands for the values signal.filtfilt computes with the coefficients
      signal.butter gives for the design; it returns as many samples as it is
      given. The request fails exactly as `FilterPlan` says, and otherwise column
      j of the new array is the filtered input column j. */
  method AplicarFiltro(sinal: Signal, fs: int, tipo: string, frequencias: seq<real>, ordem: int,
                       filtfilt: (Design, seq<real>) -> seq<real>)
    returns (res: Result<array2<real>>)
    requires sinal.WellFormed()
    requires forall d: Design, x: seq<real> :: |filtfilt(d, x)| == |x|
    ensures var plan := FilterPlan(tipo, fs, frequencias, ordem, sinal.Rows(), sinal.Cols());
      res.Err? <==> plan.Err?
    ensures res.Err? ==> res.error == FilterPlan(tipo, fs, frequencias, ordem, sinal.Rows(), sinal.Cols()).error
    ensures res.Ok? ==> fresh(res.value)
    ensures res.Ok? ==> res.value.Length0 == sinal.Rows() && res.value.Length1 == sinal.Cols()
    ensures res.Ok? ==>
      var design := FilterDesign(tipo, fs, frequencias, ordem).value;
      forall k, j :: 0 <= k < sinal.Rows() && 0 <= j < sinal.Cols() ==>
        res.value[k, j] == filtfilt(design, sinal.Column(j))[k]
  {
    var x := sinal.Reshaped();
    var n, m := x.Rows(), x.Cols();
    var design := FilterDesign(tipo, fs, frequencias, ordem);
    if design.Err? {
      return Err(design.error);
    }
    if !ButterAccepts(design.value) {
      return Err(FilterRejected);
    }
    var filtrado := new real[n, m]((_, _) => 0.0);
    for i := 0 to m
      invariant forall k, j :: 0 <= k < n && 0 <= j < i ==>
        filtrado[k, j] == filtfilt(design.value, x.Column(j))[k]
      invariant i > 0 ==> n > PadLen(design.value)
    {
      if n <= PadLen(design.value) {
        return Err(SignalTooShort);
      }
      WriteColumn(filtrado, i, filtfilt(design.value, x.Column(i)));
    }
    return Ok(filtrado);
  }

  /** remover_baseline_drift(sinal, fs, freq_corte): aplicar_filtro with a
      4th-order highpass at freq_corte. It fails for fs == 0, for a normalised
      cutoff outside (0, 1) and for channels of at most 15 samples; otherwise
      column j of the new array is input column j filtered with cutoff
      freq_corte / (fs / 2). */
  method RemoverBaselineDrift(sinal: Signal, fs: int, freqCorte: real,
                              filtfilt: (Design, seq<real>) -> seq<real>)
    returns (res: Result<array2<real>>)
    requires sinal.WellFormed()
    requires forall d: Design, x: seq<real> :: |filtfilt(d, x)| == |x|
    ensures res.Ok? <==>
      fs != 0 && 0.0 < freqCorte / (0.5 * fs as real) < 1.0 && (sinal.Cols() == 0 || sinal.Rows() > 15)
    ensures res.Err? ==>
      res.error == if fs == 0 then ZeroDivision
        else if !(0.0 < freqCorte / (0.5 * fs as real) < 1.0) then FilterRejected
        else SignalTooShort
    ensures res.Ok? ==> fresh(res.value)
    ensures res.Ok? ==> res.value.Length0 == sinal.Rows() && res.value.Length1 == sinal.Cols()
    ensures res.Ok? ==>
      var design := Design(4, [freqCorte / (0.5 * fs as real)], Highpass, false);
      forall k, j :: 0 <= k < sinal.Rows() && 0 <= j < sinal.Cols() ==>
        res.value[k, j] == filtfilt(design, sinal.Column(j))[k]
  {
    var nyquist := 0.5 * fs as real;
    var d := FilterDesign("highpass", fs, [freqCorte], 4);
    assert [freqCorte][..1] == [freqCorte];
    if d.Ok? {
      var w := freqCorte / nyquist;
      assert d.value.wn == [w];
      assert AnyAtLeastOne([w]) <==> w >= 1.0 by {
        assert [w][0] == w;
      }
      assert ButterAccepts(d.value) <==> 0.0 < w < 1.0 by {
        assert [w][0] == w;
      }
    }
    res := AplicarFiltro(sinal, fs, "highpass", [freqCorte], 4, filtfilt);
  }
}
