/** `aplicar_janelamento`: multiply every channel, sample by sample, by one
    window of the signal's length. */
module Windowing {
  import opened Numeric
  import opened Signals

  /** The four windows scipy.signal.windows is asked for; Kaiser carries its beta. */
  datatype WindowKind = Hann | Hamming | Blackman | Kaiser(beta: real)

  /** The window name chain of `aplicar_janelamento`: 'kaiser' always uses beta 8.6,
      and any other name raises ValueError. */
  function ParseWindowKind(tipo: string): (r: Result<WindowKind>)
    ensures r.Err? ==> r.error == InvalidWindow
    ensures r.Ok? && r.value.Kaiser? ==> r.value.beta == 8.6
  {
    if tipo == "hann" then Ok(Hann)
    else if tipo == "hamming" then Ok(Hamming)
    else if tipo == "blackman" then Ok(Blackman)
    else if tipo == "kaiser" then Ok(Kaiser(8.6))
    else Err(InvalidWindow)
  }

  /** The name each kind is requested by. */
  function WindowName(w: WindowKind): string
  {
    match w
    case Hann => "hann"
    case Hamming => "hamming"
    case Blackman => "blackman"
    case Kaiser(_) => "kaiser"
  }

  /** Exactly the four names are accepted, and each selects its own window. */
  lemma ParseWindowKindAccepts(tipo: string)
    ensures ParseWindowKind(tipo).Ok? <==> tipo in {"hann", "hamming", "blackman", "kaiser"}
    ensures ParseWindowKind(tipo).Ok? ==> WindowName(ParseWindowKind(tipo).value) == tipo
  {
  }

  /** c * w, elementwise: the channel as the window weights it. */
  function Weighted(c: seq<real>, w: seq<real>): (r: seq<real>)
    requires |w| == |c|
    ensures |r| == |c|
  {
    seq(|c|, k requires 0 <= k < |c| => c[k] * w[k])
  }

  /** aplicar_janelamento(sinal, tipo_janela). The window coefficients come from
      `windowOf(kind, n)` (scipy.signal.windows, which returns n of them). The name
      is checked before the channel loop, so an unknown name raises even for a
      signal with no channels; otherwise sample k of every channel is multiplied by
      coefficient k of the same window. */
  method AplicarJanelamento(sinal: Signal, tipoJanela: string, windowOf: (WindowKind, nat) -> seq<real>)
    returns (res: Result<array2<real>>)
    requires sinal.WellFormed()
    requires forall w: WindowKind :: |windowOf(w, sinal.Rows())| == sinal.Rows()
    ensures res.Err? <==> ParseWindowKind(tipoJanela).Err?
    ensures res.Err? ==> res.error == InvalidWindow
    ensures res.Ok? ==> fresh(res.value)
    ensures res.Ok? ==> res.value.Length0 == sinal.Rows() && res.value.Length1 == sinal.Cols()
    ensures res.Ok? ==>
      var janela := windowOf(ParseWindowKind(tipoJanela).value, sinal.Rows());
      forall k, j :: 0 <= k < sinal.Rows() && 0 <= j < sinal.Cols() ==>
        res.value[k, j] == sinal.At(k, j) * janela[k]
  {
    var x := sinal.Reshaped();
    var nSamples, m := x.Rows(), x.Cols();
    var kind := ParseWindowKind(tipoJanela);
    if kind.Err? {
      return Err(InvalidWindow);
    }
    var janela := windowOf(kind.value, nSamples);
    var janelado := new real[nSamples, m]((k, j) requires 0 <= k < nSamples && 0 <= j < m => x.At(k, j));
    for i := 0 to m
      invariant forall k, j :: 0 <= k < nSamples && 0 <= j < m ==>
        janelado[k, j] == if j < i then x.At(k, j) * janela[k] else x.At(k, j)
    {
      WriteColumn(janelado, i, Weighted(x.Column(i), janela));
    }
    return Ok(janelado);
  }
}
