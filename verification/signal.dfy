/** The array every preprocessing function receives: samples x channels, or a
    one-dimensional array that the function first reshapes to n x 1
    (`sinal.reshape(-1, 1)`), and the column assignment `out[:, i] = v` with which
    each of them fills its result. */
module Signals {

  /** A numpy signal array: one-dimensional, or two-dimensional with `rows`
      samples of `width` channels each. */
  datatype Signal = OneD(samples: seq<real>) | TwoD(rows: seq<seq<real>>, width: nat)
  {
    /** numpy arrays are rectangular. */
    predicate WellFormed()
    {
      TwoD? ==> forall k :: 0 <= k < |rows| ==> |rows[k]| == width
    }

    /** sinal.shape[0] after reshaping. */
    function Rows(): nat
    {
      if OneD? then |samples| else |rows|
    }

    /** sinal.shape[1] after reshaping. */
    function Cols(): nat
    {
      if OneD? then 1 else width
    }

    /** sinal[k, j] after reshaping. */
    function At(k: nat, j: nat): real
      requires WellFormed() && k < Rows() && j < Cols()
    {
      if OneD? then samples[k] else rows[k][j]
    }

    /** sinal[:, j] after reshaping. */
    function Column(j: nat): (c: seq<real>)
      requires WellFormed() && j < Cols()
      ensures |c| == Rows()
      ensures forall k :: 0 <= k < |c| ==> c[k] == At(k, j)
    {
      seq(Rows(), k requires 0 <= k < Rows() => At(k, j))
    }

    /** `if len(sinal.shape) == 1: sinal = sinal.reshape(-1, 1)`: a one-dimensional
        array becomes a single column; a two-dimensional one is kept. */
    function Reshaped(): (t: Signal)
      requires WellFormed()
      ensures t.TwoD? && t.WellFormed()
      ensures t.Rows() == Rows() && t.Cols() == Cols()
      ensures forall k, j :: 0 <= k < Rows() && 0 <= j < Cols() ==> t.At(k, j) == At(k, j)
      ensures forall j :: 0 <= j < Cols() ==> t.Column(j) == Column(j)
    {
      if OneD? then TwoD(seq(|samples|, k requires 0 <= k < |samples| => [samples[k]]), 1)
      else this
    }
  }

  /** `a[:, j] = v`: overwrite column j, leave every other cell as it was. */
  method WriteColumn<T>(a: array2<T>, j: nat, v: seq<T>)
    requires j < a.Length1 && |v| == a.Length0
    modifies a
    ensures forall k, i :: 0 <= k < a.Length0 && 0 <= i < a.Length1 ==>
      a[k, i] == if i == j then v[k] else old(a[k, i])
  {
    for k := 0 to a.Length0
      invariant forall k', i :: 0 <= k' < a.Length0 && 0 <= i < a.Length1 ==>
        a[k', i] == if i == j && k' < k then v[k'] else old(a[k', i])
    {
      a[k, j] := v[k];
    }
  }
}
