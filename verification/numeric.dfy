/** Outcomes of the Python code that are not plain real numbers: the exceptions it
    raises, and the IEEE special values (NaN, infinities) that some of its numpy
    expressions produce on degenerate input and that later comparisons depend on. */
module Numeric {

  /** The exceptions raised by the modelled code, one constructor per raise site kind. */
  datatype Error =
    | InvalidMethod           // ValueError: unknown normalisation method
    | EmptyReduction          // ValueError: np.min / np.max of a zero-size array
    | BandpassNeedsTwo        // ValueError: bandpass without exactly two cutoffs
    | InvalidFilterType       // ValueError: filter type not bandpass/lowpass/highpass
    | MissingCutoff           // IndexError: frequencias[0] of an empty tuple
    | ZeroDivision            // ZeroDivisionError: cutoff / nyquist with fs == 0
    | FilterRejected          // ValueError: signal.butter refuses the order or the cutoffs
    | SignalTooShort          // ValueError: filtfilt on a channel no longer than padlen
    | InvalidWindow           // ValueError: unknown window name
    | EmptyFft                // ValueError: np.fft.fft of an empty array
    | EmptyIndex              // IndexError: np.where(...)[0][0] on no match
    | EmptyArgmax             // ValueError: np.argmax of an empty array
    | UnboundFeatures         // UnboundLocalError: `features` read inside its own literal

  datatype Result<T> = Ok(value: T) | Err(error: Error)

  /** A float as the source computes it, restricted to the values that can occur. */
  datatype Float = Num(value: real) | NaN | PosInf | NegInf

  /** IEEE division of two finite operands. */
  function Divide(a: real, b: real): (r: Float)
    ensures b != 0.0 ==> r == Num(a / b)
    ensures b == 0.0 ==> (r.NaN? <==> a == 0.0)
    ensures b == 0.0 && a > 0.0 ==> r.PosInf?
    ensures b == 0.0 && a < 0.0 ==> r.NegInf?
  {
    if b != 0.0 then Num(a / b)
    else if a == 0.0 then NaN
    else if a > 0.0 then PosInf
    else NegInf
  }

  /** `x >= t` on a float: false for NaN and -inf, true for +inf. */
  predicate AtLeast(x: Float, t: real)
  {
    match x
    case Num(v) => v >= t
    case PosInf => true
    case _ => false
  }

  /** The floating-point library calls the source makes and the model does not
      compute: np.sqrt, np.log10, scipy.stats.skew and scipy.stats.kurtosis. */
  datatype Numerics = Numerics(
    sqrt: real -> real,
    log10: real -> real,
    skew: seq<real> -> Float,
    kurtosis: seq<real> -> Float)

  /** The one thing the model needs of np.sqrt: a non-negative square root. */
  ghost predicate Sound(nm: Numerics)
  {
    forall v: real {:trigger nm.sqrt(v)} :: 0.0 <= v ==> 0.0 <= nm.sqrt(v) && Square(nm.sqrt(v)) == v
  }

  /** np.sqrt on a float. */
  function FloatSqrt(nm: Numerics, x: Float): (r: Float)
    requires Sound(nm)
    ensures x.Num? && x.value >= 0.0 ==> r.Num? && r.value >= 0.0 && Square(r.value) == x.value
    ensures x.NaN? ==> r.NaN?
  {
    match x
    case Num(v) => if v >= 0.0 then Num(nm.sqrt(v)) else NaN
    case PosInf => PosInf
    case _ => NaN
  }

  lemma SqrtZeroIff(nm: Numerics, v: real)
    requires Sound(nm) && 0.0 <= v
    ensures nm.sqrt(v) == 0.0 <==> v == 0.0
  {
    SquareFacts(nm.sqrt(v));
  }

  // ---------------------------------------------------------------------------
  // Arithmetic steps the solver does not take on its own.

  lemma QuotientBounds(a: real, n: real, lo: real, hi: real)
    requires n > 0.0 && n * lo <= a <= n * hi
    ensures lo <= a / n <= hi
  {
    var q := a / n;
    assert q * n == a;
    ProductMonotone(lo, q, n);
    ProductMonotone(q, hi, n);
  }

  lemma ProductMonotone(x: real, y: real, n: real)
    requires n > 0.0
    ensures x <= y <==> x * n <= y * n
  {
    if x < y {
      ProductPositive(y - x, n);
    } else if y < x {
      ProductPositive(x - y, n);
    }
  }

  lemma ProductPositive(a: real, b: real)
    requires a > 0.0 && b > 0.0
    ensures a * b > 0.0
  {
  }

  /** x * x. The second factor goes through `Same` so that the solver reasons
      about a product of two terms instead of rewriting a square of one. */
  function Square(x: real): real
  {
    x * Same(x)
  }

  function Same(x: real): real
  {
    x
  }

  lemma SquareMonotone(a: real, b: real)
    requires 0.0 <= b < a
    ensures Square(b) < Square(a)
  {
    ProductPositive(a - b, a + b);
    assert Square(a) - Square(b) == (a - b) * (a + b);
  }

  lemma SquareOfProduct(x: real, y: real)
    ensures Square(x * y) == Square(x) * Square(y)
  {
  }

  lemma SquareOfNegation(x: real)
    ensures Square(-x) == Square(x)
  {
  }

  lemma SquareFacts(x: real)
    ensures Square(x) >= 0.0
    ensures x != 0.0 ==> Square(x) > 0.0
    ensures Square(x) == 0.0 ==> x == 0.0
  {
  }
}
