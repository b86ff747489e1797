/**
 * The floating-point library calls the core leans on, passed in as values so
 * that the model never assumes more of them than the few exact facts listed
 * in `Laws` and `FormatLaws`.
 */
module Numerics {
  import opened Wrappers
  import opened Text

  /** What scipy's `curve_fit` reports for the Gaussian a·exp(-(x-b)²/(2c²)). */
  datatype FitOutcome =
    | Fitted(amplitude: real, center: real, stdDev: real)
    | FitFailed  // `RuntimeError` (no convergence) or `TypeError` (too few points)

  datatype MathLib = MathLib(
    log2: real -> real,
    log10: real -> real,
    pow2: real -> real,        // 2**x
    pow10: real -> real,       // 10**x
    sqrt: real -> real,
    pi: real,
    /** `curve_fit(gaussian_function, xs, ys, p0)` with p0 built from the
        initial amplitude and centre; the initial sigma 1/(sqrt(2π)·a0) is a
        function of the amplitude. */
    gaussFit: (seq<real>, seq<real>, real, real) -> FitOutcome,
    /** The dip detector's numeric front end: moving average over int(N/3)
        samples, subtraction, normalisation by the maximum and
        `find_peaks(height=0.3)`, applied to the sign-inverted gains. */
    detectPeaks: seq<real> -> seq<int>)

  /** Indices returned by `find_peaks`: in range and strictly increasing. */
  predicate PeakIndices(p: seq<int>, n: nat) {
    && (forall k :: 0 <= k < |p| ==> 0 <= p[k] < n)
    && (forall j, k :: 0 <= j < k < |p| ==> p[j] < p[k])
  }

  /** The exact facts of the library that the model uses. */
  ghost predicate Laws(m: MathLib) {
    && m.log2(1.0) == 0.0
    && m.pow2(0.0) == 1.0
    && m.sqrt(1.0) == 1.0
    && m.pi > 0.0
    && (forall x :: m.pow2(x) > 0.0)
    && (forall x :: m.pow10(x) > 0.0)
    && (forall x, y :: 0.0 < x <= y ==> m.log2(x) <= m.log2(y))
    && (forall s :: PeakIndices(m.detectPeaks(s), |s|))
  }

  type Math = m: MathLib | Laws(m)
    witness MathLib(x => 0.0, x => 0.0, x => 1.0, x => 1.0, x => 1.0, 3.0,
                    (xs, ys, a, b) => FitFailed, s => [])

  /** log2 does not decrease on the positive reals. */
  lemma Log2Monotone(m: Math, x: real, y: real)
    requires 0.0 < x <= y
    ensures m.log2(x) <= m.log2(y)
  {
    assert Laws(m);
  }

  lemma PeaksInRange(m: Math, s: seq<real>)
    ensures PeakIndices(m.detectPeaks(s), |s|)
  {
    assert Laws(m);
  }

  /** Python's number formatting and `float()` parsing. */
  datatype FormatLib = FormatLib(
    fixed2: real -> string,    // f"{x:.2f}"
    fixed3: real -> string,    // f"{x:.3f}"
    repr: real -> string,      // f"{x}"
    parse: string -> Option<real>)  // float(s), None when it raises ValueError

  ghost predicate FormatLaws(f: FormatLib) {
    && (forall x :: f.fixed2(x) != [] && NoSpace(f.fixed2(x)))
    && (forall x :: f.fixed3(x) != [] && NoSpace(f.fixed3(x)))
    && (forall x :: f.parse(f.fixed2(x)).Some?)
    && (forall x :: f.parse(f.fixed3(x)).Some?)
  }

  type Format = f: FormatLib | FormatLaws(f)
    witness FormatLib(x => "0", x => "0", x => "0", s => Some(0.0))

  lemma FixedWords(f: Format, x: real)
    ensures f.fixed2(x) != [] && NoSpace(f.fixed2(x))
    ensures f.fixed3(x) != [] && NoSpace(f.fixed3(x))
  {
    assert FormatLaws(f);
  }

  lemma FixedParses(f: Format, x: real)
    ensures f.parse(f.fixed2(x)).Some? && f.parse(f.fixed3(x)).Some?
  {
    assert FormatLaws(f);
  }
}
