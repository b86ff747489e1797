/**
 * Curve algebra: two-point interpolation on a sampled frequency axis, curve
 * addition, the dB/octave slope curve, the analytic peaking-filter response
 * and the composite EQ curve obtained by summing bands in dB.
 */
module CurveMath {
  import opened Numerics

  /** One sample of a frequency-response table: frequency in Hz and gain in dB. */
  datatype Row = Row(freq: real, gain: real)

  /** One parametric peaking band. */
  datatype Band = Band(freq: real, gain: real, q: real)

  predicate AdjacentDistinct(fr: seq<real>) {
    forall i :: 0 <= i < |fr| - 1 ==> fr[i] != fr[i + 1]
  }

  predicate StrictlyIncreasing(fr: seq<real>) {
    forall i, j :: 0 <= i < j < |fr| ==> fr[i] < fr[j]
  }

  predicate Between(x: real, a: real, b: real) {
    (a <= x <= b) || (b <= x <= a)
  }

  // ----------------------------------------------------------------------
  // linear_interpolation

  /**
   * Where the index scan of `linear_interpolation` stops when it starts at
   * `from`: the first index whose successor is at or above `t`, or the last.
   */
  function ScanFrom(fr: seq<real>, t: real, from: nat): (idx: nat)
    requires from < |fr|
    ensures from <= idx < |fr|
    ensures forall j :: from < j <= idx ==> fr[j] < t
    ensures idx == |fr| - 1 || fr[idx + 1] >= t
    decreases |fr| - from
  {
    if from < |fr| - 1 && fr[from + 1] < t then ScanFrom(fr, t, from + 1) else from
  }

  /** The value `linear_interpolation` returns on a non-empty axis. */
  function Interpolate(fr: seq<real>, gains: seq<real>, t: real): real
    requires 0 < |fr| == |gains| && AdjacentDistinct(fr)
  {
    var idx := ScanFrom(fr, t, 0);
    if idx == |fr| - 1 then gains[idx]
    else gains[idx] + (gains[idx + 1] - gains[idx]) * ((t - fr[idx]) / (fr[idx + 1] - fr[idx]))
  }

  /**
   * `linear_interpolation(f_range, gains, target_freq)`. On an empty axis the
   * source indexes `f_range[0]` and raises; `ok` is false exactly then.
   */
  method LinearInterpolation(fr: seq<real>, gains: seq<real>, t: real) returns (ok: bool, g: real)
    requires |gains| == |fr| && AdjacentDistinct(fr)
    ensures ok <==> |fr| > 0
    ensures ok ==> g == Interpolate(fr, gains, t)
  {
    var idx := 0;
    while idx < |fr| - 1 && fr[idx + 1] < t
      invariant |fr| == 0 ==> idx == 0
      invariant |fr| > 0 ==> idx < |fr| && ScanFrom(fr, t, idx) == ScanFrom(fr, t, 0)
    {
      idx := idx + 1;
    }
    if idx == |fr| - 1 {
      ok, g := true, gains[idx];
    } else if idx + 1 < |fr| {
      var freqLower, freqUpper := fr[idx], fr[idx + 1];
      var gainLower, gainUpper := gains[idx], gains[idx + 1];
      ok, g := true, gainLower + (gainUpper - gainLower) * ((t - freqLower) / (freqUpper - freqLower));
    } else {
      ok, g := false, 0.0;
    }
  }

  lemma IncreasingIsDistinct(fr: seq<real>)
    requires StrictlyIncreasing(fr)
    ensures AdjacentDistinct(fr)
  {
    forall i | 0 <= i < |fr| - 1 ensures fr[i] != fr[i + 1] {
      assert fr[i] < fr[i + 1];
    }
  }

  /** Beyond the last sample (or on a one-sample axis) the last gain is returned: no extrapolation. */
  lemma InterpolateBeyondLast(fr: seq<real>, gains: seq<real>, t: real)
    requires 0 < |fr| == |gains| && StrictlyIncreasing(fr)
    requires |fr| == 1 || t > fr[|fr| - 1]
    ensures AdjacentDistinct(fr) && Interpolate(fr, gains, t) == gains[|fr| - 1]
  {
    IncreasingIsDistinct(fr);
  }

  lemma ScanAtSample(fr: seq<real>, k: nat)
    requires StrictlyIncreasing(fr) && k < |fr|
    ensures ScanFrom(fr, fr[k], 0) == if k == 0 then 0 else k - 1
  {
    var idx := ScanFrom(fr, fr[k], 0);
    if idx >= k && idx > 0 {
      assert false;
    }
    if idx + 1 < k {
      assert false;
    }
  }

  /** On a strictly increasing axis, interpolating at a sample returns that sample's gain exactly. */
  lemma InterpolateAtSample(fr: seq<real>, gains: seq<real>, k: nat)
    requires |fr| == |gains| && StrictlyIncreasing(fr) && k < |fr|
    ensures AdjacentDistinct(fr) && Interpolate(fr, gains, fr[k]) == gains[k]
  {
    IncreasingIsDistinct(fr);
    ScanAtSample(fr, k);
    if k > 0 {
      DivideSelf(fr[k] - fr[k - 1]);
    }
  }

  lemma DivideSelf(x: real)
    requires x != 0.0
    ensures x / x == 1.0
  {
  }

  lemma FractionInUnit(a: real, b: real)
    requires 0.0 <= a <= b && b > 0.0
    ensures 0.0 <= a / b <= 1.0
  {
  }

  lemma ConvexStep(lo: real, hi: real, lambda: real)
    requires 0.0 <= lambda <= 1.0
    ensures Between(lo + (hi - lo) * lambda, lo, hi)
  {
    if hi >= lo {
      assert (hi - lo) * lambda <= (hi - lo) * 1.0;
    } else {
      assert (lo - hi) * lambda <= (lo - hi) * 1.0;
    }
  }

  /**
   * Inside [fr[0], fr[last]] the target is bracketed by the scanned segment
   * and the result lies between that segment's two gains.
   */
  lemma InterpolateBetween(fr: seq<real>, gains: seq<real>, t: real)
    requires 2 <= |fr| == |gains| && StrictlyIncreasing(fr)
    requires fr[0] <= t <= fr[|fr| - 1]
    ensures AdjacentDistinct(fr)
    ensures var idx := ScanFrom(fr, t, 0);
      && idx < |fr| - 1
      && fr[idx] <= t <= fr[idx + 1]
      && Between(Interpolate(fr, gains, t), gains[idx], gains[idx + 1])
  {
    IncreasingIsDistinct(fr);
    var idx := ScanFrom(fr, t, 0);
    if idx == |fr| - 1 {
      assert false;
    }
    assert idx > 0 ==> fr[idx] < t;
    assert fr[idx] < fr[idx + 1];
    FractionInUnit(t - fr[idx], fr[idx + 1] - fr[idx]);
    ConvexStep(gains[idx], gains[idx + 1], (t - fr[idx]) / (fr[idx + 1] - fr[idx]));
  }

  /**
   * Below the first sample the scan stays at 0 and the first segment is
   * extrapolated: when its two gains differ the result leaves their range.
   */
  lemma InterpolateBelowFirst(fr: seq<real>, gains: seq<real>, t: real)
    requires 2 <= |fr| == |gains| && StrictlyIncreasing(fr)
    requires t < fr[0]
    ensures AdjacentDistinct(fr) && ScanFrom(fr, t, 0) == 0
    ensures Interpolate(fr, gains, t) == gains[0] + (gains[1] - gains[0]) * ((t - fr[0]) / (fr[1] - fr[0]))
    ensures gains[0] != gains[1] ==> !Between(Interpolate(fr, gains, t), gains[0], gains[1])
  {
    IncreasingIsDistinct(fr);
    assert fr[0] < fr[1];
    var lambda := (t - fr[0]) / (fr[1] - fr[0]);
    assert lambda < 0.0;
    var d := gains[1] - gains[0];
    if d > 0.0 {
      assert d * lambda < 0.0;
    } else if d < 0.0 {
      assert d * lambda > 0.0;
    }
  }

  /** Every gain moved by `c`. */
  function Shift(gains: seq<real>, c: real): (r: seq<real>)
    ensures |r| == |gains| && forall i :: 0 <= i < |r| ==> r[i] == gains[i] + c
  {
    seq(|gains|, i requires 0 <= i < |gains| => gains[i] + c)
  }

  /** Interpolation commutes with a constant shift of all gains. */
  lemma InterpolateShift(fr: seq<real>, gains: seq<real>, t: real, c: real)
    requires 0 < |fr| == |gains| && AdjacentDistinct(fr)
    ensures Interpolate(fr, Shift(gains, c), t) == Interpolate(fr, gains, t) + c
  {
    var idx := ScanFrom(fr, t, 0);
    if idx < |fr| - 1 {
      var s := Shift(gains, c);
      assert s[idx + 1] - s[idx] == gains[idx + 1] - gains[idx];
    }
  }

  // ----------------------------------------------------------------------
  // apply_curve, calc_slope_curve

  /** `apply_curve(curve_a, curve_b)`: the element-wise sum of two curves on one axis. */
  function ApplyCurve(a: seq<real>, b: seq<real>): (r: seq<real>)
    requires |a| == |b|
    ensures |r| == |a| && forall i :: 0 <= i < |r| ==> r[i] == a[i] + b[i]
  {
    seq(|a|, i requires 0 <= i < |a| => a[i] + b[i])
  }

  /** Applying a curve and then its negation gives back the original curve. */
  lemma ApplyCurveUndo(a: seq<real>, b: seq<real>)
    requires |a| == |b|
    ensures ApplyCurve(ApplyCurve(a, b), Scale(b, -1.0)) == a
  {
    assert forall i :: 0 <= i < |a| ==> ApplyCurve(ApplyCurve(a, b), Scale(b, -1.0))[i] == a[i];
  }

  lemma ApplyCurveCommutes(a: seq<real>, b: seq<real>)
    requires |a| == |b|
    ensures ApplyCurve(a, b) == ApplyCurve(b, a)
  {
  }

  lemma ApplyCurveAssociates(a: seq<real>, b: seq<real>, c: seq<real>)
    requires |a| == |b| == |c|
    ensures ApplyCurve(ApplyCurve(a, b), c) == ApplyCurve(a, ApplyCurve(b, c))
  {
  }

  function Constant(n: nat, c: real): (r: seq<real>)
    ensures |r| == n && forall i :: 0 <= i < n ==> r[i] == c
  {
    seq(n, i => c)
  }

  function Zeros(n: nat): (r: seq<real>)
    ensures |r| == n && forall i :: 0 <= i < n ==> r[i] == 0.0
  {
    Constant(n, 0.0)
  }

  /** Every value multiplied by `c` (numpy `curve * c`). */
  function Scale(a: seq<real>, c: real): (r: seq<real>)
    ensures |r| == |a| && forall i :: 0 <= i < |r| ==> r[i] == a[i] * c
  {
    seq(|a|, i requires 0 <= i < |a| => a[i] * c)
  }

  lemma ApplyZeros(a: seq<real>)
    ensures ApplyCurve(a, Zeros(|a|)) == a
  {
  }

  /**
   * `calc_slope_curve(f_range, slope)`: slope·(log2 f − log2 1000) per sample,
   * pinned to 0 at 1000 Hz and identically 0 for a zero slope.
   */
  function SlopeCurve(m: Math, fr: seq<real>, slope: real): (r: seq<real>)
    ensures |r| == |fr|
    ensures forall i :: 0 <= i < |fr| && fr[i] == 1000.0 ==> r[i] == 0.0
    ensures slope == 0.0 ==> forall i :: 0 <= i < |fr| ==> r[i] == 0.0
  {
    var fr0 := m.log2(1000.0);
    seq(|fr|, i requires 0 <= i < |fr| => slope * (m.log2(fr[i]) - fr0))
  }

  // ----------------------------------------------------------------------
  // calculate_peak_filter: the analog transfer function evaluated at jw, w = 2π

  datatype Complex = Complex(re: real, im: real)

  function CAdd(x: Complex, y: Complex): Complex {
    Complex(x.re + y.re, x.im + y.im)
  }

  function CMul(x: Complex, y: Complex): Complex {
    Complex(x.re * y.re - x.im * y.im, x.re * y.im + x.im * y.re)
  }

  function Id(a: real): real {
    a
  }

  /**
   * a², written a·Id(a) so that the solver keeps the product as one term with
   * two factors; SquareIs ties it back to a·a.
   */
  function Sq(a: real): real {
    a * Id(a)
  }

  lemma SquareIs(a: real)
    ensures a * a == Sq(a)
  {
  }

  lemma SquarePositive(a: real)
    requires a != 0.0
    ensures Sq(a) > 0.0
  {
  }

  lemma SquareNonNegative(a: real)
    ensures Sq(a) >= 0.0
  {
  }

  lemma SquareOfZero(a: real)
    requires a == 0.0
    ensures Sq(a) == 0.0
  {
  }

  /** |x|². */
  function Norm2(x: Complex): real {
    Sq(x.re) + Sq(x.im)
  }

  lemma NormPositive(x: Complex)
    requires x.re != 0.0 || x.im != 0.0
    ensures Norm2(x) > 0.0
  {
    SquareNonNegative(x.re);
    SquareNonNegative(x.im);
    if x.re != 0.0 {
      SquarePositive(x.re);
    } else {
      SquarePositive(x.im);
    }
  }

  function RealPart(x: real): Complex {
    Complex(x, 0.0)
  }

  /** c0 + c1·jw + c2·(jw)². */
  function Quadratic(c0: real, c1: real, c2: real, jw: Complex): Complex {
    CAdd(CAdd(RealPart(c0), CMul(RealPart(c1), jw)), CMul(RealPart(c2), CMul(jw, jw)))
  }

  datatype Coefficients = Coefficients(b0: real, b1: real, b2: real, a0: real, a1: real, a2: real)

  /** The coefficients `calculate_peak_filter` builds for one evaluation frequency `f`. */
  function PeakCoefficients(m: Math, f0: real, gain: real, q: real, f: real): (c: Coefficients)
    requires f != 0.0 && q != 0.0
  {
    var w0 := 2.0 * m.pi * f0 / f;
    var g := m.pow2(gain / 6.0);
    Coefficients(Sq(w0), g * (w0 / q), 1.0, Sq(w0), 1.0 / g * w0 / q, 1.0)
  }

  /** With gain 0, g = 2^0 = 1 and numerator and denominator coincide. */
  lemma UnityGainCoefficients(m: Math, f0: real, q: real, f: real)
    requires f != 0.0 && q != 0.0
    ensures var c := PeakCoefficients(m, f0, 0.0, q, f);
      c.b0 == c.a0 && c.b1 == c.a1 && c.b2 == c.a2
  {
    assert m.pow2(0.0 / 6.0) == 1.0;
  }

  function Jw(m: Math): Complex {
    Complex(0.0, 2.0 * m.pi)
  }

  /** On the imaginary axis, c0 + c1·jw + c2·(jw)² = (c0 − c2·w²) + j·c1·w. */
  lemma QuadraticOnAxis(c0: real, c1: real, c2: real, w: real)
    ensures Quadratic(c0, c1, c2, Complex(0.0, w)) == Complex(c0 - c2 * Sq(w), c1 * w)
  {
    SquareIs(w);
  }

  lemma ProductNonZero(x: real, y: real)
    requires x != 0.0 && y != 0.0
    ensures x * y != 0.0
  {
  }

  lemma QuotientNonZero(x: real, y: real)
    requires x != 0.0 && y != 0.0
    ensures x / y != 0.0
  {
  }

  lemma DampingNonZero(w0: real, g: real, q: real, w: real)
    requires g > 0.0 && q != 0.0 && w > 0.0 && w0 != 0.0
    ensures (1.0 / g * w0 / q) * w != 0.0
  {
    QuotientNonZero(1.0, g);
    ProductNonZero(1.0 / g, w0);
    QuotientNonZero(1.0 / g * w0, q);
    ProductNonZero(1.0 / g * w0 / q, w);
  }

  lemma ResonanceTermNonZero(w0: real, w: real)
    requires w0 == 0.0 && w > 0.0
    ensures Sq(w0) - 1.0 * Sq(w) != 0.0
  {
    SquareOfZero(w0);
    SquarePositive(w);
  }

  /**
   * The denominator (w0² − w²) + j·(w0/(g·q))·w never vanishes for g > 0,
   * q ≠ 0, w > 0: at w0 = 0 its real part is −w², otherwise its imaginary
   * part is non-zero.
   */
  lemma DenominatorAwayFromZero(w0: real, g: real, q: real, w: real)
    requires g > 0.0 && q != 0.0 && w > 0.0
    ensures Norm2(Complex(Sq(w0) - 1.0 * Sq(w), (1.0 / g * w0 / q) * w)) > 0.0
  {
    if w0 == 0.0 {
      ResonanceTermNonZero(w0, w);
    } else {
      DampingNonZero(w0, g, q, w);
    }
    NormPositive(Complex(Sq(w0) - 1.0 * Sq(w), (1.0 / g * w0 / q) * w));
  }

  lemma DenominatorNonZero(m: Math, f0: real, gain: real, q: real, f: real)
    requires f != 0.0 && q != 0.0
    ensures var c := PeakCoefficients(m, f0, gain, q, f);
      Norm2(Quadratic(c.a0, c.a1, c.a2, Jw(m))) > 0.0
  {
    var c := PeakCoefficients(m, f0, gain, q, f);
    var w0 := 2.0 * m.pi * f0 / f;
    var g := m.pow2(gain / 6.0);
    var w := 2.0 * m.pi;
    QuadraticOnAxis(c.a0, c.a1, c.a2, w);
    assert c.a0 == Sq(w0) && c.a1 == 1.0 / g * w0 / q && c.a2 == 1.0;
    assert Jw(m) == Complex(0.0, w);
    DenominatorAwayFromZero(w0, g, q, w);
  }

  /** At gain 0 the numerator and the denominator of H have the same magnitude. */
  lemma UnityGainRatio(m: Math, f0: real, gain: real, q: real, f: real)
    requires f != 0.0 && q != 0.0
    ensures var c := PeakCoefficients(m, f0, gain, q, f);
      Norm2(Quadratic(c.a0, c.a1, c.a2, Jw(m))) > 0.0 &&
      (gain == 0.0 ==> Norm2(Quadratic(c.b0, c.b1, c.b2, Jw(m))) / Norm2(Quadratic(c.a0, c.a1, c.a2, Jw(m))) == 1.0)
  {
    var c := PeakCoefficients(m, f0, gain, q, f);
    DenominatorNonZero(m, f0, gain, q, f);
    if gain == 0.0 {
      UnityGainCoefficients(m, f0, q, f);
      DivideSelf(Norm2(Quadratic(c.a0, c.a1, c.a2, Jw(m))));
    }
  }

  /**
   * `calculate_peak_filter` at one frequency: |H(jw)| with w = 2π, computed
   * as sqrt(|num|² / |den|²), which equals |num / den|. A zero-gain band
   * has |H| = 1.
   */
  function PeakResponse(m: Math, f0: real, gain: real, q: real, f: real): (h: real)
    requires f != 0.0 && q != 0.0
    ensures gain == 0.0 ==> h == 1.0
  {
    var c := PeakCoefficients(m, f0, gain, q, f);
    var num := Quadratic(c.b0, c.b1, c.b2, Jw(m));
    var den := Quadratic(c.a0, c.a1, c.a2, Jw(m));
    UnityGainRatio(m, f0, gain, q, f);
    m.sqrt(Norm2(num) / Norm2(den))
  }

  // ----------------------------------------------------------------------
  // calculate_eq_curve

  predicate NonZeroAxis(fr: seq<real>) {
    forall i :: 0 <= i < |fr| ==> fr[i] != 0.0
  }

  predicate ValidBands(bands: seq<Band>) {
    forall k :: 0 <= k < |bands| ==> bands[k].q != 0.0
  }

  /** The dB term one band adds at frequency f: 3·log2(0.775·|H| / 0.775), which is 0 dB for a zero-gain band. */
  function BandTerm(m: Math, b: Band, f: real): (t: real)
    requires f != 0.0 && b.q != 0.0
    ensures b.gain == 0.0 ==> t == 0.0
  {
    var h := PeakResponse(m, b.freq, b.gain, b.q, f);
    assert b.gain == 0.0 ==> 0.775 * h / 0.775 == 1.0;
    3.0 * m.log2(0.775 * h / 0.775)
  }

  function BandCurve(m: Math, b: Band, fr: seq<real>): (r: seq<real>)
    requires NonZeroAxis(fr) && b.q != 0.0
    ensures |r| == |fr| && forall i :: 0 <= i < |fr| ==> r[i] == BandTerm(m, b, fr[i])
  {
    seq(|fr|, i requires 0 <= i < |fr| => BandTerm(m, b, fr[i]))
  }

  /** `zip(f0s, gains, q_factors)`: stops at the shortest list. */
  function Zip3(f0s: seq<real>, gains: seq<real>, qs: seq<real>): (bands: seq<Band>)
    ensures |bands| == if |f0s| <= |gains| && |f0s| <= |qs| then |f0s| else if |gains| <= |qs| then |gains| else |qs|
    ensures forall k :: 0 <= k < |bands| ==> bands[k] == Band(f0s[k], gains[k], qs[k])
  {
    var n := if |f0s| <= |gains| && |f0s| <= |qs| then |f0s| else if |gains| <= |qs| then |gains| else |qs|;
    seq(n, k requires 0 <= k < n => Band(f0s[k], gains[k], qs[k]))
  }

  /** The composite curve of a filter set: band terms accumulated in list order from zero. */
  function EqCurve(m: Math, bands: seq<Band>, fr: seq<real>): (r: seq<real>)
    requires NonZeroAxis(fr) && ValidBands(bands)
    ensures |r| == |fr|
  {
    if bands == [] then Zeros(|fr|)
    else ApplyCurve(EqCurve(m, bands[..|bands| - 1], fr), BandCurve(m, bands[|bands| - 1], fr))
  }

  /** A single band's composite curve is that band's own curve. */
  lemma EqCurveSingle(m: Math, b: Band, fr: seq<real>)
    requires NonZeroAxis(fr) && b.q != 0.0
    ensures ValidBands([b]) && EqCurve(m, [b], fr) == BandCurve(m, b, fr)
  {
    assert [b][..0] == [];
    assert ApplyCurve(Zeros(|fr|), BandCurve(m, b, fr)) == BandCurve(m, b, fr);
  }

  /** Zipping lists extended by one entry each extends the zipped bands by that band. */
  lemma Zip3Append(f0s: seq<real>, gains: seq<real>, qs: seq<real>, f: real, g: real, q: real)
    requires |f0s| == |gains| == |qs|
    ensures Zip3(f0s + [f], gains + [g], qs + [q]) == Zip3(f0s, gains, qs) + [Band(f, g, q)]
  {
  }

  /** Only the common prefix of the three lists is zipped; longer tails are ignored. */
  lemma Zip3Prefix(f0s: seq<real>, gains: seq<real>, qs: seq<real>, n: nat)
    requires n <= |f0s| && n <= |gains| && n <= |qs|
    ensures Zip3(f0s[..n], gains[..n], qs[..n]) == Zip3(f0s, gains, qs)[..n]
  {
  }

  /**
   * `calculate_eq_curve(f0s, gains, q_factors, f_range)`: starts from zeros
   * and adds each zipped band's dB term; `Ptotal` stays at 0.775 throughout.
   */
  method CalculateEqCurve(m: Math, f0s: seq<real>, gains: seq<real>, qs: seq<real>, fr: seq<real>)
      returns (eqCurve: seq<real>)
    requires NonZeroAxis(fr) && ValidBands(Zip3(f0s, gains, qs))
    ensures eqCurve == EqCurve(m, Zip3(f0s, gains, qs), fr)
  {
    var bands := Zip3(f0s, gains, qs);
    eqCurve := Zeros(|fr|);
    var k := 0;
    while k < |bands|
      invariant 0 <= k <= |bands|
      invariant ValidBands(bands[..k]) && eqCurve == EqCurve(m, bands[..k], fr)
    {
      // Gi = 3·log2(Ptotal·|H| / 0.775) with Ptotal = 0.775 at every sample
      var gi := BandCurve(m, bands[k], fr);
      EqCurveNext(m, bands, fr, k);
      eqCurve := ApplyCurve(eqCurve, gi);
      k := k + 1;
    }
    assert bands[..k] == bands;
  }

  /** The curve of the first k + 1 bands is that of the first k plus band k's curve. */
  lemma EqCurveNext(m: Math, bands: seq<Band>, fr: seq<real>, k: nat)
    requires NonZeroAxis(fr) && ValidBands(bands) && k < |bands|
    ensures ValidBands(bands[..k]) && ValidBands(bands[..k + 1])
    ensures EqCurve(m, bands[..k + 1], fr) == ApplyCurve(EqCurve(m, bands[..k], fr), BandCurve(m, bands[k], fr))
  {
    assert bands[..k + 1][..k] == bands[..k];
  }

  /** The sum of every band's term at one frequency. */
  function SumTerms(m: Math, bands: seq<Band>, f: real): real
    requires f != 0.0 && ValidBands(bands)
  {
    if bands == [] then 0.0 else SumTerms(m, bands[..|bands| - 1], f) + BandTerm(m, bands[|bands| - 1], f)
  }

  /** Each sample of the composite curve is the plain sum of the band terms there. */
  lemma {:induction false} EqCurveIsSum(m: Math, bands: seq<Band>, fr: seq<real>, i: nat)
    requires NonZeroAxis(fr) && ValidBands(bands) && i < |fr|
    ensures EqCurve(m, bands, fr)[i] == SumTerms(m, bands, fr[i])
  {
    if bands != [] {
      EqCurveIsSum(m, bands[..|bands| - 1], fr, i);
    }
  }

  lemma {:induction false} SumTermsAppend(m: Math, a: seq<Band>, b: seq<Band>, f: real)
    requires f != 0.0 && ValidBands(a) && ValidBands(b)
    ensures ValidBands(a + b)
    ensures SumTerms(m, a + b, f) == SumTerms(m, a, f) + SumTerms(m, b, f)
  {
    if b == [] {
      assert a + b == a;
    } else {
      assert (a + b)[..|a + b| - 1] == a + b[..|b| - 1];
      SumTermsAppend(m, a, b[..|b| - 1], f);
    }
  }

  lemma MultisetRemove(a: seq<Band>, b: seq<Band>, j: nat)
    requires multiset(a) == multiset(b) && |a| > 0 && j < |b| && b[j] == a[|a| - 1]
    ensures multiset(a[..|a| - 1]) == multiset(b[..j] + b[j + 1..])
  {
    var x := a[|a| - 1];
    assert a == a[..|a| - 1] + [x];
    assert b == b[..j] + [x] + b[j + 1..];
    calc {
      multiset(a[..|a| - 1]);
      multiset(a) - multiset{x};
      multiset(b) - multiset{x};
      multiset(b[..j]) + multiset(b[j + 1..]);
      multiset(b[..j] + b[j + 1..]);
    }
  }

  lemma SumTermsSplitAt(m: Math, b: seq<Band>, j: nat, f: real)
    requires f != 0.0 && ValidBands(b) && j < |b|
    ensures ValidBands(b[..j] + b[j + 1..])
    ensures SumTerms(m, b, f) == SumTerms(m, b[..j] + b[j + 1..], f) + BandTerm(m, b[j], f)
  {
    var x := b[j];
    assert b == b[..j] + ([x] + b[j + 1..]);
    SumTermsAppend(m, [x], b[j + 1..], f);
    assert [x][..0] == [];
    SumTermsAppend(m, b[..j], [x] + b[j + 1..], f);
    SumTermsAppend(m, b[..j], b[j + 1..], f);
  }

  lemma {:induction false} SumTermsPermutation(m: Math, a: seq<Band>, b: seq<Band>, f: real)
    requires f != 0.0 && ValidBands(a) && ValidBands(b)
    requires multiset(a) == multiset(b)
    ensures SumTerms(m, a, f) == SumTerms(m, b, f)
    decreases |a|
  {
    if a == [] {
      assert |b| == |multiset(b)| == 0;
    } else {
      var x := a[|a| - 1];
      assert x in multiset(b);
      var j :| 0 <= j < |b| && b[j] == x;
      MultisetRemove(a, b, j);
      SumTermsSplitAt(m, b, j, f);
      SumTermsPermutation(m, a[..|a| - 1], b[..j] + b[j + 1..], f);
    }
  }

  /** The composite curve does not depend on the order of the bands. */
  lemma EqCurvePermutation(m: Math, a: seq<Band>, b: seq<Band>, fr: seq<real>)
    requires NonZeroAxis(fr) && ValidBands(a) && ValidBands(b)
    requires multiset(a) == multiset(b)
    ensures EqCurve(m, a, fr) == EqCurve(m, b, fr)
  {
    forall i | 0 <= i < |fr| ensures EqCurve(m, a, fr)[i] == EqCurve(m, b, fr)[i] {
      EqCurveIsSum(m, a, fr, i);
      EqCurveIsSum(m, b, fr, i);
      SumTermsPermutation(m, a, b, fr[i]);
    }
  }

  /** Splitting a filter set splits its composite curve into a sum. */
  lemma EqCurveConcat(m: Math, a: seq<Band>, b: seq<Band>, fr: seq<real>)
    requires NonZeroAxis(fr) && ValidBands(a) && ValidBands(b)
    ensures ValidBands(a + b)
    ensures EqCurve(m, a + b, fr) == ApplyCurve(EqCurve(m, a, fr), EqCurve(m, b, fr))
  {
    SumTermsAppend(m, a, b, 1.0);
    forall i | 0 <= i < |fr|
      ensures EqCurve(m, a + b, fr)[i] == ApplyCurve(EqCurve(m, a, fr), EqCurve(m, b, fr))[i]
    {
      EqCurveIsSum(m, a + b, fr, i);
      EqCurveIsSum(m, a, fr, i);
      EqCurveIsSum(m, b, fr, i);
      SumTermsAppend(m, a, b, fr[i]);
    }
  }

  /** The empty filter set gives the all-zero curve; a zero-gain band changes nothing. */
  lemma EqCurveZeroGain(m: Math, bands: seq<Band>, b: Band, fr: seq<real>)
    requires NonZeroAxis(fr) && ValidBands(bands) && b.q != 0.0 && b.gain == 0.0
    ensures EqCurve(m, [], fr) == Zeros(|fr|)
    ensures ValidBands(bands + [b]) && EqCurve(m, bands + [b], fr) == EqCurve(m, bands, fr)
  {
    var all := bands + [b];
    assert all[..|all| - 1] == bands;
    assert forall i :: 0 <= i < |fr| ==> BandCurve(m, b, fr)[i] == 0.0;
  }
}
