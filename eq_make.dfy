/**
 * The EQ solver: picking the frequency that is furthest from the target,
 * estimating a Q factor for it, finding and spacing the dips, and the
 * band-by-band loop that accumulates filters against the original curve.
 */
module EqMake {
  import opened Wrappers
  import opened Text
  import opened Numerics
  import opened CurveMath
  import opened Files

  // ----------------------------------------------------------------------
  // find_peak_and_dip

  /** `r` pairs a row of `df` with a row of `dfT` at the same frequency, gains subtracted. */
  ghost predicate FromBoth(df: seq<Row>, dfT: seq<Row>, r: Row) {
    exists k, j :: 0 <= k < |df| && 0 <= j < |dfT| && df[k].freq == dfT[j].freq == r.freq
      && r.gain == df[k].gain - dfT[j].gain
  }

  /**
   * The rows `df` and `df_t` share, in `df`'s order, each carrying the
   * difference of the two gains: pandas' inner merge on `freq` followed by
   * `gain - gain_t`.
   */
  function MergeDiff(df: seq<Row>, dfT: seq<Row>): (r: seq<Row>)
    ensures forall i :: 0 <= i < |r| ==> r[i].freq in Freqs(df) && r[i].freq in Freqs(dfT)
    decreases |df|
  {
    if df == [] then []
    else
      var head := MatchRow(df[0], dfT);
      var tail := MergeDiff(df[1..], dfT);
      assert Freqs(df) == [df[0].freq] + Freqs(df[1..]);
      head + tail
  }

  /** One left row merged against every right row with its frequency, in right order. */
  function MatchRow(row: Row, dfT: seq<Row>): (r: seq<Row>)
    ensures forall i :: 0 <= i < |r| ==> r[i].freq == row.freq
    ensures row.freq in Freqs(dfT) <==> r != []
  {
    if dfT == [] then []
    else
      var rest := MatchRow(row, dfT[1..]);
      assert Freqs(dfT) == [dfT[0].freq] + Freqs(dfT[1..]);
      if dfT[0].freq == row.freq then [Row(row.freq, row.gain - dfT[0].gain)] + rest else rest
  }

  /** Each merged row of one left row carries the left gain minus a right gain at its frequency. */
  lemma {:induction false} MatchRowSource(row: Row, dfT: seq<Row>, i: nat)
    requires i < |MatchRow(row, dfT)|
    ensures exists j :: 0 <= j < |dfT| && dfT[j].freq == row.freq && MatchRow(row, dfT)[i].gain == row.gain - dfT[j].gain
  {
    var rest := MatchRow(row, dfT[1..]);
    if dfT[0].freq == row.freq && i == 0 {
      assert dfT[0].freq == row.freq && MatchRow(row, dfT)[i].gain == row.gain - dfT[0].gain;
    } else {
      var i' := if dfT[0].freq == row.freq then i - 1 else i;
      assert MatchRow(row, dfT)[i] == rest[i'];
      MatchRowSource(row, dfT[1..], i');
      var j :| 0 <= j < |dfT[1..]| && dfT[1..][j].freq == row.freq && rest[i'].gain == row.gain - dfT[1..][j].gain;
      assert dfT[j + 1] == dfT[1..][j];
    }
  }

  /** Every merged row pairs a row of `df` with a row of `dfT` at its frequency, gains subtracted. */
  lemma {:induction false} MergeDiffSource(df: seq<Row>, dfT: seq<Row>, i: nat)
    requires i < |MergeDiff(df, dfT)|
    ensures FromBoth(df, dfT, MergeDiff(df, dfT)[i])
    decreases |df|
  {
    var head := MatchRow(df[0], dfT);
    var tail := MergeDiff(df[1..], dfT);
    var r := MergeDiff(df, dfT)[i];
    if i < |head| {
      MatchRowSource(df[0], dfT, i);
      var j :| 0 <= j < |dfT| && dfT[j].freq == df[0].freq && head[i].gain == df[0].gain - dfT[j].gain;
      assert r == head[i];
      assert 0 < |df| && df[0].freq == dfT[j].freq == r.freq && r.gain == df[0].gain - dfT[j].gain;
    } else {
      assert r == tail[i - |head|];
      MergeDiffSource(df[1..], dfT, i - |head|);
      var k, j :| 0 <= k < |df[1..]| && 0 <= j < |dfT| && df[1..][k].freq == dfT[j].freq == r.freq
        && r.gain == df[1..][k].gain - dfT[j].gain;
      assert df[k + 1] == df[1..][k];
    }
  }

  lemma {:induction false} MergeDiffEmpty(df: seq<Row>, dfT: seq<Row>)
    ensures MergeDiff(df, dfT) == [] <==>
      forall k, j :: 0 <= k < |df| && 0 <= j < |dfT| ==> df[k].freq != dfT[j].freq
    decreases |df|
  {
    if df != [] {
      MergeDiffEmpty(df[1..], dfT);
      if MergeDiff(df, dfT) == [] {
        forall k, j | 0 <= k < |df| && 0 <= j < |dfT|
          ensures df[k].freq != dfT[j].freq
        {
          if k > 0 {
            assert df[k] == df[1..][k - 1];
          }
        }
      }
    }
  }

  /** The largest gain of a non-empty table (`Series.max()`). */
  function MaxGain(rows: seq<Row>): (g: real)
    requires rows != []
    ensures exists i :: 0 <= i < |rows| && rows[i].gain == g
    ensures forall i :: 0 <= i < |rows| ==> rows[i].gain <= g
  {
    if |rows| == 1 then rows[0].gain
    else
      var g := MaxGain(rows[1..]);
      assert forall i :: 1 <= i < |rows| ==> rows[i] == rows[1..][i - 1];
      if rows[0].gain >= g then rows[0].gain else g
  }

  /** The smallest gain of a non-empty table (`Series.min()`). */
  function MinGain(rows: seq<Row>): (g: real)
    requires rows != []
    ensures exists i :: 0 <= i < |rows| && rows[i].gain == g
    ensures forall i :: 0 <= i < |rows| ==> rows[i].gain >= g
  {
    if |rows| == 1 then rows[0].gain
    else
      var g := MinGain(rows[1..]);
      assert forall i :: 1 <= i < |rows| ==> rows[i] == rows[1..][i - 1];
      if rows[0].gain <= g then rows[0].gain else g
  }

  /** The position of the first row whose gain is `g`. */
  function FirstWithGain(rows: seq<Row>, g: real): (i: nat)
    requires exists i :: 0 <= i < |rows| && rows[i].gain == g
    ensures i < |rows| && rows[i].gain == g
    ensures forall j :: 0 <= j < i ==> rows[j].gain != g
  {
    if rows[0].gain == g then 0
    else
      assert exists i :: 0 <= i < |rows[1..]| && rows[1..][i].gain == g by {
        var i :| 0 <= i < |rows| && rows[i].gain == g;
        assert rows[1..][i - 1] == rows[i];
      }
      1 + FirstWithGain(rows[1..], g)
  }

  /** The position of the first row at frequency `f`. */
  function FirstAtFreq(rows: seq<Row>, f: real): (i: nat)
    requires exists i :: 0 <= i < |rows| && rows[i].freq == f
    ensures i < |rows| && rows[i].freq == f
    ensures forall j :: 0 <= j < i ==> rows[j].freq != f
  {
    if rows[0].freq == f then 0
    else
      assert exists i :: 0 <= i < |rows[1..]| && rows[1..][i].freq == f by {
        var i :| 0 <= i < |rows| && rows[i].freq == f;
        assert rows[1..][i - 1] == rows[i];
      }
      1 + FirstAtFreq(rows[1..], f)
  }

  function Abs(x: real): real {
    if x < 0.0 then -x else x
  }

  /**
   * The frequency `find_peak_and_dip` settles on among the merged gaps: the
   * first maximum if its magnitude beats the minimum's, else the first minimum.
   */
  function ChooseTarget(merged: seq<Row>): (i: nat)
    requires merged != []
    ensures i < |merged|
  {
    var maxG := MaxGain(merged);
    var minG := MinGain(merged);
    if Abs(maxG) > Abs(minG) then FirstWithGain(merged, maxG) else FirstWithGain(merged, minG)
  }

  /**
   * `find_peak_and_dip(df, df_t)`: the frequency where the gap between `df`
   * and `df_t` is largest in magnitude, with `df`'s own gain there. An empty
   * merge makes `values[0]` raise; that is `None`.
   */
  function FindPeakAndDip(df: seq<Row>, dfT: seq<Row>): (r: Option<Row>)
    ensures r.Some? ==> r.value in df && exists j :: 0 <= j < |dfT| && dfT[j].freq == r.value.freq
  {
    var merged := MergeDiff(df, dfT);
    if merged == [] then None
    else
      var f := merged[ChooseTarget(merged)].freq;
      Some(Row(f, df[FirstAtFreq(df, f)].gain))
  }

  /** The first row of `rows` with the largest gain sits at position `i`. */
  ghost predicate FirstMaximum(rows: seq<Row>, i: int) {
    && 0 <= i < |rows|
    && (forall j :: 0 <= j < |rows| ==> rows[j].gain <= rows[i].gain)
    && (forall j :: 0 <= j < i ==> rows[j].gain < rows[i].gain)
  }

  /** The first row of `rows` with the smallest gain sits at position `i`. */
  ghost predicate FirstMinimum(rows: seq<Row>, i: int) {
    && 0 <= i < |rows|
    && (forall j :: 0 <= j < |rows| ==> rows[j].gain >= rows[i].gain)
    && (forall j :: 0 <= j < i ==> rows[j].gain > rows[i].gain)
  }

  /** Every gap is at most as large in magnitude as the one at `i`. */
  ghost predicate LargestGap(rows: seq<Row>, i: int) {
    0 <= i < |rows| && forall j :: 0 <= j < |rows| ==> Abs(rows[j].gain) <= Abs(rows[i].gain)
  }

  /**
   * The chosen gap is at least as large in magnitude as every other; it is
   * the first maximum when that one's magnitude wins (and then positive),
   * otherwise the first minimum, so ties go to the dip.
   */
  lemma ChooseTargetLargest(merged: seq<Row>)
    requires merged != []
    ensures var i := ChooseTarget(merged);
      && LargestGap(merged, i)
      && (Abs(MaxGain(merged)) > Abs(MinGain(merged)) ==> FirstMaximum(merged, i) && merged[i].gain > 0.0)
      && (Abs(MaxGain(merged)) <= Abs(MinGain(merged)) ==> FirstMinimum(merged, i))
  {
    var maxG := MaxGain(merged);
    var minG := MinGain(merged);
    assert FirstMaximum(merged, FirstWithGain(merged, maxG));
    assert FirstMinimum(merged, FirstWithGain(merged, minG));
  }

  /** The returned gain is `df`'s own gain at the first row with the chosen frequency. */
  ghost predicate OwnGain(df: seq<Row>, r: Row) {
    exists k :: 0 <= k < |df| && df[k] == r && forall j :: 0 <= j < k ==> df[j].freq != r.freq
  }

  /** No shared frequency, no answer; otherwise an answer. */
  lemma FindPeakAndDipFails(df: seq<Row>, dfT: seq<Row>)
    ensures FindPeakAndDip(df, dfT).None? <==>
      forall k, j :: 0 <= k < |df| && 0 <= j < |dfT| ==> df[k].freq != dfT[j].freq
  {
    MergeDiffEmpty(df, dfT);
  }

  /**
   * When the merge is non-empty, the answer is the frequency of the largest
   * gap in magnitude, ties to the dip, with `df`'s own gain there.
   */
  lemma FindPeakAndDipChoice(df: seq<Row>, dfT: seq<Row>)
    requires MergeDiff(df, dfT) != []
    ensures FindPeakAndDip(df, dfT).Some?
    ensures OwnGain(df, FindPeakAndDip(df, dfT).value)
    ensures var merged := MergeDiff(df, dfT);
      exists i :: LargestGap(merged, i) && merged[i].freq == FindPeakAndDip(df, dfT).value.freq
        && (FirstMaximum(merged, i) || FirstMinimum(merged, i))
  {
    var merged := MergeDiff(df, dfT);
    var i := ChooseTarget(merged);
    ChooseTargetLargest(merged);
    var r := FindPeakAndDip(df, dfT).value;
    var k := FirstAtFreq(df, r.freq);
    assert df[k] == r;
  }

  // ----------------------------------------------------------------------
  // estimate_neighbor_freq and estimate_q_factor

  /** The rows whose frequency lies in [lo, hi], in order (a boolean-mask selection). */
  function InBand(rows: seq<Row>, lo: real, hi: real): (r: seq<Row>)
    ensures |r| <= |rows|
    ensures forall i :: 0 <= i < |r| ==> lo <= r[i].freq <= hi && r[i] in rows
    ensures forall x :: x in rows && lo <= x.freq <= hi ==> x in r
  {
    if rows == [] then []
    else if lo <= rows[0].freq <= hi then [rows[0]] + InBand(rows[1..], lo, hi)
    else InBand(rows[1..], lo, hi)
  }

  function LogFreqs(m: Math, rows: seq<Row>): (r: seq<real>)
    ensures |r| == |rows| && forall i :: 0 <= i < |rows| ==> r[i] == m.log10(rows[i].freq)
  {
    seq(|rows|, i requires 0 <= i < |rows| => m.log10(rows[i].freq))
  }

  function Gains(rows: seq<Row>): (r: seq<real>)
    ensures |r| == |rows| && forall i :: 0 <= i < |rows| ==> r[i] == rows[i].gain
  {
    seq(|rows|, i requires 0 <= i < |rows| => rows[i].gain)
  }

  function Freqs(rows: seq<Row>): (r: seq<real>)
    ensures |r| == |rows| && forall i :: 0 <= i < |rows| ==> r[i] == rows[i].freq
  {
    seq(|rows|, i requires 0 <= i < |rows| => rows[i].freq)
  }

  /** The amplitude the −3 dB rule divides by: the fitted one, or `gain` when the fit raises. */
  function Amplitude(m: Math, rows: seq<Row>, freq: real, gain: real, windowOct: real): real {
    var lo := m.pow2(m.log2(freq) - windowOct);
    var hi := m.pow2(m.log2(freq) + windowOct);
    var w := InBand(rows, lo, hi);
    match m.gaussFit(LogFreqs(m, w), Gains(w), gain, m.log10(freq))
    case Fitted(a, _, _) => a
    case FitFailed => gain
  }

  /**
   * `neighbor_freq` as a float: a finite value, or one of the three
   * non-finite values a zero amplitude produces.
   */
  datatype Neighbour = Finite(value: real) | PlusInf | MinusInf | NaN

  /** `neighbor_freq < freq` on floats: always true for −inf, never for +inf or NaN. */
  predicate Below(n: Neighbour, freq: real) {
    match n
    case Finite(v) => v < freq
    case MinusInf => true
    case PlusInf => false
    case NaN => false
  }

  /**
   * `estimate_neighbor_freq`: freq·10^((gain − 3)/(20·a)). With a zero
   * amplitude the exponent is (gain − 3)/0: −inf below 3 dB, so that
   * 10^−inf = 0 and the neighbour is 0; +inf above 3 dB, so that the
   * neighbour is freq·inf; and 0/0 = NaN at exactly 3 dB.
   */
  function NeighborFreq(m: Math, rows: seq<Row>, freq: real, gain: real, windowOct: real): (n: Neighbour)
    ensures n.Finite? && freq > 0.0 ==> n.value >= 0.0
    ensures !n.Finite? <==> Amplitude(m, rows, freq, gain, windowOct) == 0.0 && gain >= 3.0
  {
    var a := Amplitude(m, rows, freq, gain, windowOct);
    if a != 0.0 then Finite(freq * m.pow10((gain - 3.0) / (20.0 * a)))
    else if gain < 3.0 then Finite(0.0)
    else if gain == 3.0 || freq == 0.0 then NaN
    else if freq > 0.0 then PlusInf
    else MinusInf
  }

  /** `if q > max_q: max_q elif q < min_q: min_q`. */
  function Clamp(q: real, minQ: real, maxQ: real): (r: real)
    ensures minQ <= maxQ ==> minQ <= r <= maxQ
    ensures minQ <= q <= maxQ ==> r == q
  {
    if q > maxQ then maxQ else if q < minQ then minQ else q
  }

  /**
   * `estimate_q_factor`: `default_q` as it is when the neighbour lies below
   * `freq`; otherwise 1.41 divided by the octave distance between the
   * neighbour and its mirror image below `freq`, clamped. A zero distance
   * gives 1.41/0 = inf, which the clamp turns into `max_q`; an infinite
   * neighbour mirrors to 10^−inf = 0, so the distance is inf, 1.41/inf = 0
   * and the clamp decides. Outside the default path and the NaN neighbour
   * the answer lies in [min_q, max_q].
   */
  function EstimateQ(m: Math, rows: seq<Row>, freq: real, gain: real, windowOct: real,
                     maxQ: real, minQ: real, defaultQ: real): (q: real)
    ensures var n := NeighborFreq(m, rows, freq, gain, windowOct);
      minQ <= maxQ && !Below(n, freq) && !n.NaN? ==> minQ <= q <= maxQ
  {
    match NeighborFreq(m, rows, freq, gain, windowOct)
    case MinusInf => defaultQ
    case NaN => defaultQ
    case PlusInf => Clamp(0.0, minQ, maxQ)
    case Finite(n) =>
      if n < freq then defaultQ
      else
        var mfreq := m.pow10(m.log10(freq) - (m.log10(n) - m.log10(freq)));
        var oct := m.log2(n / mfreq);
        if oct == 0.0 then maxQ else Clamp(1.41 / oct, minQ, maxQ)
  }

  /** Below-frequency neighbours return `default_q` untouched, even outside [min_q, max_q]. */
  lemma EstimateQDefault(m: Math, rows: seq<Row>, freq: real, gain: real, windowOct: real,
                         maxQ: real, minQ: real, defaultQ: real)
    requires Below(NeighborFreq(m, rows, freq, gain, windowOct), freq)
    ensures EstimateQ(m, rows, freq, gain, windowOct, maxQ, minQ, defaultQ) == defaultQ
  {
  }

  /** With `default_q` itself in range, every answer is in [min_q, max_q]. */
  lemma EstimateQBounds(m: Math, rows: seq<Row>, freq: real, gain: real, windowOct: real,
                        maxQ: real, minQ: real, defaultQ: real)
    requires minQ <= defaultQ <= maxQ
    ensures minQ <= EstimateQ(m, rows, freq, gain, windowOct, maxQ, minQ, defaultQ) <= maxQ
  {
  }

  /**
   * A zero amplitude below 3 dB, which a failed fit at zero gain produces,
   * leaves a zero neighbour and so, at a positive frequency, the default path.
   */
  lemma ZeroAmplitudeLowGain(m: Math, rows: seq<Row>, freq: real, gain: real, windowOct: real,
                             maxQ: real, minQ: real, defaultQ: real)
    requires freq > 0.0 && gain < 3.0 && Amplitude(m, rows, freq, gain, windowOct) == 0.0
    ensures NeighborFreq(m, rows, freq, gain, windowOct) == Finite(0.0)
    ensures EstimateQ(m, rows, freq, gain, windowOct, maxQ, minQ, defaultQ) == defaultQ
  {
  }

  /**
   * A fitted amplitude of zero above 3 dB gives an infinite neighbour, a Q of
   * 1.41/inf = 0 and so, under a positive `min_q`, exactly `min_q`.
   */
  lemma ZeroAmplitudeHighGain(m: Math, rows: seq<Row>, freq: real, gain: real, windowOct: real,
                              maxQ: real, minQ: real, defaultQ: real)
    requires freq > 0.0 && gain > 3.0 && Amplitude(m, rows, freq, gain, windowOct) == 0.0
    ensures NeighborFreq(m, rows, freq, gain, windowOct) == PlusInf
    ensures EstimateQ(m, rows, freq, gain, windowOct, maxQ, minQ, defaultQ) == Clamp(0.0, minQ, maxQ)
    ensures 0.0 < minQ <= maxQ ==> EstimateQ(m, rows, freq, gain, windowOct, maxQ, minQ, defaultQ) == minQ
  {
  }

  /** The Q `find_dips` gives each dip, `estimate_q_factor(..., 0.1, 8, 1, 4) + 2`, lies in [3, 10]. */
  function DipQ(m: Math, rows: seq<Row>, freq: real, gain: real): (q: real)
    ensures 3.0 <= q <= 10.0
  {
    EstimateQBounds(m, rows, freq, gain, 0.1, 8.0, 1.0, 4.0);
    EstimateQ(m, rows, freq, gain, 0.1, 8.0, 1.0, 4.0) + 2.0
  }

  lemma DipQDefault(m: Math, rows: seq<Row>, freq: real, gain: real)
    requires Below(NeighborFreq(m, rows, freq, gain, 0.1), freq)
    ensures DipQ(m, rows, freq, gain) == 6.0
  {
  }
  // ----------------------------------------------------------------------
  // find_dips: the peak-spacing filter

  /** Minimum peak-to-peak spacing in octaves. */
  const MinPeakDistance: real := 0.5

  /**
   * The list edit of one pass: append `p` when it is `spaced`; then, when it
   * is `deeper`, replace the last kept entry by `p`.
   */
  function KeepPeak(kept: seq<int>, p: int, spaced: bool, deeper: bool): (r: seq<int>)
    requires kept != []
    ensures r != []
  {
    var appended := if spaced then kept + [p] else kept;
    if deeper then appended[..|appended| - 1] + [p] else appended
  }

  /** `peaks[i]` lies at least half an octave above its raw predecessor `peaks[i-1]`. */
  predicate Spaced(m: Math, freqs: seq<real>, peaks: seq<int>, i: nat)
    requires PeakIndices(peaks, |freqs|) && 1 <= i < |peaks|
  {
    m.log2(freqs[peaks[i]]) - m.log2(freqs[peaks[i - 1]]) >= MinPeakDistance
  }

  /** `peaks[i]` has a lower gain than its raw predecessor `peaks[i-1]`. */
  predicate Deeper(gains: seq<real>, peaks: seq<int>, i: nat)
    requires PeakIndices(peaks, |gains|) && 1 <= i < |peaks|
  {
    gains[peaks[i]] < gains[peaks[i - 1]]
  }

  /**
   * One pass of the spacing loop for `peaks[i]`: it counts as spaced when it
   * lies at least half an octave above its raw predecessor `peaks[i-1]` (not
   * the last kept peak), and as deeper when its gain is below that
   * predecessor's.
   */
  function SpacingStep(m: Math, freqs: seq<real>, gains: seq<real>, peaks: seq<int>,
                       kept: seq<int>, i: nat): (r: seq<int>)
    requires |gains| == |freqs| && PeakIndices(peaks, |freqs|)
    requires 1 <= i < |peaks| && kept != []
    ensures r != []
  {
    KeepPeak(kept, peaks[i], Spaced(m, freqs, peaks, i), Deeper(gains, peaks, i))
  }

  /** The kept list after the passes for `peaks[1..n]`, starting from `[peaks[0]]`. */
  function Spacing(m: Math, freqs: seq<real>, gains: seq<real>, peaks: seq<int>, n: nat): (r: seq<int>)
    requires |gains| == |freqs| && PeakIndices(peaks, |freqs|)
    requires 1 <= n <= |peaks|
    ensures r != []
  {
    if n == 1 then [peaks[0]]
    else SpacingStep(m, freqs, gains, peaks, Spacing(m, freqs, gains, peaks, n - 1), n - 1)
  }

  /**
   * The spacing loop of `find_dips`. `peaks[0]` raises on an empty peak
   * list; `ok` is false exactly then.
   */
  method FilterPeaks(m: Math, freqs: seq<real>, gains: seq<real>, peaks: seq<int>)
      returns (ok: bool, filtered: seq<int>)
    requires |gains| == |freqs| && PeakIndices(peaks, |freqs|)
    ensures ok <==> peaks != []
    ensures ok ==> filtered == Spacing(m, freqs, gains, peaks, |peaks|)
  {
    if |peaks| == 0 {
      return false, [];
    }
    ok := true;
    filtered := [peaks[0]];
    var i := 1;
    while i < |peaks|
      invariant 1 <= i <= |peaks|
      invariant filtered == Spacing(m, freqs, gains, peaks, i)
    {
      if m.log2(freqs[peaks[i]]) - m.log2(freqs[peaks[i - 1]]) >= MinPeakDistance {
        filtered := filtered + [peaks[i]];
      }
      if gains[peaks[i]] < gains[peaks[i - 1]] {
        filtered := filtered[..|filtered| - 1];
        filtered := filtered + [peaks[i]];
      }
      i := i + 1;
    }
  }

  predicate IncreasingInts(s: seq<int>) {
    forall j, k :: 0 <= j < k < |s| ==> s[j] < s[k]
  }

  /** Every peak of the prefix `peaks[..i]` is below `peaks[i]`. */
  lemma PrefixBelow(peaks: seq<int>, n: nat, i: nat, kept: seq<int>)
    requires PeakIndices(peaks, n) && i < |peaks|
    requires forall x :: x in kept ==> x in peaks[..i]
    ensures forall x :: x in kept ==> x < peaks[i]
  {
    forall x | x in kept ensures x < peaks[i] {
      var j :| 0 <= j < i && peaks[..i][j] == x;
    }
  }

  lemma AppendAbove(kept: seq<int>, p: int)
    requires IncreasingInts(kept) && forall x :: x in kept ==> x < p
    ensures IncreasingInts(kept + [p])
  {
    forall j, k | 0 <= j < k < |kept + [p]| ensures (kept + [p])[j] < (kept + [p])[k] {
      if k == |kept| {
        assert kept[j] in kept;
      }
    }
  }

  lemma DropLast(s: seq<int>)
    requires s != [] && IncreasingInts(s)
    ensures IncreasingInts(s[..|s| - 1]) && forall x :: x in s[..|s| - 1] ==> x in s
  {
  }

  /** The list edit keeps the list increasing and adds nothing but `p`, at most once. */
  lemma KeepPeakShape(kept: seq<int>, p: int, spaced: bool, deeper: bool)
    requires kept != [] && IncreasingInts(kept) && forall x :: x in kept ==> x < p
    ensures var r := KeepPeak(kept, p, spaced, deeper);
      && |r| <= |kept| + 1
      && IncreasingInts(r)
      && forall x :: x in r ==> x in kept || x == p
  {
    AppendAbove(kept, p);
    var appended := if spaced then kept + [p] else kept;
    if deeper {
      var dropped := appended[..|appended| - 1];
      DropLast(appended);
      assert forall x :: x in dropped ==> x in kept by {
        if spaced {
          assert dropped == kept;
        }
      }
      AppendAbove(dropped, p);
    }
  }

  /** `r` is no longer than `n`, strictly increasing, and drawn from `peaks[..n]`. */
  ghost predicate KeptShape(r: seq<int>, peaks: seq<int>, n: nat)
    requires n <= |peaks|
  {
    |r| <= n && IncreasingInts(r) && forall x :: x in r ==> x in peaks[..n]
  }

  /** One pass keeps the list increasing, within the prefix it has seen, and no longer than it. */
  lemma StepShape(m: Math, freqs: seq<real>, gains: seq<real>, peaks: seq<int>, kept: seq<int>, i: nat)
    requires |gains| == |freqs| && PeakIndices(peaks, |freqs|)
    requires 1 <= i < |peaks| && kept != [] && KeptShape(kept, peaks, i)
    ensures KeptShape(SpacingStep(m, freqs, gains, peaks, kept, i), peaks, i + 1)
  {
    assert peaks[..i + 1] == peaks[..i] + [peaks[i]];
    PrefixBelow(peaks, |freqs|, i, kept);
    KeepPeakShape(kept, peaks[i],
                  m.log2(freqs[peaks[i]]) - m.log2(freqs[peaks[i - 1]]) >= MinPeakDistance,
                  gains[peaks[i]] < gains[peaks[i - 1]]);
  }

  /**
   * The kept list is no longer than the prefix it was built from, strictly
   * increasing, and made of peaks from that prefix only.
   */
  lemma {:induction false} SpacingShape(m: Math, freqs: seq<real>, gains: seq<real>, peaks: seq<int>, n: nat)
    requires |gains| == |freqs| && PeakIndices(peaks, |freqs|)
    requires 1 <= n <= |peaks|
    ensures KeptShape(Spacing(m, freqs, gains, peaks, n), peaks, n)
  {
    if n == 1 {
      assert peaks[..1] == [peaks[0]];
    } else {
      SpacingShape(m, freqs, gains, peaks, n - 1);
      var kept := Spacing(m, freqs, gains, peaks, n - 1);
      StepShape(m, freqs, gains, peaks, kept, n - 1);
    }
  }

  /** Every kept peak indexes the axis. */
  lemma SpacingInRange(m: Math, freqs: seq<real>, gains: seq<real>, peaks: seq<int>, kept: seq<int>)
    requires |gains| == |freqs| && PeakIndices(peaks, |freqs|) && peaks != []
    requires kept == Spacing(m, freqs, gains, peaks, |peaks|)
    ensures forall k :: 0 <= k < |kept| ==> 0 <= kept[k] < |freqs|
  {
    SpacingShape(m, freqs, gains, peaks, |peaks|);
    forall k | 0 <= k < |kept| ensures 0 <= kept[k] < |freqs| {
      assert kept[k] in peaks[..|peaks|];
    }
  }

  /** A peak that is both far enough and deeper than its predecessor is appended exactly once at its pass. */
  lemma SpacedAndDeeper(m: Math, freqs: seq<real>, gains: seq<real>, peaks: seq<int>, kept: seq<int>, i: nat)
    requires |gains| == |freqs| && PeakIndices(peaks, |freqs|)
    requires 1 <= i < |peaks| && kept != []
    requires m.log2(freqs[peaks[i]]) - m.log2(freqs[peaks[i - 1]]) >= MinPeakDistance
    requires gains[peaks[i]] < gains[peaks[i - 1]]
    ensures SpacingStep(m, freqs, gains, peaks, kept, i) == kept + [peaks[i]]
  {
    assert (kept + [peaks[i]])[..|kept + [peaks[i]]| - 1] == kept;
  }

  /**
   * A peak less than half an octave above its raw predecessor and not
   * deeper than it is never kept, whatever follows it.
   */
  lemma {:induction false} SpacingExcludes(m: Math, freqs: seq<real>, gains: seq<real>, peaks: seq<int>, n: nat, i: nat)
    requires |gains| == |freqs| && PeakIndices(peaks, |freqs|)
    requires 1 <= i < n <= |peaks|
    requires !Spaced(m, freqs, peaks, i) && !Deeper(gains, peaks, i)
    ensures peaks[i] !in Spacing(m, freqs, gains, peaks, n)
  {
    var kept := Spacing(m, freqs, gains, peaks, n - 1);
    assert Spacing(m, freqs, gains, peaks, n) ==
      KeepPeak(kept, peaks[n - 1], Spaced(m, freqs, peaks, n - 1), Deeper(gains, peaks, n - 1));
    if n == i + 1 {
      SpacingShape(m, freqs, gains, peaks, i);
      PrefixBelow(peaks, |freqs|, i, kept);
    } else {
      SpacingExcludes(m, freqs, gains, peaks, n - 1, i);
      assert peaks[i] < peaks[n - 1];
      KeepPeakMembers(kept, peaks[n - 1], Spaced(m, freqs, peaks, n - 1), Deeper(gains, peaks, n - 1));
    }
  }

  /** The list edit adds nothing but `p`. */
  lemma KeepPeakMembers(kept: seq<int>, p: int, spaced: bool, deeper: bool)
    requires kept != []
    ensures forall x :: x in KeepPeak(kept, p, spaced, deeper) ==> x in kept || x == p
  {
    var appended := if spaced then kept + [p] else kept;
    assert forall x :: x in appended[..|appended| - 1] ==> x in appended;
  }

  /** `x` is the first peak, or a peak among `peaks[1..n]` that passed one of the two tests at its pass. */
  ghost predicate Admitted(m: Math, freqs: seq<real>, gains: seq<real>, peaks: seq<int>, n: nat, x: int)
    requires |gains| == |freqs| && PeakIndices(peaks, |freqs|) && 1 <= n <= |peaks|
  {
    x == peaks[0] ||
    exists i :: 1 <= i < n && peaks[i] == x && (Spaced(m, freqs, peaks, i) || Deeper(gains, peaks, i))
  }

  /** Every kept peak is the first one or passed the spacing or the depth test against its predecessor. */
  lemma {:induction false} SpacingKeepsAdmitted(m: Math, freqs: seq<real>, gains: seq<real>, peaks: seq<int>, n: nat)
    requires |gains| == |freqs| && PeakIndices(peaks, |freqs|)
    requires 1 <= n <= |peaks|
    ensures forall x :: x in Spacing(m, freqs, gains, peaks, n) ==> Admitted(m, freqs, gains, peaks, n, x)
  {
    if n > 1 {
      SpacingKeepsAdmitted(m, freqs, gains, peaks, n - 1);
      var kept := Spacing(m, freqs, gains, peaks, n - 1);
      var s, d := Spaced(m, freqs, peaks, n - 1), Deeper(gains, peaks, n - 1);
      SpacingShape(m, freqs, gains, peaks, n - 1);
      PrefixBelow(peaks, |freqs|, n - 1, kept);
      KeepPeakShape(kept, peaks[n - 1], s, d);
      var r := Spacing(m, freqs, gains, peaks, n);
      assert r == KeepPeak(kept, peaks[n - 1], s, d);
      forall x | x in r ensures Admitted(m, freqs, gains, peaks, n, x) {
        if x in kept {
          assert Admitted(m, freqs, gains, peaks, n - 1, x);
          if x != peaks[0] {
            var i :| 1 <= i < n - 1 && peaks[i] == x && (Spaced(m, freqs, peaks, i) || Deeper(gains, peaks, i));
            assert 1 <= i < n;
          }
        } else {
          assert x == peaks[n - 1];
          assert s || d;
        }
      }
    }
  }

  /** A strictly increasing axis of positive frequencies. */
  predicate PositiveAxis(freqs: seq<real>) {
    StrictlyIncreasing(freqs) && forall i :: 0 <= i < |freqs| ==> freqs[i] > 0.0
  }

  /** Indices into `freqs` whose consecutive frequencies lie at least half an octave apart. */
  ghost predicate SpacedApart(m: Math, freqs: seq<real>, kept: seq<int>) {
    && (forall k :: 0 <= k < |kept| ==> 0 <= kept[k] < |freqs|)
    && (forall k :: 0 <= k < |kept| - 1 ==> m.log2(freqs[kept[k + 1]]) - m.log2(freqs[kept[k]]) >= MinPeakDistance)
  }

  lemma AppendApart(m: Math, freqs: seq<real>, kept: seq<int>, p: int)
    requires SpacedApart(m, freqs, kept) && kept != [] && 0 <= p < |freqs|
    requires m.log2(freqs[p]) - m.log2(freqs[kept[|kept| - 1]]) >= MinPeakDistance
    ensures SpacedApart(m, freqs, kept + [p])
  {
    var r := kept + [p];
    forall k | 0 <= k < |r| - 1
      ensures m.log2(freqs[r[k + 1]]) - m.log2(freqs[r[k]]) >= MinPeakDistance
    {
      if k < |kept| - 1 {
        assert r[k] == kept[k] && r[k + 1] == kept[k + 1];
      }
    }
  }

  /** Moving the last entry further up the axis only widens the last gap. */
  lemma ReplaceLastApart(m: Math, freqs: seq<real>, kept: seq<int>, p: int)
    requires SpacedApart(m, freqs, kept) && kept != [] && 0 <= p < |freqs|
    requires PositiveAxis(freqs) && kept[|kept| - 1] < p
    ensures SpacedApart(m, freqs, kept[..|kept| - 1] + [p])
  {
    var init := kept[..|kept| - 1];
    if init == [] {
      assert init + [p] == [p];
    } else {
      assert SpacedApart(m, freqs, init) by {
        forall k | 0 <= k < |init| - 1
          ensures m.log2(freqs[init[k + 1]]) - m.log2(freqs[init[k]]) >= MinPeakDistance
        {
          assert init[k] == kept[k] && init[k + 1] == kept[k + 1];
        }
      }
      var last := kept[|kept| - 1];
      Log2Monotone(m, freqs[last], freqs[p]);
      assert init[|init| - 1] == kept[|kept| - 2];
      AppendApart(m, freqs, init, p);
    }
  }

  /** One pass keeps consecutive kept peaks half an octave apart on a positive increasing axis. */
  lemma StepApart(m: Math, freqs: seq<real>, gains: seq<real>, peaks: seq<int>, kept: seq<int>, i: nat)
    requires |gains| == |freqs| && PeakIndices(peaks, |freqs|) && PositiveAxis(freqs)
    requires 1 <= i < |peaks| && kept != [] && KeptShape(kept, peaks, i)
    requires SpacedApart(m, freqs, kept)
    ensures SpacedApart(m, freqs, SpacingStep(m, freqs, gains, peaks, kept, i))
  {
    var p, prev := peaks[i], peaks[i - 1];
    PrefixBelow(peaks, |freqs|, i, kept);
    var last := kept[|kept| - 1];
    assert last in kept;
    assert last <= prev by {
      var j :| 0 <= j < i && peaks[..i][j] == last;
      assert peaks[j] == last;
    }
    if Spaced(m, freqs, peaks, i) {
      if last < prev {
        Log2Monotone(m, freqs[last], freqs[prev]);
      }
      AppendApart(m, freqs, kept, p);
      assert (kept + [p])[..|kept + [p]| - 1] == kept;
    } else if Deeper(gains, peaks, i) {
      ReplaceLastApart(m, freqs, kept, p);
    }
  }

  /**
   * On a positive, strictly increasing axis consecutive kept peaks lie at
   * least half an octave apart: testing against the raw predecessor never
   * lets two kept peaks come closer, and a depth replacement only moves the
   * last kept peak further up.
   */
  lemma {:induction false} SpacingMinimum(m: Math, freqs: seq<real>, gains: seq<real>, peaks: seq<int>, n: nat)
    requires |gains| == |freqs| && PeakIndices(peaks, |freqs|) && PositiveAxis(freqs)
    requires 1 <= n <= |peaks|
    ensures SpacedApart(m, freqs, Spacing(m, freqs, gains, peaks, n))
  {
    if n > 1 {
      SpacingMinimum(m, freqs, gains, peaks, n - 1);
      SpacingShape(m, freqs, gains, peaks, n - 1);
      StepApart(m, freqs, gains, peaks, Spacing(m, freqs, gains, peaks, n - 1), n - 1);
    }
  }

  /**
   * The raw-predecessor test drops a peak the last-kept rule would keep:
   * `peaks[2]` lies at least half an octave above the kept `peaks[0]` but
   * under half an octave above the dropped `peaks[1]`.
   */
  lemma RawPredecessorDrops(m: Math, freqs: seq<real>, gains: seq<real>)
    requires 3 <= |gains| == |freqs| && PeakIndices([0, 1, 2], |freqs|)
    requires m.log2(freqs[1]) - m.log2(freqs[0]) < MinPeakDistance && gains[1] >= gains[0]
    requires m.log2(freqs[2]) - m.log2(freqs[1]) < MinPeakDistance && gains[2] >= gains[1]
    requires m.log2(freqs[2]) - m.log2(freqs[0]) >= MinPeakDistance
    ensures Spacing(m, freqs, gains, [0, 1, 2], 3) == [0]
  {
    var peaks := [0, 1, 2];
    assert Spacing(m, freqs, gains, peaks, 1) == [0];
    assert Spacing(m, freqs, gains, peaks, 2) == KeepPeak([0], 1, false, false);
  }

  // ----------------------------------------------------------------------
  // find_dips

  /** Frequencies increase strictly down the table. */
  predicate IncreasingRows(rows: seq<Row>) {
    forall i, j :: 0 <= i < j < |rows| ==> rows[i].freq < rows[j].freq
  }

  lemma {:induction false} InBandIncreasing(rows: seq<Row>, lo: real, hi: real)
    requires IncreasingRows(rows)
    ensures IncreasingRows(InBand(rows, lo, hi))
  {
    if rows != [] {
      assert IncreasingRows(rows[1..]) by {
        forall i, j | 0 <= i < j < |rows[1..]| ensures rows[1..][i].freq < rows[1..][j].freq {
          assert rows[1..][i] == rows[i + 1] && rows[1..][j] == rows[j + 1];
        }
      }
      InBandIncreasing(rows[1..], lo, hi);
      var rest := InBand(rows[1..], lo, hi);
      forall x | x in rest ensures rows[0].freq < x.freq {
        var k :| 0 <= k < |rows[1..]| && rows[1..][k] == x;
        assert rows[k + 1] == x;
      }
    }
  }

  function Negate(s: seq<real>): (r: seq<real>)
    ensures |r| == |s| && forall i :: 0 <= i < |s| ==> r[i] == -s[i]
  {
    seq(|s|, i requires 0 <= i < |s| => -s[i])
  }

  /** Inverting the gains twice gives them back. */
  lemma NegateInvolutive(s: seq<real>)
    ensures Negate(Negate(s)) == s
  {
    assert forall i :: 0 <= i < |s| ==> Negate(Negate(s))[i] == s[i];
  }

  /** Dip frequencies, their gains and their Q factors, in ascending order. */
  datatype DipSet = DipSet(freqs: seq<real>, gains: seq<real>, qs: seq<real>)

  /** The rows at the kept indices, and the dip Q of each, estimated against `filtered`. */
  function DipsAt(m: Math, filtered: seq<Row>, kept: seq<int>): (d: DipSet)
    requires forall k :: 0 <= k < |kept| ==> 0 <= kept[k] < |filtered|
    ensures |d.freqs| == |d.gains| == |d.qs| == |kept|
    ensures forall k :: 0 <= k < |kept| ==>
      Row(d.freqs[k], d.gains[k]) == filtered[kept[k]] && d.qs[k] == DipQ(m, filtered, d.freqs[k], d.gains[k])
  {
    DipSet(seq(|kept|, k requires 0 <= k < |kept| => filtered[kept[k]].freq),
           seq(|kept|, k requires 0 <= k < |kept| => filtered[kept[k]].gain),
           seq(|kept|, k requires 0 <= k < |kept| => DipQ(m, filtered, filtered[kept[k]].freq, filtered[kept[k]].gain)))
  }

  /**
   * What `find_dips(df, low_cutoff, high_cutoff)` returns: the spaced dips
   * of the rows inside the cutoffs, or `None` when no dip is detected (the
   * `peaks[0]` that raises).
   */
  function Dips(m: Math, rows: seq<Row>, low: real, high: real): Option<DipSet> {
    var filtered := InBand(rows, low, high);
    var freqs := Freqs(filtered);
    var gains := Gains(filtered);
    var peaks := m.detectPeaks(Negate(gains));
    PeaksInRange(m, Negate(gains));
    if peaks == [] then None
    else
      var kept := Spacing(m, freqs, gains, peaks, |peaks|);
      SpacingInRange(m, freqs, gains, peaks, kept);
      Some(DipsAt(m, filtered, kept))
  }

  /** The `q_factors` loop of `find_dips`: one dip Q per dip, in order. */
  method DipQs(m: Math, filtered: seq<Row>, dipFreqs: seq<real>, dipGains: seq<real>) returns (qs: seq<real>)
    requires |dipGains| == |dipFreqs|
    ensures |qs| == |dipFreqs|
    ensures forall k :: 0 <= k < |qs| ==> qs[k] == DipQ(m, filtered, dipFreqs[k], dipGains[k])
  {
    qs := [];
    var i := 0;
    while i < |dipFreqs|
      invariant 0 <= i <= |dipFreqs| && |qs| == i
      invariant forall k :: 0 <= k < i ==> qs[k] == DipQ(m, filtered, dipFreqs[k], dipGains[k])
    {
      qs := qs + [DipQ(m, filtered, dipFreqs[i], dipGains[i])];
      i := i + 1;
    }
  }

  method FindDips(m: Math, rows: seq<Row>, low: real, high: real) returns (r: Option<DipSet>)
    ensures r == Dips(m, rows, low, high)
  {
    var filtered := InBand(rows, low, high);
    var freqs := Freqs(filtered);
    var gains := Gains(filtered);
    var peaks := m.detectPeaks(Negate(gains));
    PeaksInRange(m, Negate(gains));
    var ok, kept := FilterPeaks(m, freqs, gains, peaks);
    if !ok {
      return None;
    }
    SpacingInRange(m, freqs, gains, peaks, kept);
    var dips := DipsAt(m, filtered, kept);
    // freqs[filtered_peaks] and gains[filtered_peaks]
    var dipFreqs := dips.freqs;
    var dipGains := dips.gains;
    var qs := DipQs(m, filtered, dipFreqs, dipGains);
    assert qs == dips.qs;
    r := Some(DipSet(dipFreqs, dipGains, qs));
  }

  /**
   * On a table of positive, strictly increasing frequencies, each dip
   * `find_dips` returns lies at least half an octave above the one before it.
   */
  lemma DipsApart(m: Math, rows: seq<Row>, low: real, high: real)
    requires IncreasingRows(rows) && forall i :: 0 <= i < |rows| ==> rows[i].freq > 0.0
    requires Dips(m, rows, low, high).Some?
    ensures var d := Dips(m, rows, low, high).value;
      forall k :: 0 <= k < |d.freqs| - 1 ==> m.log2(d.freqs[k + 1]) - m.log2(d.freqs[k]) >= MinPeakDistance
  {
    var filtered := InBand(rows, low, high);
    var freqs, gains := Freqs(filtered), Gains(filtered);
    var peaks := m.detectPeaks(Negate(gains));
    PeaksInRange(m, Negate(gains));
    var kept := Spacing(m, freqs, gains, peaks, |peaks|);
    SpacingInRange(m, freqs, gains, peaks, kept);
    assert Dips(m, rows, low, high) == Some(DipsAt(m, filtered, kept));
    PositiveBand(rows, low, high);
    SpacingMinimum(m, freqs, gains, peaks, |peaks|);
    KeptApartDips(m, filtered, kept);
  }

  /** The cutoff mask keeps a positive increasing table a positive increasing axis. */
  lemma PositiveBand(rows: seq<Row>, low: real, high: real)
    requires IncreasingRows(rows) && forall i :: 0 <= i < |rows| ==> rows[i].freq > 0.0
    ensures PositiveAxis(Freqs(InBand(rows, low, high)))
  {
    var filtered := InBand(rows, low, high);
    InBandIncreasing(rows, low, high);
    forall i | 0 <= i < |filtered| ensures filtered[i].freq > 0.0 {
      assert filtered[i] in rows;
    }
  }

  /** Indices half an octave apart on the axis give dip frequencies half an octave apart. */
  lemma KeptApartDips(m: Math, filtered: seq<Row>, kept: seq<int>)
    requires forall k :: 0 <= k < |kept| ==> 0 <= kept[k] < |filtered|
    requires SpacedApart(m, Freqs(filtered), kept)
    ensures var d := DipsAt(m, filtered, kept);
      forall k :: 0 <= k < |d.freqs| - 1 ==> m.log2(d.freqs[k + 1]) - m.log2(d.freqs[k]) >= MinPeakDistance
  {
    var d, freqs := DipsAt(m, filtered, kept), Freqs(filtered);
    forall k | 0 <= k < |d.freqs| - 1
      ensures m.log2(d.freqs[k + 1]) - m.log2(d.freqs[k]) >= MinPeakDistance
    {
      assert d.freqs[k] == freqs[kept[k]] && d.freqs[k + 1] == freqs[kept[k + 1]];
    }
  }

  /** What `DipsAt` promises for increasing in-range indices into rows inside the cutoffs. */
  lemma DipsAtShape(m: Math, filtered: seq<Row>, kept: seq<int>, low: real, high: real)
    requires forall k :: 0 <= k < |kept| ==> 0 <= kept[k] < |filtered|
    requires IncreasingInts(kept)
    requires forall i :: 0 <= i < |filtered| ==> low <= filtered[i].freq <= high
    ensures var d := DipsAt(m, filtered, kept);
      && (forall k :: 0 <= k < |d.freqs| ==> Row(d.freqs[k], d.gains[k]) in filtered && low <= d.freqs[k] <= high)
      && (forall k :: 0 <= k < |d.qs| ==> 3.0 <= d.qs[k] <= 10.0)
      && (IncreasingRows(filtered) ==> StrictlyIncreasing(d.freqs))
  {
    var d := DipsAt(m, filtered, kept);
    forall k | 0 <= k < |d.qs| ensures 3.0 <= d.qs[k] <= 10.0 {
      assert d.qs[k] == DipQ(m, filtered, d.freqs[k], d.gains[k]);
    }
    forall k | 0 <= k < |d.freqs| ensures Row(d.freqs[k], d.gains[k]) in filtered {
      assert filtered[kept[k]] in filtered;
    }
    if IncreasingRows(filtered) {
      forall i, j | 0 <= i < j < |d.freqs| ensures d.freqs[i] < d.freqs[j] {
        assert kept[i] < kept[j];
      }
    }
  }

  /**
   * Every dip is a row of the table inside the cutoffs, there is at least
   * one, the dips ascend strictly on an ascending table, and every dip Q is
   * in [3, 10].
   */
  lemma DipsShape(m: Math, rows: seq<Row>, low: real, high: real)
    requires Dips(m, rows, low, high).Some?
    ensures var d := Dips(m, rows, low, high).value;
      && 1 <= |d.freqs| == |d.gains| == |d.qs|
      && (forall k :: 0 <= k < |d.freqs| ==> Row(d.freqs[k], d.gains[k]) in rows && low <= d.freqs[k] <= high)
      && (forall k :: 0 <= k < |d.qs| ==> 3.0 <= d.qs[k] <= 10.0)
      && (IncreasingRows(rows) ==> StrictlyIncreasing(d.freqs))
  {
    var filtered := InBand(rows, low, high);
    var freqs := Freqs(filtered);
    var gains := Gains(filtered);
    var peaks := m.detectPeaks(Negate(gains));
    PeaksInRange(m, Negate(gains));
    var kept := Spacing(m, freqs, gains, peaks, |peaks|);
    SpacingShape(m, freqs, gains, peaks, |peaks|);
    SpacingInRange(m, freqs, gains, peaks, kept);
    assert Dips(m, rows, low, high) == Some(DipsAt(m, filtered, kept));
    if IncreasingRows(rows) {
      InBandIncreasing(rows, low, high);
    }
    DipsAtShape(m, filtered, kept, low, high);
  }

  // ----------------------------------------------------------------------
  // eq_make: 1000 Hz normalisation

  /** The gains moved so that the curve interpolates to 0 dB at 1000 Hz. */
  function Normalised(freqs: seq<real>, gains: seq<real>): (r: seq<real>)
    requires 0 < |freqs| == |gains| && AdjacentDistinct(freqs)
    ensures |r| == |gains|
  {
    Shift(gains, -Interpolate(freqs, gains, 1000.0))
  }

  lemma NormalisedAt1000(freqs: seq<real>, gains: seq<real>)
    requires 0 < |freqs| == |gains| && AdjacentDistinct(freqs)
    ensures Interpolate(freqs, Normalised(freqs, gains), 1000.0) == 0.0
  {
    InterpolateShift(freqs, gains, 1000.0, -Interpolate(freqs, gains, 1000.0));
  }

  lemma NormalisedIdempotent(freqs: seq<real>, gains: seq<real>)
    requires 0 < |freqs| == |gains| && AdjacentDistinct(freqs)
    ensures Normalised(freqs, Normalised(freqs, gains)) == Normalised(freqs, gains)
  {
    NormalisedAt1000(freqs, gains);
  }

  /**
   * `df_curve.loc[:, 'gain'] -= linear_interpolation(..., 1000)`, in place.
   * An empty table makes the interpolation raise; `ok` is false then and
   * nothing changes.
   */
  method Normalise(freqs: seq<real>, gains: array<real>) returns (ok: bool)
    requires gains.Length == |freqs| && AdjacentDistinct(freqs)
    modifies gains
    ensures ok <==> |freqs| > 0
    ensures ok ==> gains[..] == Normalised(freqs, old(gains[..]))
    ensures !ok ==> gains[..] == old(gains[..])
  {
    var g;
    ok, g := LinearInterpolation(freqs, gains[..], 1000.0);
    if !ok {
      return;
    }
    var i := 0;
    while i < gains.Length
      invariant 0 <= i <= gains.Length
      invariant forall k :: 0 <= k < i ==> gains[k] == old(gains[k]) - g
      invariant forall k :: i <= k < gains.Length ==> gains[k] == old(gains[k])
    {
      gains[i] := gains[i] - g;
      i := i + 1;
    }
    assert gains[..] == Normalised(freqs, old(gains[..]));
  }

  // ----------------------------------------------------------------------
  // eq_make: the target curve and the dip fill

  /**
   * `t_curve`: the target file interpolated onto `freqs` (passed in as
   * `tInterp`) plus the offset `target`, or the constant `target` when the
   * target file is off.
   */
  function TargetCurve(n: nat, targetOn: bool, tInterp: seq<real>, target: real): (t: seq<real>)
    requires targetOn ==> |tInterp| == n
    ensures |t| == n
    ensures !targetOn ==> forall i :: 0 <= i < n ==> t[i] == target
    ensures targetOn ==> forall i :: 0 <= i < n ==> t[i] == tInterp[i] + target
  {
    if targetOn then Shift(tInterp, target) else Constant(n, target)
  }

  /**
   * The offset `target` is the only difference between the two targets:
   * removing it from the file target gives the interpolated file curve back,
   * and a flat 0 dB target file gives the same curve as no file.
   */
  lemma TargetCurveOffset(n: nat, tInterp: seq<real>, target: real)
    requires |tInterp| == n
    ensures Shift(TargetCurve(n, true, tInterp, target), -target) == tInterp
    ensures TargetCurve(n, true, Zeros(n), target) == TargetCurve(n, false, tInterp, target)
  {
    assert forall i :: 0 <= i < n ==> Shift(TargetCurve(n, true, tInterp, target), -target)[i] == tInterp[i];
    assert forall i :: 0 <= i < n ==> TargetCurve(n, true, Zeros(n), target)[i] == target;
  }

  /** The position of `f` on an axis that holds it. */
  function IndexOf(freqs: seq<real>, f: real): (i: nat)
    requires f in freqs
    ensures i < |freqs| && freqs[i] == f
    ensures forall j :: 0 <= j < i ==> freqs[j] != f
  {
    if freqs[0] == f then 0 else 1 + IndexOf(freqs[1..], f)
  }

  /** Each dip gain minus the target curve at its own frequency. */
  function ReducedGains(dipFreqs: seq<real>, dipGains: seq<real>, freqs: seq<real>, tCurve: seq<real>): (r: seq<real>)
    requires |dipGains| == |dipFreqs| && |tCurve| == |freqs|
    requires forall k :: 0 <= k < |dipFreqs| ==> dipFreqs[k] in freqs
    ensures |r| == |dipGains|
    ensures forall k :: 0 <= k < |r| ==>
      exists i :: 0 <= i < |freqs| && freqs[i] == dipFreqs[k] && r[k] == dipGains[k] - tCurve[i]
  {
    var reduced := seq(|dipGains|, k requires 0 <= k < |dipGains| => dipGains[k] - tCurve[IndexOf(freqs, dipFreqs[k])]);
    assert |reduced| == |dipGains| && forall k :: 0 <= k < |reduced| ==>
      reduced[k] == dipGains[k] - tCurve[IndexOf(freqs, dipFreqs[k])];
    ReducedWitness(dipFreqs, dipGains, freqs, tCurve, reduced);
    reduced
  }

  lemma ReducedWitness(dipFreqs: seq<real>, dipGains: seq<real>, freqs: seq<real>, tCurve: seq<real>, reduced: seq<real>)
    requires |dipGains| == |dipFreqs| == |reduced| && |tCurve| == |freqs|
    requires forall k :: 0 <= k < |dipFreqs| ==> dipFreqs[k] in freqs
    requires forall k :: 0 <= k < |reduced| ==> reduced[k] == dipGains[k] - tCurve[IndexOf(freqs, dipFreqs[k])]
    ensures forall k :: 0 <= k < |reduced| ==>
      exists i :: 0 <= i < |freqs| && freqs[i] == dipFreqs[k] && reduced[k] == dipGains[k] - tCurve[i]
  {
    forall k | 0 <= k < |reduced|
      ensures exists i :: 0 <= i < |freqs| && freqs[i] == dipFreqs[k] && reduced[k] == dipGains[k] - tCurve[i]
    {
      var i := IndexOf(freqs, dipFreqs[k]);
      assert freqs[i] == dipFreqs[k] && reduced[k] == dipGains[k] - tCurve[i];
    }
  }

  /**
   * `for dip_freq in dip_freqs: dip_gains[dip_freqs == dip_freq] -= t_curve[freqs == dip_freq]`.
   * With distinct dips and a distinct axis each mask selects exactly one
   * element on either side, so pass k touches `dip_gains[k]` alone.
   */
  method ReduceDipGains(dipFreqs: seq<real>, dipGains: array<real>, freqs: seq<real>, tCurve: seq<real>)
    requires dipGains.Length == |dipFreqs| && |tCurve| == |freqs|
    requires StrictlyIncreasing(dipFreqs) && StrictlyIncreasing(freqs)
    requires forall k :: 0 <= k < |dipFreqs| ==> dipFreqs[k] in freqs
    modifies dipGains
    ensures dipGains[..] == ReducedGains(dipFreqs, old(dipGains[..]), freqs, tCurve)
  {
    var k := 0;
    while k < |dipFreqs|
      invariant 0 <= k <= |dipFreqs|
      invariant forall j :: 0 <= j < k ==> dipGains[j] == old(dipGains[j]) - tCurve[IndexOf(freqs, dipFreqs[j])]
      invariant forall j :: k <= j < |dipFreqs| ==> dipGains[j] == old(dipGains[j])
    {
      dipGains[k] := dipGains[k] - tCurve[IndexOf(freqs, dipFreqs[k])];
      k := k + 1;
    }
    assert dipGains[..] == ReducedGains(dipFreqs, old(dipGains[..]), freqs, tCurve);
  }

  /** Every band of the list has a non-zero Q. */
  lemma DipBandsValid(d: DipSet)
    requires |d.freqs| == |d.gains| == |d.qs|
    requires forall k :: 0 <= k < |d.qs| ==> 3.0 <= d.qs[k] <= 10.0
    ensures ValidBands(Zip3(d.freqs, d.gains, d.qs))
  {
  }

  /**
   * `t_curve_dips`: the target plus the dips' own EQ curve scaled by
   * 1 − dip_alpha, which partially fills the dips back into the target.
   */
  function DipFilledTarget(m: Math, d: DipSet, freqs: seq<real>, tCurve: seq<real>, alpha: real): (r: seq<real>)
    requires NonZeroAxis(freqs) && |tCurve| == |freqs|
    requires ValidBands(Zip3(d.freqs, d.gains, d.qs))
    ensures |r| == |freqs|
  {
    ApplyCurve(tCurve, Scale(EqCurve(m, Zip3(d.freqs, d.gains, d.qs), freqs), 1.0 - alpha))
  }

  /** With `dip_alpha` = 1 the dips contribute nothing and the target is unchanged. */
  lemma DipFillOff(m: Math, d: DipSet, freqs: seq<real>, tCurve: seq<real>)
    requires NonZeroAxis(freqs) && |tCurve| == |freqs|
    requires ValidBands(Zip3(d.freqs, d.gains, d.qs))
    ensures DipFilledTarget(m, d, freqs, tCurve, 1.0) == tCurve
  {
    var e := EqCurve(m, Zip3(d.freqs, d.gains, d.qs), freqs);
    assert Scale(e, 1.0 - 1.0) == Zeros(|freqs|);
    ApplyZeros(tCurve);
  }

  // ----------------------------------------------------------------------
  // eq_make: the band loop

  /** The `eq_make` inputs that steer the band loop. */
  datatype Settings = Settings(bandNum: nat, maxQ: real, minQ: real, defaultQ: real,
                               windowOct: real, low: real, high: real)

  /** Q limits under which every estimated Q can serve as a filter Q. */
  predicate UsableQ(s: Settings) {
    0.0 < s.minQ && 0.0 < s.maxQ && s.defaultQ != 0.0
  }

  /** Under usable limits the estimate is never 0, so `w0/Q` is defined. */
  lemma EstimateQNonZero(m: Math, rows: seq<Row>, freq: real, gain: real, s: Settings)
    requires UsableQ(s)
    ensures EstimateQ(m, rows, freq, gain, s.windowOct, s.maxQ, s.minQ, s.defaultQ) != 0.0
  {
  }

  /** `pd.DataFrame({'freq': freqs, 'gain': gains})`. */
  function Table(freqs: seq<real>, gains: seq<real>): (rows: seq<Row>)
    requires |freqs| == |gains|
    ensures |rows| == |freqs| && forall i :: 0 <= i < |rows| ==> rows[i] == Row(freqs[i], gains[i])
  {
    seq(|freqs|, i requires 0 <= i < |freqs| => Row(freqs[i], gains[i]))
  }

  /** Building the table and taking its two columns are inverse to each other. */
  lemma TableColumns(freqs: seq<real>, gains: seq<real>, rows: seq<Row>)
    requires |freqs| == |gains|
    ensures Freqs(Table(freqs, gains)) == freqs && Gains(Table(freqs, gains)) == gains
    ensures Table(Freqs(rows), Gains(rows)) == rows
  {
    assert forall i :: 0 <= i < |rows| ==> Table(Freqs(rows), Gains(rows))[i] == rows[i];
  }

  /** The loop state: the bands chosen so far and the residual curve they leave. */
  datatype BandState = BandState(f0s: seq<real>, gains: seq<real>, qs: seq<real>, residual: seq<real>)

  /** Three lists of one length whose Qs are usable, and a residual on the `n`-point axis. */
  predicate Shaped(st: BandState, n: nat) {
    |st.f0s| == |st.gains| == |st.qs| && |st.residual| == n && forall k :: 0 <= k < |st.qs| ==> st.qs[k] != 0.0
  }

  lemma ShapedBands(st: BandState, n: nat)
    requires Shaped(st, n)
    ensures ValidBands(Zip3(st.f0s, st.gains, st.qs))
  {
  }

  /**
   * `f0s`, `eq_gains` and `q_factors` each extended by one band, and the
   * residual re-derived as `apply_curve(gains0, calculate_eq_curve(...))`
   * over every band so far.
   */
  function Extend(m: Math, freqs: seq<real>, gains0: seq<real>, st: BandState, b: Band): (r: BandState)
    requires NonZeroAxis(freqs) && |gains0| == |freqs| && Shaped(st, |freqs|) && b.q != 0.0
    ensures Shaped(r, |freqs|) && |r.f0s| == |st.f0s| + 1
    ensures r.f0s == st.f0s + [b.freq] && r.gains == st.gains + [b.gain] && r.qs == st.qs + [b.q]
    ensures Zip3(r.f0s, r.gains, r.qs) == Zip3(st.f0s, st.gains, st.qs) + [b]
    ensures r.residual == ApplyCurve(gains0, EqCurve(m, Zip3(r.f0s, r.gains, r.qs), freqs))
  {
    var f0s, gains, qs := st.f0s + [b.freq], st.gains + [b.gain], st.qs + [b.q];
    assert Zip3(f0s, gains, qs) == Zip3(st.f0s, st.gains, st.qs) + [b];
    ShapedBands(BandState(f0s, gains, qs, st.residual), |freqs|);
    BandState(f0s, gains, qs, ApplyCurve(gains0, EqCurve(m, Zip3(f0s, gains, qs), freqs)))
  }

  /**
   * The row `find_peak_and_dip` picks from the in-band part of the residual
   * against the target `tDips` on the same axis, or `None` when it raises.
   */
  function Pick(s: Settings, freqs: seq<real>, residual: seq<real>, tDips: seq<real>): (t: Option<Row>)
    requires |residual| == |freqs| == |tDips|
    ensures t.Some? ==> exists i :: 0 <= i < |freqs| && Row(freqs[i], residual[i]) == t.value && s.low <= freqs[i] <= s.high
    ensures t.Some? ==> t.value.freq in freqs
  {
    var t := FindPeakAndDip(InBand(Table(freqs, residual), s.low, s.high), Table(freqs, tDips));
    if t.None? then t
    else
      PickedRow(freqs, residual, s.low, s.high, t.value);
      t
  }

  /** A row of the in-band table is a sample of the axis inside the band. */
  lemma PickedRow(freqs: seq<real>, residual: seq<real>, lo: real, hi: real, x: Row)
    requires |residual| == |freqs| && x in InBand(Table(freqs, residual), lo, hi)
    ensures exists i :: 0 <= i < |freqs| && Row(freqs[i], residual[i]) == x && lo <= freqs[i] <= hi
  {
    var rows := Table(freqs, residual);
    var band := InBand(rows, lo, hi);
    var k :| 0 <= k < |band| && band[k] == x;
    assert x in rows && lo <= x.freq <= hi;
    var i :| 0 <= i < |rows| && rows[i] == x;
    assert Row(freqs[i], residual[i]) == x;
  }

  /**
   * The band one pass adds at the picked row `t`: gain −(residual − target)
   * there, with the target read at the first sample of that frequency, and
   * the Q estimated on the whole residual.
   */
  function NewBand(m: Math, s: Settings, freqs: seq<real>, residual: seq<real>, tDips: seq<real>, t: Row): (b: Band)
    requires |residual| == |freqs| == |tDips| && UsableQ(s) && t.freq in freqs
    ensures b.freq == t.freq && b.q != 0.0
    ensures b.gain == tDips[IndexOf(freqs, t.freq)] - t.gain
    ensures b.q == EstimateQ(m, Table(freqs, residual), t.freq, t.gain, s.windowOct, s.maxQ, s.minQ, s.defaultQ)
  {
    EstimateQNonZero(m, Table(freqs, residual), t.freq, t.gain, s);
    Band(t.freq, -t.gain + tDips[IndexOf(freqs, t.freq)],
         EstimateQ(m, Table(freqs, residual), t.freq, t.gain, s.windowOct, s.maxQ, s.minQ, s.defaultQ))
  }

  /** One pass of the loop at state `st`, or `None` when `find_peak_and_dip` raises. */
  function BandStep(m: Math, s: Settings, freqs: seq<real>, gains0: seq<real>, tDips: seq<real>, st: BandState)
      : (r: Option<BandState>)
    requires NonZeroAxis(freqs) && |gains0| == |freqs| == |tDips| && UsableQ(s) && Shaped(st, |freqs|)
    ensures r.Some? ==> Shaped(r.value, |freqs|) && |r.value.f0s| == |st.f0s| + 1
  {
    var t := Pick(s, freqs, st.residual, tDips);
    if t.None? then None
    else Some(Extend(m, freqs, gains0, st, NewBand(m, s, freqs, st.residual, tDips, t.value)))
  }

  /** The state after `k` passes of `for i in range(0, band_num)`, or `None` once a pass raised. */
  function BandRun(m: Math, s: Settings, freqs: seq<real>, gains0: seq<real>, tDips: seq<real>, k: nat)
      : (r: Option<BandState>)
    requires NonZeroAxis(freqs) && |gains0| == |freqs| == |tDips| && UsableQ(s)
    ensures r.Some? ==> Shaped(r.value, |freqs|) && |r.value.f0s| == k
  {
    if k == 0 then Some(BandState([], [], [], gains0))
    else
      var prev := BandRun(m, s, freqs, gains0, tDips, k - 1);
      if prev.None? then None else BandStep(m, s, freqs, gains0, tDips, prev.value)
  }

  /** The residual is always the normalised curve plus the EQ curve of every band so far. */
  lemma BandRunResidual(m: Math, s: Settings, freqs: seq<real>, gains0: seq<real>, tDips: seq<real>, k: nat)
    requires NonZeroAxis(freqs) && |gains0| == |freqs| == |tDips| && UsableQ(s)
    requires BandRun(m, s, freqs, gains0, tDips, k).Some?
    ensures var st := BandRun(m, s, freqs, gains0, tDips, k).value;
      st.residual == ApplyCurve(gains0, EqCurve(m, Zip3(st.f0s, st.gains, st.qs), freqs))
  {
    if k == 0 {
      ApplyZeros(gains0);
    } else {
      var prev := BandRun(m, s, freqs, gains0, tDips, k - 1);
      assert BandRun(m, s, freqs, gains0, tDips, k) == BandStep(m, s, freqs, gains0, tDips, prev.value);
    }
  }

  /** The three band lists of `a` are the first `n` entries of those of `b`. */
  predicate ListsPrefix(a: BandState, b: BandState, n: nat) {
    n <= |b.f0s| && n <= |b.gains| && n <= |b.qs| && a.f0s == b.f0s[..n] && a.gains == b.gains[..n] && a.qs == b.qs[..n]
  }

  lemma ListsPrefixTrans(a: BandState, c: BandState, b: BandState, n: nat, i: nat)
    requires n <= i && ListsPrefix(a, c, n) && ListsPrefix(c, b, i)
    ensures ListsPrefix(a, b, n)
  {
    assert b.f0s[..i][..n] == b.f0s[..n] && b.gains[..i][..n] == b.gains[..n] && b.qs[..i][..n] == b.qs[..n];
  }

  /** A pass only appends: the state before it is the state after it less its last band. */
  lemma BandRunPrefixStep(m: Math, s: Settings, freqs: seq<real>, gains0: seq<real>, tDips: seq<real>, j: nat, k: nat)
    requires NonZeroAxis(freqs) && |gains0| == |freqs| == |tDips| && UsableQ(s)
    requires k == j + 1 && BandRun(m, s, freqs, gains0, tDips, k).Some?
    ensures BandRun(m, s, freqs, gains0, tDips, j).Some?
    ensures ListsPrefix(BandRun(m, s, freqs, gains0, tDips, j).value, BandRun(m, s, freqs, gains0, tDips, k).value, j)
  {
    var a, b := BandRun(m, s, freqs, gains0, tDips, j).value, BandRun(m, s, freqs, gains0, tDips, k).value;
    assert b.f0s == a.f0s + [b.f0s[j]] && b.gains == a.gains + [b.gains[j]] && b.qs == a.qs + [b.qs[j]];
  }

  /** Later passes only append: the state after `j ≤ k` passes is a prefix of the state after `k`. */
  lemma BandRunPrefix(m: Math, s: Settings, freqs: seq<real>, gains0: seq<real>, tDips: seq<real>, j: nat, k: nat)
    requires NonZeroAxis(freqs) && |gains0| == |freqs| == |tDips| && UsableQ(s)
    requires j <= k && BandRun(m, s, freqs, gains0, tDips, k).Some?
    ensures BandRun(m, s, freqs, gains0, tDips, j).Some?
    ensures ListsPrefix(BandRun(m, s, freqs, gains0, tDips, j).value, BandRun(m, s, freqs, gains0, tDips, k).value, j)
  {
    var b := BandRun(m, s, freqs, gains0, tDips, k).value;
    var i := k;
    var a := b;
    assert ListsPrefix(a, b, k);
    while i > j
      invariant j <= i <= k && BandRun(m, s, freqs, gains0, tDips, i) == Some(a) && ListsPrefix(a, b, i)
    {
      var p := i - 1;
      BandRunPrefixStep(m, s, freqs, gains0, tDips, p, i);
      var c := BandRun(m, s, freqs, gains0, tDips, p).value;
      ListsPrefixTrans(c, a, b, p, i);
      a, i := c, p;
    }
  }

  /** Once a pass raises, every longer run raises too. */
  lemma BandRunStaysFailed(m: Math, s: Settings, freqs: seq<real>, gains0: seq<real>, tDips: seq<real>,
                            j: nat, k: nat)
    requires NonZeroAxis(freqs) && |gains0| == |freqs| == |tDips| && UsableQ(s)
    requires j <= k && BandRun(m, s, freqs, gains0, tDips, j).None?
    ensures BandRun(m, s, freqs, gains0, tDips, k).None?
  {
    var i := j;
    while i < k
      invariant j <= i <= k && BandRun(m, s, freqs, gains0, tDips, i).None?
    {
      i := i + 1;
      BandRunFailStep(m, s, freqs, gains0, tDips, i);
    }
  }

  lemma BandRunFailStep(m: Math, s: Settings, freqs: seq<real>, gains0: seq<real>, tDips: seq<real>, k: nat)
    requires NonZeroAxis(freqs) && |gains0| == |freqs| == |tDips| && UsableQ(s)
    requires k > 0 && BandRun(m, s, freqs, gains0, tDips, k - 1).None?
    ensures BandRun(m, s, freqs, gains0, tDips, k).None?
  {
  }

  /**
   * One pass adds, at the row `t` that `find_peak_and_dip` picks from the
   * residual (an in-band sample of it, by `Pick`'s contract), the gain
   * target − residual there and the Q estimated on the whole residual.
   */
  lemma BandStepChoice(m: Math, s: Settings, freqs: seq<real>, gains0: seq<real>, tDips: seq<real>, st: BandState)
    requires NonZeroAxis(freqs) && |gains0| == |freqs| == |tDips| && UsableQ(s) && Shaped(st, |freqs|)
    requires BandStep(m, s, freqs, gains0, tDips, st).Some?
    ensures Pick(s, freqs, st.residual, tDips).Some?
    ensures var next, k, t := BandStep(m, s, freqs, gains0, tDips, st).value, |st.f0s|, Pick(s, freqs, st.residual, tDips).value;
      && t.freq in freqs
      && next.f0s[k] == t.freq
      && next.gains[k] == tDips[IndexOf(freqs, t.freq)] - t.gain
      && next.qs[k] == EstimateQ(m, Table(freqs, st.residual), t.freq, t.gain, s.windowOct, s.maxQ, s.minQ, s.defaultQ)
  {
    var t := Pick(s, freqs, st.residual, tDips).value;
    var b := NewBand(m, s, freqs, st.residual, tDips, t);
    var next := Extend(m, freqs, gains0, st, b);
    assert BandStep(m, s, freqs, gains0, tDips, st).value == next;
    var k := |st.f0s|;
    assert next.f0s[k] == b.freq && next.gains[k] == b.gain && next.qs[k] == b.q;
  }

  /** `BandStepChoice` for pass `k`, counting from 1, of the run. */
  lemma BandRunChoice(m: Math, s: Settings, freqs: seq<real>, gains0: seq<real>, tDips: seq<real>, k: nat)
    requires NonZeroAxis(freqs) && |gains0| == |freqs| == |tDips| && UsableQ(s)
    requires k > 0 && BandRun(m, s, freqs, gains0, tDips, k).Some?
    ensures BandRun(m, s, freqs, gains0, tDips, k - 1).Some?
    ensures var st, next := BandRun(m, s, freqs, gains0, tDips, k - 1).value, BandRun(m, s, freqs, gains0, tDips, k).value;
      && Pick(s, freqs, st.residual, tDips).Some?
      && var t := Pick(s, freqs, st.residual, tDips).value;
      && t.freq in freqs
      && next.f0s[k - 1] == t.freq
      && next.gains[k - 1] == tDips[IndexOf(freqs, t.freq)] - t.gain
      && next.qs[k - 1] == EstimateQ(m, Table(freqs, st.residual), t.freq, t.gain, s.windowOct, s.maxQ, s.minQ, s.defaultQ)
  {
    var st := BandRun(m, s, freqs, gains0, tDips, k - 1).value;
    BandStepChoice(m, s, freqs, gains0, tDips, st);
  }

  /** How pass `k` is obtained from the state after the `k - 1` before it. */
  lemma BandRunNext(m: Math, s: Settings, freqs: seq<real>, gains0: seq<real>, tDips: seq<real>, k: nat)
    requires NonZeroAxis(freqs) && |gains0| == |freqs| == |tDips| && UsableQ(s)
    requires k > 0 && BandRun(m, s, freqs, gains0, tDips, k - 1).Some?
    ensures BandRun(m, s, freqs, gains0, tDips, k)
      == BandStep(m, s, freqs, gains0, tDips, BandRun(m, s, freqs, gains0, tDips, k - 1).value)
  {
  }

  /**
   * The first half of the `eq_make` band loop body: filter the residual to
   * the cutoffs, pick the peak or dip against the dip-filled target `tDips`
   * and estimate its Q. `None` when the pick raises.
   */
  method ChooseBand(m: Math, s: Settings, freqs: seq<real>, tDips: seq<real>, residual: seq<real>)
      returns (r: Option<Band>)
    requires |residual| == |freqs| == |tDips| && UsableQ(s)
    ensures r.None? <==> Pick(s, freqs, residual, tDips).None?
    ensures r.Some? ==> r.value == NewBand(m, s, freqs, residual, tDips, Pick(s, freqs, residual, tDips).value)
  {
    var dfT := Table(freqs, tDips);
    var dfCurve := Table(freqs, residual);
    var dfFiltered := InBand(dfCurve, s.low, s.high);
    var target := FindPeakAndDip(dfFiltered, dfT);
    assert target == Pick(s, freqs, residual, tDips);
    if target.None? {
      return None;
    }
    var t := target.value;
    var q := EstimateQ(m, dfCurve, t.freq, t.gain, s.windowOct, s.maxQ, s.minQ, s.defaultQ);
    r := Some(Band(t.freq, -t.gain + tDips[IndexOf(freqs, t.freq)], q));
  }

  /**
   * The second half: append the band to `f0s`, `eq_gains` and `q_factors`
   * and recompute the residual from `gains0` with `calculate_eq_curve`.
   */
  method AppendBand(m: Math, freqs: seq<real>, gains0: seq<real>, st: BandState, b: Band) returns (r: BandState)
    requires NonZeroAxis(freqs) && |gains0| == |freqs| && Shaped(st, |freqs|) && b.q != 0.0
    ensures r == Extend(m, freqs, gains0, st, b)
  {
    var qFactors := st.qs + [b.q];
    var f0s := st.f0s + [b.freq];
    var eqGains := st.gains + [b.gain];
    ghost var after := Extend(m, freqs, gains0, st, b);
    ShapedBands(after, |freqs|);
    var eqCurve := CalculateEqCurve(m, f0s, eqGains, qFactors, freqs);
    r := BandState(f0s, eqGains, qFactors, ApplyCurve(gains0, eqCurve));
  }

  /** The `for i in range(0, band_num)` loop of `eq_make`; `ok` is false when a pass raises. */
  method RunBands(m: Math, s: Settings, freqs: seq<real>, gains0: seq<real>, tDips: seq<real>)
      returns (ok: bool, f0s: seq<real>, eqGains: seq<real>, qFactors: seq<real>, residual: seq<real>)
    requires NonZeroAxis(freqs) && |gains0| == |freqs| == |tDips| && UsableQ(s)
    ensures ok <==> BandRun(m, s, freqs, gains0, tDips, s.bandNum).Some?
    ensures ok ==> BandRun(m, s, freqs, gains0, tDips, s.bandNum) == Some(BandState(f0s, eqGains, qFactors, residual))
  {
    f0s, eqGains, qFactors := [], [], [];
    residual := gains0;
    var i := 0;
    while i < s.bandNum
      invariant 0 <= i <= s.bandNum
      invariant BandRun(m, s, freqs, gains0, tDips, i) == Some(BandState(f0s, eqGains, qFactors, residual))
    {
      var next := i + 1;
      BandRunNext(m, s, freqs, gains0, tDips, next);
      var band := ChooseBand(m, s, freqs, tDips, residual);
      if band.None? {
        BandRunStaysFailed(m, s, freqs, gains0, tDips, next, s.bandNum);
        return false, f0s, eqGains, qFactors, residual;
      }
      var r := AppendBand(m, freqs, gains0, BandState(f0s, eqGains, qFactors, residual), band.value);
      f0s, eqGains, qFactors, residual := r.f0s, r.gains, r.qs, r.residual;
      i := next;
    }
    ok := true;
  }

  // ----------------------------------------------------------------------
  // write_eq_settings

  /** The words and separators of `f"Filter {n}: ON  PK  Fc  {f:.2f} Hz  Gain  {g:.2f} dB  Q  {q:.3f}\n"`. */
  function FilterParts(fmt: Format, n: nat, b: Band): seq<(string, string)> {
    [("Filter", " "), (Decimal(n) + ":", " "), ("ON", "  "), ("PK", "  "), ("Fc", "  "),
     (fmt.fixed2(b.freq), " "), ("Hz", "  "), ("Gain", "  "), (fmt.fixed2(b.gain), " "),
     ("dB", "  "), ("Q", "  "), (fmt.fixed3(b.q), "\n")]
  }

  /** The settings line of band number `n`. */
  function FilterLine(fmt: Format, n: nat, b: Band): string {
    Glue(FilterParts(fmt, n, b))
  }

  /**
   * The whitespace-split words of a settings line: "Filter", the number
   * with its colon, "ON" at index 2 and the three formatted values at
   * indices 5, 8 and 11.
   */
  lemma FilterLineWords(fmt: Format, n: nat, b: Band)
    ensures Split(FilterLine(fmt, n, b)) ==
      ["Filter", Decimal(n) + ":", "ON", "PK", "Fc", fmt.fixed2(b.freq), "Hz", "Gain",
       fmt.fixed2(b.gain), "dB", "Q", fmt.fixed3(b.q)]
  {
    var parts := FilterParts(fmt, n, b);
    FilterPartsWellSpaced(fmt, n, b);
    SplitGlue(parts);
    assert Words(parts) == ["Filter", Decimal(n) + ":", "ON", "PK", "Fc", fmt.fixed2(b.freq), "Hz", "Gain",
       fmt.fixed2(b.gain), "dB", "Q", fmt.fixed3(b.q)];
  }

  lemma FilterPartsWellSpaced(fmt: Format, n: nat, b: Band)
    ensures WellSpaced(FilterParts(fmt, n, b))
  {
    FixedWords(fmt, b.freq);
    FixedWords(fmt, b.gain);
    FixedWords(fmt, b.q);
    assert NoSpace(Decimal(n) + ":");
  }

  /** Every settings line begins with "Filter". */
  lemma FilterLineStart(fmt: Format, n: nat, b: Band)
    ensures |FilterLine(fmt, n, b)| >= 6 && FilterLine(fmt, n, b)[..6] == "Filter"
  {
    var parts := FilterParts(fmt, n, b);
    assert FilterLine(fmt, n, b) == "Filter" + (" " + Glue(parts[1..]));
  }

  /** One line per band, numbered from 1 in list order. */
  function FilterLines(fmt: Format, bands: seq<Band>): (lines: seq<string>)
    ensures |lines| == |bands|
    ensures forall k :: 0 <= k < |bands| ==> lines[k] == FilterLine(fmt, k + 1, bands[k])
  {
    seq(|bands|, k requires 0 <= k < |bands| => FilterLine(fmt, k + 1, bands[k]))
  }

  /**
   * `write_eq_settings(fs, gs, qs, out_path, model_str)`: the file is
   * truncated and gets one line per index of `fs`. A shorter `gs` or `qs`
   * raises IndexError after the lines before it are written; `ok` is false then.
   */
  method WriteEqSettings(fmt: Format, file: TextFile, fs: seq<real>, gs: seq<real>, qs: seq<real>) returns (ok: bool)
    modifies file
    ensures ok <==> |gs| >= |fs| && |qs| >= |fs|
    ensures file.lines == FilterLines(fmt, Zip3(fs, gs, qs))
  {
    file.Truncate();
    var i := 0;
    ghost var bands := Zip3(fs, gs, qs);
    while i < |fs|
      invariant 0 <= i <= |fs| && i <= |bands|
      invariant file.lines == FilterLines(fmt, bands[..i])
    {
      if i >= |gs| || i >= |qs| {
        return false;
      }
      var n := i + 1;
      file.Append([FilterLine(fmt, n, Band(fs[i], gs[i], qs[i]))]);
      assert bands[..i + 1] == bands[..i] + [bands[i]];
      i := i + 1;
    }
    assert bands[..i] == bands;
    ok := true;
  }
}
