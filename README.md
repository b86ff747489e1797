# SONUS_CORRECT core, modelled in Dafny

SONUS_CORRECT designs parametric-EQ bands that pull a measured loudspeaker
frequency response toward a target curve, then writes the bands as an
EQ settings text file and as CamillaDSP-style YAML settings. A separate tool
merges a left and a right settings file. This project models the discrete
logic underneath the numerics and proves what it promises:

- `curve_math.dfy` (`src/Math.py`): the index scan and two-point formula of
  `linear_interpolation`, `apply_curve`, `calc_slope_curve`, the
  peaking-filter response `calculate_peak_filter` (its coefficients, the
  non-vanishing denominator and the unity-gain case) and
  `calculate_eq_curve`, which is the band-by-band sum of dB terms.
- `eq_make.dfy` (`src/EqMake.py`):
  - `find_peak_and_dip`: the inner merge, the first maximum and minimum,
    and ties going to the dip;
  - the default and clamp rule of `estimate_q_factor` and
    `estimate_neighbor_freq`, including the infinite and NaN neighbours a
    zero amplitude produces;
  - the peak-spacing filter and dip Qs of `find_dips`;
  - the 1000 Hz normalisation and the dip fill of `eq_make`;
  - the `band_num` loop of `eq_make`, as a state machine over
    `f0s`/`eq_gains`/`q_factors` and the residual curve;
  - the line format of `write_eq_settings`.
- `utils.dfy` (`src/Utils.py`): the readers `read_eq_data`,
  `read_eloud_fr_data`, `read_spkr_fr_data` and `read_fri_diff`,
  `remove_duplicates` (`drop_duplicates`), and the four YAML writers
  `write_eq_settings_yml0` to `yml3`.
- `marge.dfy` (`src/Marge.py`): `add_prefix`, `update_pipeline` and the
  restructuring inside `merge_yml`.
- Support modules:
  - `wrappers.dfy` holds `Option`.
  - `text.dfy` models `str.split()` (splitting at ASCII and Unicode
    whitespace, as `str.isspace()` defines it), `re.split(r'[, \t]+', ...)`
    and `str(n)`.
  - `files.dfy` holds a `TextFile` class whose `lines` the writers change.
    `open(..., 'w')` truncates and `write` appends whole lines.
  - `numerics.dfy` bundles the floating-point library as oracles.

Gains and frequencies are `real`. The oracles are `log2`, `log10` and the
powers of 2 and 10, `sqrt`, `pi`, `curve_fit`, the `find_peaks` front end and
number formatting/parsing. Each is a field of a datatype of functions, and a
subset type lists the few exact laws the proofs use: `log2(1) = 0`,
`2^0 = 1`, `sqrt(1) = 1`, `pi > 0`, powers of 2 and 10 are positive, `log2`
is monotone on positive numbers, `find_peaks` returns increasing in-range
indices, and a formatted number is a non-empty word that `float()` parses. Every exception the source
can raise on its inputs is an explicit error result (`None` or `ok == false`).
The only preconditions are facts its callers guarantee, such as dips that lie
on the axis they were found on, and the floating-point cases listed under
"## Left out". Examples are an empty axis, an empty merge, `peaks[0]`
of no peaks, a short line, an unparsable number and a shorter gain list.

Where the code and its own comments and docstrings disagree, the model follows the code:
- `estimate_q_factor` returns `default_q` unclamped on the neighbour-below
  path, so a Q lies in [min_q, max_q] only when `default_q` does.
- `find_dips` tests spacing against the raw predecessor `peaks[i-1]`, not
  the last kept peak. A peak far enough from the last kept peak but close to
  a dropped predecessor is therefore dropped too. On a positive increasing
  axis the kept peaks are still at least 0.5 octave apart.
- `filtered_peaks = [peaks[0]]` raises when no peak is detected, so
  `find_dips` never returns an empty dip set.
- `calculate_eq_curve` never updates `Ptotal`, so the bands add
  independently.

## Model

| member | source | states |
|---|---|---|
| CurveMath.ScanFrom | src/Math.py:17-19 | the scan stops at an index in range whose every earlier successor is below the target and whose own successor is at or above it, or at the last index |
| CurveMath.LinearInterpolation | src/Math.py:4-32 | the while-loop scan and formula fail exactly on an empty axis and otherwise return the two-point interpolation at the scanned segment |
| CurveMath.InterpolateBeyondLast | src/Math.py:22-23 | above the last sample, or on a one-sample axis, the result is the last gain (no extrapolation) |
| CurveMath.InterpolateAtSample | src/Math.py:18-30 | on a strictly increasing axis, interpolating at sample k returns gains[k] exactly |
| CurveMath.InterpolateBetween | src/Math.py:18-30 | inside [f_range[0], f_range[last]] the scanned segment brackets the target and the result lies between its two gains |
| CurveMath.InterpolateBelowFirst | src/Math.py:26-30 | below the first sample idx stays 0, the first segment is extrapolated, and the result leaves [gains[0], gains[1]] when they differ |
| CurveMath.InterpolateShift | src/Math.py:30 | shifting every gain by c shifts the interpolated value by c |
| CurveMath.ApplyCurveCommutes | src/Math.py:63 | curve addition is commutative |
| CurveMath.ApplyCurveAssociates | src/Math.py:63 | curve addition is associative |
| CurveMath.ApplyCurveUndo | src/Math.py:51-65 | adding a curve and then its negation gives the original curve back |
| CurveMath.ApplyZeros | src/Math.py:63 | adding the zero curve changes nothing |
| CurveMath.SlopeCurve | src/Math.py:68-84 | same length as the axis, 0 at 1000 Hz, identically 0 for slope 0 |
| CurveMath.UnityGainCoefficients | src/Math.py:104-111 | at gain 0, g = 1 and b0 = a0, b1 = a1, b2 = a2 |
| CurveMath.DenominatorNonZero | src/Math.py:109-113 | the denominator a0 + a1·jw + a2·(jw)² of H never vanishes for q ≠ 0 |
| CurveMath.UnityGainRatio | src/Math.py:104-113 | the squared magnitude of the denominator is positive, and at gain 0 the numerator and denominator magnitudes are equal |
| CurveMath.PeakResponse | src/Math.py:101-115 | a zero-gain band has a response magnitude of 1 at every frequency |
| CurveMath.BandTerm | src/Math.py:136-137 | a zero-gain band's term 3·log2(0.775·abs(H)/0.775) is 0 dB |
| CurveMath.Zip3Append | src/Math.py:135 | zipping lists extended by one entry each appends one band made of those entries |
| CurveMath.Zip3Prefix | src/Math.py:135 | zipping the first n entries of each list gives the first n bands |
| CurveMath.EqCurve | src/Math.py:133-138 | the composite curve has one value per axis sample |
| CurveMath.EqCurveSingle | src/Math.py:133-138 | a single band's composite curve is that band's dB term at every sample |
| CurveMath.CalculateEqCurve | src/Math.py:119-139 | the accumulation loop returns the composite curve of the zipped bands |
| CurveMath.EqCurveIsSum | src/Math.py:133-138 | each sample of the composite curve is the plain sum of the band terms there (Ptotal is never updated) |
| CurveMath.SumTermsAppend | src/Math.py:135-138 | the sum of band terms over a concatenation is the sum of the two sums |
| CurveMath.SumTermsPermutation | src/Math.py:135-138 | the sum of band terms is the same for any permutation of the bands |
| CurveMath.EqCurvePermutation | src/Math.py:133-138 | the composite curve does not depend on band order |
| CurveMath.EqCurveConcat | src/Math.py:133-138 | the curve of two filter sets together is the sum of their curves |
| CurveMath.EqCurveZeroGain | src/Math.py:133-138 | no bands give all zeros; adding a zero-gain band changes nothing |
| EqMake.MergeDiff | src/EqMake.py:112-115 | every merged row's frequency occurs in both tables |
| EqMake.MatchRow | src/EqMake.py:113-114 | the rows matched to one left row carry its frequency, and there are some iff the right table holds it |
| EqMake.MatchRowSource | src/EqMake.py:113-114 | each matched row's gain is the left gain minus a right gain at that frequency |
| EqMake.MergeDiffSource | src/EqMake.py:112-115 | each merged row pairs a left and a right row at its frequency with the gains subtracted |
| EqMake.MergeDiffEmpty | src/EqMake.py:113 | the merge is empty iff the two tables share no frequency |
| EqMake.MaxGain | src/EqMake.py:118 | the maximum is attained and bounds every gain |
| EqMake.MinGain | src/EqMake.py:119 | the minimum is attained and bounds every gain |
| EqMake.FirstWithGain | src/EqMake.py:122-123 | the first row having the given gain (values[0] of the mask) |
| EqMake.FirstAtFreq | src/EqMake.py:128 | the first row at the given frequency (df.loc[...].values[0]) |
| EqMake.ChooseTarget | src/EqMake.py:126-131 | the chosen position lies inside the merged table |
| EqMake.FindPeakAndDip | src/EqMake.py:99-131 | an answer is a row of df whose frequency the target table also holds |
| EqMake.ChooseTargetLargest | src/EqMake.py:118-131 | the chosen gap is largest in magnitude; it is the first maximum (positive) when abs(max) > abs(min), else the first minimum |
| EqMake.FindPeakAndDipFails | src/EqMake.py:112-123 | `values[0]` raises iff the two tables share no frequency |
| EqMake.FindPeakAndDipChoice | src/EqMake.py:118-131 | the answer is at a first maximum or minimum of largest gap and carries df's own gain at its first row of that frequency |
| EqMake.InBand | src/EqMake.py:58 | the rows inside [low, high], all of them, from the input |
| EqMake.NeighborFreq | src/EqMake.py:163-185 | a finite neighbour is never negative at a positive frequency; the neighbour is non-finite exactly when the amplitude is 0 and the gain at least 3 dB |
| EqMake.EstimateQ | src/EqMake.py:212-227 | unless the neighbour lies below freq or is NaN, the Q lies in [min_q, max_q] |
| EqMake.Clamp | src/EqMake.py:222-225 | the clamp lands in [min_q, max_q] and leaves an in-range Q alone |
| EqMake.EstimateQDefault | src/EqMake.py:213-216 | a neighbour below freq returns default_q untouched |
| EqMake.EstimateQBounds | src/EqMake.py:212-227 | with default_q in range, every Q lies in [min_q, max_q] |
| EqMake.ZeroAmplitudeLowGain | src/EqMake.py:185-216 | a zero amplitude below 3 dB gives a zero neighbour and so default_q at a positive frequency |
| EqMake.ZeroAmplitudeHighGain | src/EqMake.py:185-227 | a zero amplitude above 3 dB gives +inf, a Q of 1.41/inf = 0 and after the clamp exactly min_q |
| EqMake.DipQ | src/EqMake.py:92-94 | every dip Q lies in [3, 10] |
| EqMake.DipQDefault | src/EqMake.py:93-94 | when the neighbour lies below the dip frequency, the dip Q is exactly 4 + 2 = 6 |
| EqMake.KeepPeak | src/EqMake.py:79-83 | the append-then-pop edit of one pass never empties the list |
| EqMake.SpacingStep | src/EqMake.py:79-83 | one pass of the spacing loop never empties the kept list |
| EqMake.Spacing | src/EqMake.py:77-83 | the kept list after n passes is non-empty |
| EqMake.FilterPeaks | src/EqMake.py:76-83 | the loop raises iff there are no peaks and otherwise returns the spacing filter's list |
| EqMake.KeepPeakShape | src/EqMake.py:79-83 | one edit keeps the list increasing, grows it by at most one, and adds nothing but the new peak |
| EqMake.StepShape | src/EqMake.py:78-83 | one pass keeps the list short, increasing and drawn from the peaks seen |
| EqMake.SpacingShape | src/EqMake.py:77-83 | after n passes the kept list is no longer than n, strictly increasing, and drawn from the first n peaks only |
| EqMake.SpacingInRange | src/EqMake.py:85-86 | every kept peak indexes the frequency axis |
| EqMake.SpacedAndDeeper | src/EqMake.py:79-83 | a peak both spaced from and deeper than peaks[i-1] leaves its pass as the kept list plus that one peak |
| EqMake.SpacingExcludes | src/EqMake.py:78-83 | a peak neither spaced from nor deeper than peaks[i-1] is never kept |
| EqMake.SpacingKeepsAdmitted | src/EqMake.py:77-83 | every kept peak is peaks[0] or a peak that was spaced from or deeper than its raw predecessor |
| EqMake.SpacingMinimum | src/EqMake.py:76-83 | on a positive increasing axis, consecutive kept peaks are at least 0.5 octave apart |
| EqMake.RawPredecessorDrops | src/EqMake.py:79-80 | a peak 0.5 octave above the last kept peak but closer to its dropped raw predecessor is not kept |
| EqMake.InBandIncreasing | src/EqMake.py:58 | the cutoff mask keeps an increasing axis increasing |
| EqMake.NegateInvolutive | src/EqMake.py:62 | negating the gains twice gives them back |
| EqMake.DipQs | src/EqMake.py:90-94 | the Q loop gives one dip Q per dip, in order |
| EqMake.FindDips | src/EqMake.py:43-96 | the method returns the spaced dips with their Qs, or None when no dip is detected |
| EqMake.DipsApart | src/EqMake.py:76-94 | on a positive increasing axis, consecutive dip frequencies are at least 0.5 octave apart |
| EqMake.DipsAtShape | src/EqMake.py:85-94 | dips are rows inside the cutoffs with Qs in [3, 10], increasing on an increasing axis |
| EqMake.DipsShape | src/EqMake.py:43-96 | at least one dip, three equal-length lists, every dip an in-band row, Qs in [3, 10], strictly increasing frequencies on an increasing axis |
| EqMake.Normalised | src/EqMake.py:325-326 | the normalised gains have the input's length |
| EqMake.NormalisedAt1000 | src/EqMake.py:325-326 | after normalisation the curve interpolates to 0 dB at 1000 Hz |
| EqMake.NormalisedIdempotent | src/EqMake.py:325-326 | normalising twice is normalising once |
| EqMake.Normalise | src/EqMake.py:325-326 | the in-place `-=` on the gain array gives the normalised gains; an empty table raises and leaves the array unchanged |
| EqMake.TargetCurveOffset | src/EqMake.py:334-340 | the file target minus the offset is the interpolated file curve, and a flat 0 dB file gives the same target as no file |
| EqMake.IndexOf | src/EqMake.py:343 | the first position of a frequency on the axis |
| EqMake.ReducedGains | src/EqMake.py:342-343 | each dip gain minus the target curve at its own frequency |
| EqMake.ReduceDipGains | src/EqMake.py:342-343 | the in-place masked `-=` loop gives the reduced gains |
| EqMake.DipBandsValid | src/EqMake.py:345 | dip Qs in [3, 10] make the dips a valid filter set |
| EqMake.DipFilledTarget | src/EqMake.py:345-346 | the dip-filled target has one value per axis sample |
| EqMake.DipFillOff | src/EqMake.py:345-346 | with dip_alpha = 1 the dip-filled target is the target curve itself |
| EqMake.EstimateQNonZero | src/EqMake.py:213-227 | under positive limits and a non-zero default_q no estimated Q is 0 |
| EqMake.TableColumns | src/EqMake.py:390 | building the table and taking its frequency and gain columns are inverse to each other |
| EqMake.ShapedBands | src/EqMake.py:379-385 | a shaped state's bands form a valid filter set |
| EqMake.Extend | src/EqMake.py:379-390 | one band appended to each list, and the residual re-derived from gains0 over all bands so far |
| EqMake.Pick | src/EqMake.py:367-370 | the picked row is an in-band sample of the residual on the axis |
| EqMake.PickedRow | src/EqMake.py:367 | a row of the in-band table is an axis sample inside the cutoffs |
| EqMake.NewBand | src/EqMake.py:375-382 | the new band sits at the picked frequency with gain target − residual there and the estimated Q |
| EqMake.BandStep | src/EqMake.py:362-390 | a pass adds exactly one band |
| EqMake.BandRun | src/EqMake.py:360-390 | after k passes each list holds k entries |
| EqMake.BandRunResidual | src/EqMake.py:385-390 | the residual is always gains0 plus the EQ curve of every band so far |
| EqMake.ListsPrefixTrans | src/EqMake.py:379-381 | the prefix relation on the band lists is transitive |
| EqMake.BandRunPrefixStep | src/EqMake.py:379-381 | a pass only appends to the three lists |
| EqMake.BandRunPrefix | src/EqMake.py:379-381 | the lists after j ≤ k passes are a prefix of those after k |
| EqMake.BandRunStaysFailed | src/EqMake.py:360-370 | once a pass raises, every longer run raises |
| EqMake.BandRunFailStep | src/EqMake.py:360-370 | a raised run stays raised for one more pass |
| EqMake.BandStepChoice | src/EqMake.py:370-382 | a successful pass records the picked frequency, gain target − residual and the estimated Q |
| EqMake.BandRunChoice | src/EqMake.py:370-382 | pass k records what was picked from the residual after k − 1 passes |
| EqMake.BandRunNext | src/EqMake.py:360-390 | pass k is one step from the state after k − 1 passes |
| EqMake.ChooseBand | src/EqMake.py:364-382 | the first half of the loop body fails iff the pick raises and otherwise gives the new band |
| EqMake.AppendBand | src/EqMake.py:379-390 | the second half appends the band and recomputes the residual |
| EqMake.RunBands | src/EqMake.py:360-390 | the loop runs band_num passes with no early exit and ends in the state BandRun describes after band_num passes, or raises iff that run does |
| EqMake.FilterLineWords | src/EqMake.py:280 | a settings line splits into 12 words with "ON" at index 2 and the formatted numbers at 5, 8 and 11 |
| EqMake.FilterPartsWellSpaced | src/EqMake.py:280 | the words of a settings line are non-empty and whitespace-free and its separators whitespace |
| EqMake.FilterLineStart | src/EqMake.py:280 | every settings line starts with "Filter" |
| EqMake.WriteEqSettings | src/EqMake.py:270-280 | the file is truncated and gets the band lines; a shorter gs or qs raises after the lines before it |
| Text.Token | src/Utils.py:26 | the longest whitespace-free prefix |
| Text.Split | src/Utils.py:26 | `str.split()` yields non-empty whitespace-free words |
| Text.TokenOfWord | src/Utils.py:26 | a word followed by whitespace or the end is the token |
| Text.SplitSkipsSpace | src/Utils.py:26 | leading whitespace does not change the split |
| Text.SplitWord | src/Utils.py:26 | a word followed by whitespace is split off first |
| Text.Words | src/EqMake.py:280 | the words of a laid-out line, in order |
| Text.SplitGlue | src/Utils.py:26-29 | splitting a line of words and whitespace separators gives back exactly its words |
| Text.FieldHead | src/Utils.py:42 | the longest separator-free prefix |
| Text.DropSeps | src/Utils.py:42 | a leading run of commas, spaces and tabs removed |
| Text.Fields | src/Utils.py:42-43 | `re.split` always yields at least one field |
| Text.Decimal | src/Utils.py:118 | `str(n)` is a non-empty word |
| Files.TextFile.Truncate | src/EqMake.py:274 | opening with 'w' empties the file |
| Files.TextFile.Append | src/Utils.py:112 | writing to a file opened with 'a' appends the lines |
| Utils.EqDataOf | src/Utils.py:19-34 | three equal-length lists, no longer than the file; reading raises iff some line raises |
| Utils.ReadEqData | src/Utils.py:19-34 | the reading loop returns exactly the lists EqDataOf describes |
| Utils.EqDataAppend | src/Utils.py:24-32 | reading two files back to back concatenates their lists |
| Utils.ReadFilterLine | src/Utils.py:25-29 | a written settings line reads back as its band, each value as its formatted text parses |
| Utils.RereadBands | src/Utils.py:27-32 | one entry per band in each list |
| Utils.FilterLinesPrefix | src/EqMake.py:275-280 | the lines for n bands are those for n − 1 plus line n |
| Utils.RereadBandsPrefix | src/Utils.py:30-32 | the reread lists for n bands are those for n − 1 plus band n |
| Utils.EqSettingsRoundTrip | src/Utils.py:19-34 | reading the file write_eq_settings writes returns every band, in order, one per band |
| Utils.FrRows | src/Utils.py:40-46 | one row per line when no line raises |
| Utils.FrRowsFails | src/Utils.py:42-43 | reading raises iff some line lacks two fields or a parsable number |
| Utils.FrRowsFailsAt | src/Utils.py:42-43 | one bad line makes the whole read raise |
| Utils.FrRowsAt | src/Utils.py:40-46 | row k is line k read on its own, so file order is kept |
| Utils.ReadEloudFrData | src/Utils.py:37-47 | one (freq, gain) pair per line, in order, equal-length lists; raises iff some line raises |
| Utils.KeepNew | src/Utils.py:58-65 | the kept rows are no more than the read rows |
| Utils.FrRowsNext | src/Utils.py:55-57 | reading one more good line appends its row |
| Utils.KeepNewNext | src/Utils.py:58-65 | one more row is kept iff its frequency differs from the last kept one (0 at the start) |
| Utils.ColumnsNext | src/Utils.py:64-65 | appending a row appends its frequency and gain to the two columns |
| Utils.ReadSpkrFrData | src/Utils.py:50-68 | the loop with the last-kept sentinel returns the columns of the kept rows; raises iff some line raises |
| Utils.KeepNewSpacing | src/Utils.py:58-65 | no two adjacent kept frequencies are equal and a leading 0 Hz row is dropped |
| Utils.SubseqExtend | src/Utils.py:63-65 | a subsequence stays one when an element is appended to one or both sides |
| Utils.KeepNewSubseq | src/Utils.py:58-65 | the kept rows are a subsequence of the read rows |
| Utils.KeepNewCovers | src/Utils.py:58-65 | every frequency other than 0 Hz that was read is kept |
| Utils.KeepNewClean | src/Utils.py:58-65 | a file with no repeated neighbours and no leading 0 Hz is kept whole |
| Utils.ReadFriDiff | src/Utils.py:71-79 | the line-counter loop returns field 2 of line 13 if present, else of line 7, else the empty list |
| Utils.FriDiffOtherLines | src/Utils.py:76-77 | only lines 7 and 13 affect the result |
| Utils.RemoveDuplicates | src/Utils.py:92 | no more rows than the input |
| Utils.RemoveDuplicatesSameRows | src/Utils.py:92 | no distinct row is lost and none is invented |
| Utils.RemoveDuplicatesDistinct | src/Utils.py:92 | no row appears twice |
| Utils.RemoveDuplicatesSubseq | src/Utils.py:92 | first occurrences are kept in order |
| Utils.RemoveDuplicatesOfDistinct | src/Utils.py:92 | a table without repeats is unchanged |
| Utils.RemoveDuplicatesIdempotent | src/Utils.py:92 | removing duplicates twice equals once |
| Utils.WriteYml0 | src/Utils.py:95-107 | "artificial" truncates and writes the nine header lines; any other target type touches nothing |
| Utils.BiquadEntry | src/Utils.py:119-125 | a biquad entry is seven lines |
| Utils.SliceOfLeft | src/Utils.py:112-125 | a slice inside the first of two appended blocks is unaffected by the second |
| Utils.Yml1Shape | src/Utils.py:112-125 | seven lines per band; entry k starts at line 7·k and is titled `<target_type>_eq<k+1>` with band k's values |
| Utils.Yml1Length | src/Utils.py:112-125 | seven lines per band |
| Utils.WriteYml1 | src/Utils.py:110-125 | appends one entry per index of fs; a shorter gs or qs raises after the entries before it |
| Utils.WriteYml2 | src/Utils.py:127-134 | appends the gain entry |
| Utils.Channels | src/Utils.py:142-145 | two channels per side |
| Utils.EqNames | src/Utils.py:151-157 | band_num name lines |
| Utils.EqNamesNext | src/Utils.py:151-157 | one more pass appends the next name |
| Utils.ChannelBlockShape | src/Utils.py:148-162 | a block is its 3-line head, the band_num band names of its side and that side's gain name |
| Utils.PipelineNamesDefined | src/Utils.py:118-162 | every name a pipeline block lists is the title of a biquad entry or of the gain entry of its side |
| Utils.Yml3Shape | src/Utils.py:139-162 | "pipeline:", then the artificial block on channel 2 for "L" and 3 otherwise, then the natural block on 4 or 5, each with band_num + 1 names |
| Utils.AppendChannelBlock | src/Utils.py:147-162 | one pass of the channel loop appends that channel's block |
| Utils.BlocksNext | src/Utils.py:147 | one more channel appends its block |
| Utils.WriteYml3 | src/Utils.py:136-162 | appends exactly the pipeline section |
| Marge.Get | src/Marge.py:29 | `get` finds a key iff the mapping holds it, with its value |
| Marge.KeysAppend | src/Marge.py:6 | the keys of joined entry lists are the keys of each, in order |
| Marge.Set | src/Marge.py:13 | assigning an existing key keeps the key order; a new key goes last |
| Marge.SetGet | src/Marge.py:13 | after `d[k] = v`, k maps to v and every other key is unchanged |
| Marge.UpdateFresh | src/Marge.py:32-33 | `update` with keys not yet held appends the new entries in order |
| Marge.PrefixedInjective | src/Marge.py:6 | a fixed prefix never makes two keys equal |
| Marge.AddPrefix | src/Marge.py:5-6 | as many entries as the input |
| Marge.AddPrefixUnique | src/Marge.py:5-6 | distinct keys stay distinct, so the count is preserved |
| Marge.AddPrefixGet | src/Marge.py:6 | the value under `<prefix>_k` is the value under k |
| Marge.AddPrefixKeys | src/Marge.py:6 | every prefixed key starts with `<prefix>_` |
| Marge.AddPrefixMiss | src/Marge.py:6 | a key not starting like the prefix is absent |
| Marge.UpdatedPipeline | src/Marge.py:8-15 | raises iff some step cannot be copied; otherwise the same length, with each step updated on its own |
| Marge.PrefixNames | src/Marge.py:13 | iterating a list of strings, a string or a mapping gives one prefixed string per item, in order; anything else raises |
| Marge.UpdatedStep | src/Marge.py:11-13 | a step copies iff it is a mapping whose names, if any, can be prefixed, or the empty string; a copied step is a mapping |
| Marge.UpdatePipeline | src/Marge.py:8-15 | the copying loop returns exactly the list UpdatedPipeline describes |
| Marge.UpdatedStepEntries | src/Marge.py:11-13 | a step keeps its keys and every value except "names", whose names are prefixed in order |
| Marge.PrefixesDisjoint | src/Marge.py:32-33 | no "R_" key is an "L_" key |
| Marge.MergedFiltersConcat | src/Marge.py:31-33 | the merged filters are the "L_" entries then the "R_" entries, as many as the two sides together |
| Marge.MergedFiltersUnique | src/Marge.py:31-33 | no merged filter name occurs twice |
| Marge.MergedFiltersGetLeft | src/Marge.py:32 | every left filter is found under its "L_" name |
| Marge.MergedFiltersGetRight | src/Marge.py:33 | every right filter is found under its "R_" name |
| Marge.GetAppend | src/Marge.py:31-33 | looking up in concatenated entries finds the first side's value first |
| Marge.MergeYmlShape | src/Marge.py:29-55 | keys devices, filters, pipeline in order; left devices (default {}); merged filters; Copy steps, L steps, R steps, Mix steps |
| Marge.MergeYmlPipelineLength | src/Marge.py:35-49 | the pipeline has 4 + left + right steps |
| Marge.MergeYmlIgnoresRightDevices | src/Marge.py:29 | the right file's devices never reach the output |
| Marge.MergeYmlNeedsMappings | src/Marge.py:29-33 | both files must load as mappings; an empty file (None) on either side raises |
| Marge.MergeYmlEmpty | src/Marge.py:29-55 | two files that each hold an empty mapping merge to empty devices and filters and the four fixed steps |

## Left out

- I/O is modelled only as lines. Files are sequences of lines, and every reader takes the list of lines. Opening, closing and reading files, `print`, `datetime.now()` and YAML parse/dump are not modelled.
- IEEE floating point is not modelled: reals are exact, with no rounding. The only inf and NaN values modelled are the neighbour frequencies of `estimate_neighbor_freq` at a zero amplitude.
- Numerics are oracles and are not derived: `log2`, `log10`, the powers and `sqrt`; scipy's `curve_fit`; the moving average, normalisation and `find_peaks` before the spacing loop; number formatting (`:.2f`, `:.3f`, `str(float)`) and `float()` parsing.
- The equivalence between a log2 gap of at least 0.5 and f_i² ≥ 2·f_(i−1)² is not derived, because log2 is an oracle.
- The front end of `find_dips` (moving average, normalisation, `find_peaks`) is an oracle that always returns a list of peaks. The model raises only when that list is empty. The source can also fail inside the front end, for example when fewer than 3 in-band samples make the window 0; those failures are not modelled.
- CurveMath.PeakResponse: |H| is modelled as sqrt(|num|²/|den|²), which equals |num/den| over the reals. An evaluation frequency of 0 on the axis (division by zero in `w0`) is excluded by NonZeroAxis.
- CurveMath.LinearInterpolation: requires adjacent axis samples to differ. The source's division by zero on equal samples gives inf/NaN in numpy and is not modelled.
- CurveMath.CalculateEqCurve: requires a non-zero axis and non-zero band Qs. The inf/NaN numpy yields for those is not modelled.
- EqMake.EstimateQ: an octave distance of 0 gives 1.41/0 = inf in floating point, which the clamp turns into `max_q`. The model writes that branch explicitly.
- EqMake.NeighborFreq: a zero amplitude makes the exponent (gain − 3)/0 infinite or NaN in floating point. The model writes those branches out as the Neighbour values 0, +inf, −inf and NaN. No law is assumed about the fitted amplitude, so a fit can return 0.
- EqMake.EstimateQ: a NaN neighbour, from a zero amplitude at exactly 3 dB or at frequency 0, makes the source return a NaN Q. The model returns `default_q` there instead, and its range guarantee excludes that case.
- EqMake.SpacingMinimum: the 0.5-octave spacing of the kept peaks is proved only for a strictly increasing axis of positive frequencies. The same holds for EqMake.DipsApart.
- EqMake.Amplitude: the TypeError path of `curve_fit` is folded into the RuntimeError path; both fall back to `gain`.
- EqMake.RunBands: requires usable Q limits (positive `min_q` and `max_q` and a non-zero `default_q`), so no band gets Q = 0. With such a Q the source computes w0/0 = inf and the model has no value for it.
- EqMake.ReduceDipGains: requires the dips and the axis to be strictly increasing. Then each boolean mask selects exactly one element on each side. Repeated dip frequencies, where one mask hits several entries, are not modelled.
- EqMake.TargetCurve: the scipy `interp1d` of the target file on a log axis is a parameter (the interpolated target on `freqs`). Reading the target file is not modelled.
- The band loop covers `find_dips` and the loop as separate pieces. Loading, `remove_duplicates`, normalisation, target, dip fill, loop and writer are not chained into one `eq_make` method, because that is orchestration of the modelled pieces.
- Utils.WriteYml3: `band_num` is a natural number; a negative `band_num`, which makes `range` empty, is not modelled.
- The fixed `Ptotal` level of 0.775 cancels in 3·log2(0.775·|H|/0.775). It is kept in the formula as written.
- Marge.PrefixNames: YAML keys and names are strings only. A non-string item in a "names" list is not modelled, and neither is a bool or float scalar. Values are text, integers, null, lists and mappings.
- Marge.UpdatedStep: a step given as a list of key/value pairs, which `dict()` also accepts, is treated as an error, like every other non-mapping step except the empty string.
- `read_fr_data` (`pd.read_csv`) is not modelled: it is a library call. The `read_*` models take the parsed lines.
- `gaussian_function`, `interpolate_gain` (never called), the plotting functions, `os.rename`/`os.replace`, and the GUI, target and FRI programs (`src/SonusCorrect.py`, `src/TargetCalc.py`, `src/FriCalc.py`) are not part of this model.
