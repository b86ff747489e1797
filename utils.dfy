/**
 * The text readers and writers: the EQ settings reader, the two
 * frequency-response readers, the FRI report reader, duplicate removal,
 * and the four generators of the CamillaDSP-style YAML settings file.
 */
module Utils {
  import opened Wrappers
  import opened Text
  import opened Numerics
  import opened CurveMath
  import opened Files
  import opened EqMake

  // ----------------------------------------------------------------------
  // read_eq_data

  predicate StartsWith(s: string, prefix: string) {
    |prefix| <= |s| && s[..|prefix|] == prefix
  }

  /** What one line contributes: nothing, a band, or an exception. */
  datatype EqLineRead = Skip | Take(freq: real, gain: real, q: real) | Raise

  /**
   * One line of `read_eq_data`: lines not starting with "Filter" and lines
   * whose third word is not "ON" are skipped; otherwise words 5, 8 and 11
   * are parsed. Too few words (IndexError) or an unparsable number
   * (ValueError) raise.
   */
  function ReadEqLine(fmt: Format, line: string): EqLineRead {
    if !StartsWith(line, "Filter") then Skip
    else
      var ws := Split(line);
      if |ws| < 3 then Raise
      else if ws[2] != "ON" then Skip
      else if |ws| < 12 then Raise
      else
        var f, g, q := fmt.parse(ws[5]), fmt.parse(ws[8]), fmt.parse(ws[11]);
        if f.Some? && g.Some? && q.Some? then Take(f.value, g.value, q.value) else Raise
  }

  /** The three lists `read_eq_data` returns. */
  datatype EqData = EqData(freqs: seq<real>, gains: seq<real>, qs: seq<real>)

  /** The lists after reading `lines` in order, or `None` once a line raised. */
  function EqDataOf(fmt: Format, lines: seq<string>): (r: Option<EqData>)
    ensures r.Some? ==> |r.value.freqs| == |r.value.gains| == |r.value.qs| <= |lines|
    ensures r.None? <==> exists k :: 0 <= k < |lines| && ReadEqLine(fmt, lines[k]).Raise?
  {
    if lines == [] then Some(EqData([], [], []))
    else
      var prev := EqDataOf(fmt, lines[..|lines| - 1]);
      var last := ReadEqLine(fmt, lines[|lines| - 1]);
      assert forall k :: 0 <= k < |lines| - 1 ==> lines[..|lines| - 1][k] == lines[k];
      if prev.None? || last.Raise? then None
      else if last.Skip? then prev
      else Some(EqData(prev.value.freqs + [last.freq], prev.value.gains + [last.gain], prev.value.qs + [last.q]))
  }

  /** `read_eq_data(file_path)` over the file's lines. */
  method ReadEqData(fmt: Format, lines: seq<string>) returns (r: Option<EqData>)
    ensures r == EqDataOf(fmt, lines)
  {
    var frequencies, gains, qFactors := [], [], [];
    var i := 0;
    while i < |lines|
      invariant 0 <= i <= |lines|
      invariant EqDataOf(fmt, lines[..i]) == Some(EqData(frequencies, gains, qFactors))
    {
      var line := lines[i];
      assert lines[..i + 1][..i] == lines[..i];
      if StartsWith(line, "Filter") {
        var ws := Split(line);
        if |ws| < 3 {
          assert ReadEqLine(fmt, lines[i]).Raise?;
          return None;
        }
        if ws[2] == "ON" {
          if |ws| < 12 {
            assert ReadEqLine(fmt, lines[i]).Raise?;
            return None;
          }
          var freq, gain, q := fmt.parse(ws[5]), fmt.parse(ws[8]), fmt.parse(ws[11]);
          if freq.None? || gain.None? || q.None? {
            assert ReadEqLine(fmt, lines[i]).Raise?;
            return None;
          }
          frequencies := frequencies + [freq.value];
          gains := gains + [gain.value];
          qFactors := qFactors + [q.value];
        }
      }
      i := i + 1;
    }
    assert lines[..i] == lines;
    r := Some(EqData(frequencies, gains, qFactors));
  }

  /** Reading two files back to back reads each and concatenates the lists. */
  lemma {:induction false} EqDataAppend(fmt: Format, a: seq<string>, b: seq<string>)
    requires EqDataOf(fmt, a).Some? && EqDataOf(fmt, b).Some?
    ensures EqDataOf(fmt, a + b).Some?
    ensures var x, y, z := EqDataOf(fmt, a).value, EqDataOf(fmt, b).value, EqDataOf(fmt, a + b).value;
      z == EqData(x.freqs + y.freqs, x.gains + y.gains, x.qs + y.qs)
  {
    if b == [] {
      assert a + b == a;
    } else {
      var b' := b[..|b| - 1];
      assert (a + b)[..|a + b| - 1] == a + b';
      assert (a + b)[|a + b| - 1] == b[|b| - 1];
      EqDataAppend(fmt, a, b');
      var x, y' := EqDataOf(fmt, a).value, EqDataOf(fmt, b').value;
      var last := ReadEqLine(fmt, b[|b| - 1]);
      if last.Take? {
        assert x.freqs + (y'.freqs + [last.freq]) == x.freqs + y'.freqs + [last.freq];
        assert x.gains + (y'.gains + [last.gain]) == x.gains + y'.gains + [last.gain];
        assert x.qs + (y'.qs + [last.q]) == x.qs + y'.qs + [last.q];
      }
    }
  }

  /** The value `float()` reads back from a number written with `:.2f` or `:.3f`. */
  function Reread2(fmt: Format, x: real): real {
    FixedParses(fmt, x);
    fmt.parse(fmt.fixed2(x)).value
  }

  function Reread3(fmt: Format, x: real): real {
    FixedParses(fmt, x);
    fmt.parse(fmt.fixed3(x)).value
  }

  /** A settings line reads back as its band, each value as its formatted text parses. */
  lemma ReadFilterLine(fmt: Format, n: nat, b: Band)
    ensures ReadEqLine(fmt, FilterLine(fmt, n, b)) == Take(Reread2(fmt, b.freq), Reread2(fmt, b.gain), Reread3(fmt, b.q))
  {
    FilterLineStart(fmt, n, b);
    FilterLineWords(fmt, n, b);
  }

  /** What reading back the file `write_eq_settings` wrote for `bands` gives. */
  function RereadBands(fmt: Format, bands: seq<Band>): (d: EqData)
    ensures |d.freqs| == |d.gains| == |d.qs| == |bands|
  {
    EqData(seq(|bands|, k requires 0 <= k < |bands| => Reread2(fmt, bands[k].freq)),
           seq(|bands|, k requires 0 <= k < |bands| => Reread2(fmt, bands[k].gain)),
           seq(|bands|, k requires 0 <= k < |bands| => Reread3(fmt, bands[k].q)))
  }

  lemma FilterLinesPrefix(fmt: Format, bands: seq<Band>)
    requires bands != []
    ensures FilterLines(fmt, bands) == FilterLines(fmt, bands[..|bands| - 1]) + [FilterLine(fmt, |bands|, bands[|bands| - 1])]
  {
    var n := |bands|;
    var lines, prev := FilterLines(fmt, bands), FilterLines(fmt, bands[..n - 1]);
    assert forall k :: 0 <= k < n - 1 ==> lines[k] == prev[k];
  }

  lemma RereadBandsPrefix(fmt: Format, bands: seq<Band>)
    requires bands != []
    ensures var n, prev, d := |bands|, RereadBands(fmt, bands[..|bands| - 1]), RereadBands(fmt, bands);
      d.freqs == prev.freqs + [Reread2(fmt, bands[n - 1].freq)] &&
      d.gains == prev.gains + [Reread2(fmt, bands[n - 1].gain)] &&
      d.qs == prev.qs + [Reread3(fmt, bands[n - 1].q)]
  {
  }

  /**
   * The round trip: `read_eq_data` of the lines `write_eq_settings` writes
   * returns every band, in order, with its values as formatted.
   */
  lemma {:induction false} EqSettingsRoundTrip(fmt: Format, bands: seq<Band>)
    ensures EqDataOf(fmt, FilterLines(fmt, bands)) == Some(RereadBands(fmt, bands))
  {
    if bands == [] {
      assert FilterLines(fmt, bands) == [];
      assert RereadBands(fmt, bands) == EqData([], [], []);
    } else {
      var n := |bands|;
      var lines := FilterLines(fmt, bands);
      FilterLinesPrefix(fmt, bands);
      assert lines[..n - 1] == FilterLines(fmt, bands[..n - 1]);
      EqSettingsRoundTrip(fmt, bands[..n - 1]);
      ReadFilterLine(fmt, n, bands[n - 1]);
      RereadBandsPrefix(fmt, bands);
    }
  }

  // ----------------------------------------------------------------------
  // read_eloud_fr_data and read_spkr_fr_data

  /**
   * One line of the two-column readers: the line is split on runs of
   * commas, spaces and tabs and fields 0 and 1 are parsed. Fewer than two
   * fields (IndexError) or an unparsable number (ValueError) raise.
   */
  function FrLine(fmt: Format, line: string): Option<Row> {
    var fs := Fields(line);
    if |fs| < 2 then None
    else
      var f, g := fmt.parse(fs[0]), fmt.parse(fs[1]);
      if f.Some? && g.Some? then Some(Row(f.value, g.value)) else None
  }

  /** Every line read as a row, in file order, or `None` once a line raised. */
  function FrRows(fmt: Format, lines: seq<string>): (r: Option<seq<Row>>)
    ensures r.Some? ==> |r.value| == |lines|
  {
    if lines == [] then Some([])
    else
      var prev := FrRows(fmt, lines[..|lines| - 1]);
      var last := FrLine(fmt, lines[|lines| - 1]);
      if prev.None? || last.None? then None else Some(prev.value + [last.value])
  }

  /** Reading fails exactly when some line raises. */
  lemma {:induction false} FrRowsFails(fmt: Format, lines: seq<string>)
    ensures FrRows(fmt, lines).None? <==> exists k :: 0 <= k < |lines| && FrLine(fmt, lines[k]).None?
  {
    if lines != [] {
      var init := lines[..|lines| - 1];
      FrRowsFails(fmt, init);
      assert forall k :: 0 <= k < |init| ==> init[k] == lines[k];
    }
  }

  /** One line that raises makes the whole read raise. */
  lemma FrRowsFailsAt(fmt: Format, lines: seq<string>, k: nat)
    requires k < |lines| && FrLine(fmt, lines[k]).None?
    ensures FrRows(fmt, lines).None?
  {
    FrRowsFails(fmt, lines);
  }

  /** Row k is line k read on its own. */
  lemma {:induction false} FrRowsAt(fmt: Format, lines: seq<string>, k: nat)
    requires FrRows(fmt, lines).Some? && k < |lines|
    ensures FrLine(fmt, lines[k]) == Some(FrRows(fmt, lines).value[k])
  {
    var init := lines[..|lines| - 1];
    if k < |init| {
      FrRowsAt(fmt, init, k);
      assert init[k] == lines[k];
    }
  }

  /** The two lists the two-column readers return. */
  datatype FrData = FrData(freqs: seq<real>, gains: seq<real>)

  /** `read_eloud_fr_data(file_path)`: one (freq, gain) pair per line. */
  method ReadEloudFrData(fmt: Format, lines: seq<string>) returns (r: Option<FrData>)
    ensures r.None? <==> FrRows(fmt, lines).None?
    ensures r.Some? ==> r.value == FrData(Freqs(FrRows(fmt, lines).value), Gains(FrRows(fmt, lines).value))
  {
    var frequencies, gains := [], [];
    var i := 0;
    while i < |lines|
      invariant 0 <= i <= |lines|
      invariant FrRows(fmt, lines[..i]).Some?
      invariant frequencies == Freqs(FrRows(fmt, lines[..i]).value)
      invariant gains == Gains(FrRows(fmt, lines[..i]).value)
    {
      assert lines[..i + 1][..i] == lines[..i];
      var row := FrLine(fmt, lines[i]);
      if row.None? {
        FrRowsFailsAt(fmt, lines, i);
        return None;
      }
      frequencies := frequencies + [row.value.freq];
      gains := gains + [row.value.gain];
      i := i + 1;
    }
    assert lines[..i] == lines;
    r := Some(FrData(frequencies, gains));
  }

  /** The frequency the next row is compared with: the last kept one, or 0 at the start. */
  function LastFreq(kept: seq<Row>): real {
    if kept == [] then 0.0 else kept[|kept| - 1].freq
  }

  /** The rows `read_spkr_fr_data` keeps: a row whose frequency differs from the last kept one. */
  function KeepNew(rows: seq<Row>): (kept: seq<Row>)
    ensures |kept| <= |rows|
  {
    if rows == [] then []
    else
      var prev := KeepNew(rows[..|rows| - 1]);
      if LastFreq(prev) != rows[|rows| - 1].freq then prev + [rows[|rows| - 1]] else prev
  }

  /** `a` is `b` with some entries left out, order kept. */
  predicate IsSubseq<T(==)>(a: seq<T>, b: seq<T>)
    decreases |b|
  {
    if a == [] then true
    else if b == [] then false
    else (a[|a| - 1] == b[|b| - 1] && IsSubseq(a[..|a| - 1], b[..|b| - 1])) || IsSubseq(a, b[..|b| - 1])
  }

  lemma FrRowsNext(fmt: Format, lines: seq<string>, i: nat)
    requires i < |lines| && FrRows(fmt, lines[..i]).Some? && FrLine(fmt, lines[i]).Some?
    ensures FrRows(fmt, lines[..i + 1]) == Some(FrRows(fmt, lines[..i]).value + [FrLine(fmt, lines[i]).value])
  {
    assert lines[..i + 1][..i] == lines[..i];
  }

  lemma KeepNewNext(rows: seq<Row>, row: Row)
    ensures KeepNew(rows + [row]) == if LastFreq(KeepNew(rows)) != row.freq then KeepNew(rows) + [row] else KeepNew(rows)
  {
    assert (rows + [row])[..|rows|] == rows;
  }

  lemma ColumnsNext(rows: seq<Row>, row: Row)
    ensures Freqs(rows + [row]) == Freqs(rows) + [row.freq]
    ensures Gains(rows + [row]) == Gains(rows) + [row.gain]
  {
  }

  /** `read_spkr_fr_data(file_path)`: the two-column reader that skips a repeated frequency. */
  method ReadSpkrFrData(fmt: Format, lines: seq<string>) returns (r: Option<FrData>)
    ensures r.None? <==> FrRows(fmt, lines).None?
    ensures r.Some? ==> r.value == FrData(Freqs(KeepNew(FrRows(fmt, lines).value)), Gains(KeepNew(FrRows(fmt, lines).value)))
  {
    var frequencies, gains := [], [];
    ghost var read, kept := [], [];
    var i := 0;
    while i < |lines|
      invariant 0 <= i <= |lines|
      invariant FrRows(fmt, lines[..i]) == Some(read)
      invariant kept == KeepNew(read)
      invariant frequencies == Freqs(kept) && gains == Gains(kept)
    {
      var row := FrLine(fmt, lines[i]);
      if row.None? {
        FrRowsFailsAt(fmt, lines, i);
        return None;
      }
      FrRowsNext(fmt, lines, i);
      KeepNewNext(read, row.value);
      ColumnsNext(kept, row.value);
      var freqPre := if |frequencies| != 0 then frequencies[|frequencies| - 1] else 0.0;
      assert freqPre == LastFreq(kept);
      if freqPre != row.value.freq {
        frequencies := frequencies + [row.value.freq];
        gains := gains + [row.value.gain];
        kept := kept + [row.value];
      }
      read := read + [row.value];
      i := i + 1;
    }
    assert lines[..i] == lines;
    r := Some(FrData(frequencies, gains));
  }

  /**
   * The kept frequencies never repeat from one row to the next, and the
   * first kept row is never at 0 Hz: the sentinel drops a leading 0 Hz row.
   */
  lemma {:induction false} KeepNewSpacing(rows: seq<Row>)
    ensures AdjacentDistinct(Freqs(KeepNew(rows)))
    ensures KeepNew(rows) == [] || KeepNew(rows)[0].freq != 0.0
  {
    if rows != [] {
      KeepNewSpacing(rows[..|rows| - 1]);
    }
  }

  lemma SubseqExtend<T>(a: seq<T>, b: seq<T>, x: T)
    requires IsSubseq(a, b)
    ensures IsSubseq(a, b + [x]) && IsSubseq(a + [x], b + [x])
  {
    assert (b + [x])[..|b|] == b;
    assert (a + [x])[..|a|] == a;
  }

  /** The kept rows are the read rows with some left out, in file order. */
  lemma {:induction false} KeepNewSubseq(rows: seq<Row>)
    ensures IsSubseq(KeepNew(rows), rows)
  {
    if rows != [] {
      var n := |rows|;
      KeepNewSubseq(rows[..n - 1]);
      SubseqExtend(KeepNew(rows[..n - 1]), rows[..n - 1], rows[n - 1]);
      assert rows[..n - 1] + [rows[n - 1]] == rows;
    }
  }

  /** Only repeats are dropped: every frequency other than 0 Hz that was read is kept. */
  lemma {:induction false} KeepNewCovers(rows: seq<Row>, k: nat)
    requires k < |rows| && rows[k].freq != 0.0
    ensures rows[k].freq in Freqs(KeepNew(rows))
  {
    var n := |rows|;
    var prev := KeepNew(rows[..n - 1]);
    if k < n - 1 {
      KeepNewCovers(rows[..n - 1], k);
      assert Freqs(prev) <= Freqs(KeepNew(rows));
    } else if LastFreq(prev) == rows[k].freq {
      assert Freqs(prev)[|prev| - 1] == rows[k].freq;
      assert Freqs(prev) <= Freqs(KeepNew(rows));
    } else {
      assert Freqs(KeepNew(rows))[|prev|] == rows[k].freq;
    }
  }

  /** A file with no repeated neighbours and no leading 0 Hz row is kept whole. */
  lemma {:induction false} KeepNewClean(rows: seq<Row>)
    requires AdjacentDistinct(Freqs(rows))
    requires rows == [] || rows[0].freq != 0.0
    ensures KeepNew(rows) == rows
  {
    if rows != [] {
      var n := |rows|;
      var fr := Freqs(rows[..n - 1]);
      assert AdjacentDistinct(fr) by {
        forall i | 0 <= i < |fr| - 1
          ensures fr[i] != fr[i + 1]
        {
          assert Freqs(rows)[i] != Freqs(rows)[i + 1];
        }
      }
      KeepNewClean(rows[..n - 1]);
      if n > 1 {
        assert Freqs(rows)[n - 2] != Freqs(rows)[n - 1];
      }
      assert rows[..n - 1] + [rows[n - 1]] == rows;
    }
  }

  // ----------------------------------------------------------------------
  // read_fri_diff

  /** Field `k` of a line split on comma, space and tab runs, parsed; `None` for IndexError or ValueError. */
  function FieldValue(fmt: Format, line: string, k: nat): Option<real> {
    var fs := Fields(line);
    if |fs| <= k then None else fmt.parse(fs[k])
  }

  /** The result of `read_fri_diff`: its initial empty list, or a number. */
  datatype FriDiff = NoDiff | Diff(value: real)

  /**
   * Lines 7 and 13 (counting from 0) are read at field 2; the later one
   * wins, a file of at most 7 lines leaves the initial empty list, and a
   * bad line 7 raises even when line 13 is good.
   */
  function FriDiffOf(fmt: Format, lines: seq<string>): Option<FriDiff> {
    if |lines| <= 7 then Some(NoDiff)
    else
      var d7 := FieldValue(fmt, lines[7], 2);
      if d7.None? then None
      else if |lines| <= 13 then Some(Diff(d7.value))
      else
        var d13 := FieldValue(fmt, lines[13], 2);
        if d13.None? then None else Some(Diff(d13.value))
  }

  /** `read_fri_diff(file_path)`, with its line counter. */
  method ReadFriDiff(fmt: Format, lines: seq<string>) returns (r: Option<FriDiff>)
    ensures r == FriDiffOf(fmt, lines)
  {
    var i := 0;
    var diff := NoDiff;
    while i < |lines|
      invariant 0 <= i <= |lines|
      invariant FriDiffOf(fmt, lines[..i]) == Some(diff)
    {
      assert forall k :: 0 <= k < i ==> lines[..i + 1][k] == lines[..i][k];
      if i == 7 || i == 13 {
        var d := FieldValue(fmt, lines[i], 2);
        if d.None? {
          return None;
        }
        diff := Diff(d.value);
      }
      i := i + 1;
    }
    assert lines[..i] == lines;
    r := Some(diff);
  }

  /** Only lines 7 and 13 matter: files agreeing there (and in length) read alike. */
  lemma FriDiffOtherLines(fmt: Format, a: seq<string>, b: seq<string>)
    requires |a| == |b|
    requires |a| > 7 ==> a[7] == b[7]
    requires |a| > 13 ==> a[13] == b[13]
    ensures FriDiffOf(fmt, a) == FriDiffOf(fmt, b)
  {
  }

  // ----------------------------------------------------------------------
  // remove_duplicates

  /** `df.drop_duplicates()`: a row is kept unless an equal row comes earlier. */
  function RemoveDuplicates(rows: seq<Row>): (r: seq<Row>)
    ensures |r| <= |rows|
  {
    if rows == [] then []
    else
      var prev := RemoveDuplicates(rows[..|rows| - 1]);
      if rows[|rows| - 1] in rows[..|rows| - 1] then prev else prev + [rows[|rows| - 1]]
  }

  predicate Distinct<T(==)>(s: seq<T>) {
    forall i, j :: 0 <= i < j < |s| ==> s[i] != s[j]
  }

  /** No row is lost and none is invented. */
  lemma {:induction false} RemoveDuplicatesSameRows(rows: seq<Row>)
    ensures forall x :: x in RemoveDuplicates(rows) <==> x in rows
  {
    if rows != [] {
      var n := |rows|;
      RemoveDuplicatesSameRows(rows[..n - 1]);
      assert rows == rows[..n - 1] + [rows[n - 1]];
    }
  }

  /** No row appears twice. */
  lemma {:induction false} RemoveDuplicatesDistinct(rows: seq<Row>)
    ensures Distinct(RemoveDuplicates(rows))
  {
    if rows != [] {
      var n := |rows|;
      RemoveDuplicatesDistinct(rows[..n - 1]);
      RemoveDuplicatesSameRows(rows[..n - 1]);
    }
  }

  /** The kept rows come in the order of their first occurrence. */
  lemma {:induction false} RemoveDuplicatesSubseq(rows: seq<Row>)
    ensures IsSubseq(RemoveDuplicates(rows), rows)
  {
    if rows != [] {
      var n := |rows|;
      RemoveDuplicatesSubseq(rows[..n - 1]);
      SubseqExtend(RemoveDuplicates(rows[..n - 1]), rows[..n - 1], rows[n - 1]);
      assert rows[..n - 1] + [rows[n - 1]] == rows;
    }
  }

  /** A table with no repeated row is left as it is. */
  lemma {:induction false} RemoveDuplicatesOfDistinct(rows: seq<Row>)
    requires Distinct(rows)
    ensures RemoveDuplicates(rows) == rows
  {
    if rows != [] {
      var n := |rows|;
      RemoveDuplicatesOfDistinct(rows[..n - 1]);
      assert rows == rows[..n - 1] + [rows[n - 1]];
    }
  }

  /** Removing duplicates twice is removing them once. */
  lemma RemoveDuplicatesIdempotent(rows: seq<Row>)
    ensures RemoveDuplicates(RemoveDuplicates(rows)) == RemoveDuplicates(rows)
  {
    RemoveDuplicatesDistinct(rows);
    RemoveDuplicatesOfDistinct(RemoveDuplicates(rows));
  }

  // ----------------------------------------------------------------------
  // The YAML settings writers

  /** The device section `write_eq_settings_yml0` writes, up to the "filters:" key. */
  const DeviceHeader: seq<string> := [
    "devices:\n",
    "  capture:\n",
    "    type: CoreAudio\n",
    "    device: \"BlackHole 2ch\"\n",
    "  playback:\n",
    "    type: CoreAudio\n",
    "    device: \"MacBook Pro Speakers\"\n",
    "\n",
    "filters:\n"]

  /**
   * `write_eq_settings_yml0(out_path, target_type)`: only the "artificial"
   * pass opens the file, with 'w'; any other target type leaves it alone.
   */
  method WriteYml0(file: TextFile, targetType: string)
    modifies file
    ensures targetType == "artificial" ==> file.lines == DeviceHeader
    ensures targetType != "artificial" ==> file.lines == old(file.lines)
  {
    if targetType == "artificial" {
      file.Truncate();
      file.Append(DeviceHeader);
    }
  }

  /** The name of the n-th band's filter, `target_type + "_eq" + str(n)`. */
  function EqTitle(targetType: string, n: nat): string {
    targetType + "_eq" + Decimal(n)
  }

  /** The seven lines of one Peaking biquad filter. */
  function BiquadEntry(fmt: Format, title: string, b: Band): (entry: seq<string>)
    ensures |entry| == 7
  {
    ["  " + title + ":\n",
     "    type: Biquad\n",
     "    parameters:\n",
     "      type: Peaking\n",
     "      freq: " + fmt.fixed2(b.freq) + "\n",
     "      q: " + fmt.fixed3(b.q) + "\n",
     "      gain: " + fmt.fixed2(b.gain) + "\n"]
  }

  /** The filter entries for `bands`, numbered from 1 in order. */
  function Yml1Lines(fmt: Format, targetType: string, bands: seq<Band>): seq<string> {
    if bands == [] then []
    else
      var n := |bands|;
      Yml1Lines(fmt, targetType, bands[..n - 1]) + BiquadEntry(fmt, EqTitle(targetType, n), bands[n - 1])
  }

  lemma SliceOfLeft<T>(a: seq<T>, b: seq<T>, i: nat, j: nat)
    requires i <= j <= |a|
    ensures (a + b)[i..j] == a[i..j]
  {
  }

  /**
   * Seven lines per band: entry k (from 0) starts at line 7·k and is the
   * biquad entry titled `<target_type>_eq<k+1>` with band k's values.
   */
  lemma {:induction false} Yml1Shape(fmt: Format, targetType: string, bands: seq<Band>, k: nat)
    requires k < |bands|
    ensures |Yml1Lines(fmt, targetType, bands)| == 7 * |bands|
    ensures Yml1Lines(fmt, targetType, bands)[7 * k..7 * k + 7] == BiquadEntry(fmt, EqTitle(targetType, k + 1), bands[k])
  {
    var n := |bands|;
    var lines := Yml1Lines(fmt, targetType, bands);
    var prev := Yml1Lines(fmt, targetType, bands[..n - 1]);
    var entry := BiquadEntry(fmt, EqTitle(targetType, n), bands[n - 1]);
    assert lines == prev + entry;
    Yml1Length(fmt, targetType, bands);
    Yml1Length(fmt, targetType, bands[..n - 1]);
    if k < n - 1 {
      assert bands[..n - 1][k] == bands[k];
      Yml1Shape(fmt, targetType, bands[..n - 1], k);
      SliceOfLeft(prev, entry, 7 * k, 7 * k + 7);
    } else {
      assert 7 * k == |prev|;
      assert lines[|prev|..|lines|] == entry;
    }
  }

  lemma {:induction false} Yml1Length(fmt: Format, targetType: string, bands: seq<Band>)
    ensures |Yml1Lines(fmt, targetType, bands)| == 7 * |bands|
  {
    if bands != [] {
      Yml1Length(fmt, targetType, bands[..|bands| - 1]);
    }
  }

  /**
   * `write_eq_settings_yml1(fs, gs, qs, out_path, target_type)`: one entry
   * per index of `fs`, appended. A shorter `gs` or `qs` raises IndexError
   * after the entries before it are written; `ok` is false then.
   */
  method WriteYml1(fmt: Format, file: TextFile, fs: seq<real>, gs: seq<real>, qs: seq<real>, targetType: string)
    returns (ok: bool)
    modifies file
    ensures ok <==> |gs| >= |fs| && |qs| >= |fs|
    ensures file.lines == old(file.lines) + Yml1Lines(fmt, targetType, Zip3(fs, gs, qs))
  {
    ghost var bands := Zip3(fs, gs, qs);
    var i := 0;
    while i < |fs|
      invariant 0 <= i <= |fs| && i <= |bands|
      invariant file.lines == old(file.lines) + Yml1Lines(fmt, targetType, bands[..i])
    {
      if i >= |gs| || i >= |qs| {
        assert bands[..i] == bands;
        return false;
      }
      var freq, gain, q := fs[i], gs[i], qs[i];
      var n := i + 1;
      var title := targetType + "_eq" + Decimal(n);
      file.Append(BiquadEntry(fmt, title, Band(freq, gain, q)));
      assert bands[..i + 1][..i] == bands[..i];
      i := i + 1;
    }
    assert bands[..i] == bands;
    ok := true;
  }

  /** The four lines of the Gain filter `<target_type>_gain`, with gain `str(g_diff)`. */
  function GainEntry(fmt: Format, targetType: string, gDiff: real): (entry: seq<string>)
    ensures |entry| == 4 && entry[0] == "  " + (targetType + "_gain") + ":\n"
    ensures entry[3] == "      gain: " + fmt.repr(gDiff) + "\n"
  {
    var title := targetType + "_gain";
    ["  " + title + ":\n",
     "    type: Gain\n",
     "    parameters:\n",
     "      gain: " + fmt.repr(gDiff) + "\n"]
  }

  /** `write_eq_settings_yml2(out_path, target_type, g_diff)`: the gain entry, appended. */
  method WriteYml2(fmt: Format, file: TextFile, targetType: string, gDiff: real)
    modifies file
    ensures file.lines == old(file.lines) + GainEntry(fmt, targetType, gDiff)
  {
    var title := targetType + "_gain";
    file.Append(["  " + title + ":\n", "    type: Gain\n", "    parameters:\n", "      gain: " + fmt.repr(gDiff) + "\n"]);
  }

  /** The two output channels of one side: 2 and 4 for "L", 3 and 5 otherwise. */
  function Channels(lr: string): (ch: seq<nat>)
    ensures |ch| == 2
  {
    if lr == "L" then [2, 4] else [3, 5]
  }

  /** Which set of filters a channel runs: channels 2 and 3 the artificial ones. */
  function Side(j: nat): string {
    if j == 2 || j == 3 then "artificial" else "natural"
  }

  function NameLine(title: string): string {
    "      - " + title + "\n"
  }

  /** The names of the first `n` band filters of a side. */
  function EqNames(side: string, n: nat): (names: seq<string>)
    ensures |names| == n
  {
    seq(n, k requires 0 <= k < n => NameLine(EqTitle(side, k + 1)))
  }

  /** Name k (from 0) is the filter of band k + 1. */
  lemma EqNamesAt(side: string, n: nat, k: nat)
    requires k < n
    ensures EqNames(side, n)[k] == NameLine(EqTitle(side, k + 1))
  {
  }

  lemma EqNamesNext(side: string, n: nat)
    ensures EqNames(side, n + 1) == EqNames(side, n) + [NameLine(EqTitle(side, n + 1))]
  {
  }

  function BlockHead(j: nat): seq<string> {
    ["  - type: Filter\n", "    channel: " + Decimal(j) + "\n", "    names:\n"]
  }

  /** One Filter step of the pipeline: its channel, its band filters and its gain filter. */
  function ChannelBlock(j: nat, bandNum: nat): seq<string> {
    BlockHead(j) + EqNames(Side(j), bandNum) + [NameLine(Side(j) + "_gain")]
  }

  /** The channel blocks for the first `c` channels of `ch`. */
  function Blocks(ch: seq<nat>, c: nat, bandNum: nat): seq<string>
    requires c <= |ch|
  {
    if c == 0 then [] else Blocks(ch, c - 1, bandNum) + ChannelBlock(ch[c - 1], bandNum)
  }

  lemma NameLineInjective(t: string, u: string)
    requires NameLine(t) == NameLine(u)
    ensures t == u
  {
    assert t == NameLine(t)[8..|NameLine(t)| - 1];
    assert u == NameLine(u)[8..|NameLine(u)| - 1];
  }

  lemma HeadHoldsNoName(j: nat, title: string)
    ensures NameLine(title) !in BlockHead(j)
  {
    var head := BlockHead(j);
    assert head[0][2] == '-';
    assert head[1][4] == 'c';
    assert head[2][4] == 'n';
    assert NameLine(title)[2] == ' ' && NameLine(title)[4] == ' ';
  }

  lemma BandTitleDefined(fmt: Format, side: string, bands: seq<Band>, k: nat)
    requires k < |bands|
    ensures "  " + EqTitle(side, k + 1) + ":\n" in Yml1Lines(fmt, side, bands)
  {
    Yml1Shape(fmt, side, bands, k);
    assert Yml1Lines(fmt, side, bands)[7 * k] == Yml1Lines(fmt, side, bands)[7 * k..7 * k + 7][0];
  }

  /**
   * Every name a channel block lists is defined in the filters section of
   * its side: a band name by the biquad entry of that band, the gain name
   * by the gain entry.
   */
  lemma PipelineNamesDefined(fmt: Format, j: nat, bands: seq<Band>, gDiff: real, title: string)
    requires NameLine(title) in ChannelBlock(j, |bands|)
    ensures "  " + title + ":\n" in Yml1Lines(fmt, Side(j), bands) + GainEntry(fmt, Side(j), gDiff)
  {
    var side, n := Side(j), |bands|;
    var names := EqNames(side, n);
    assert ChannelBlock(j, n) == BlockHead(j) + names + [NameLine(side + "_gain")];
    HeadHoldsNoName(j, title);
    if NameLine(title) in names {
      var k :| 0 <= k < n && names[k] == NameLine(title);
      NameLineInjective(title, EqTitle(side, k + 1));
      BandTitleDefined(fmt, side, bands, k);
    } else {
      assert NameLine(title) == NameLine(side + "_gain");
      NameLineInjective(title, side + "_gain");
      assert GainEntry(fmt, side, gDiff)[0] in GainEntry(fmt, side, gDiff);
    }
  }

  /** The blank line and the heading that open the pipeline section. */
  const PipelineHead: seq<string> := ["\n", "pipeline:\n"]

  /** Everything `write_eq_settings_yml3` appends. */
  function Yml3Lines(lr: string, bandNum: nat): seq<string> {
    PipelineHead + Blocks(Channels(lr), 2, bandNum)
  }

  /** A channel block: its head, the band filters 1..band_num of its side, then that side's gain. */
  lemma ChannelBlockShape(j: nat, bandNum: nat)
    ensures var block := ChannelBlock(j, bandNum);
      && |block| == bandNum + 4
      && block[..3] == BlockHead(j)
      && block[3..3 + bandNum] == EqNames(Side(j), bandNum)
      && block[3 + bandNum] == NameLine(Side(j) + "_gain")
  {
    var block := ChannelBlock(j, bandNum);
    assert block == BlockHead(j) + EqNames(Side(j), bandNum) + [NameLine(Side(j) + "_gain")];
  }

  /**
   * The pipeline section: a channel block for the artificial filters on
   * channel 2 ("L") or 3, then one for the natural filters on channel 4
   * ("L") or 5, each with band_num + 1 names.
   */
  lemma Yml3Shape(lr: string, bandNum: nat)
    ensures var lines, m := Yml3Lines(lr, bandNum), bandNum;
      && |lines| == 10 + 2 * m
      && lines[..2] == ["\n", "pipeline:\n"]
      && lines[2..6 + m] == ChannelBlock(if lr == "L" then 2 else 3, m)
      && lines[6 + m..] == ChannelBlock(if lr == "L" then 4 else 5, m)
    ensures Side(if lr == "L" then 2 else 3) == "artificial"
    ensures Side(if lr == "L" then 4 else 5) == "natural"
  {
    var ch := Channels(lr);
    var a, b := ChannelBlock(ch[0], bandNum), ChannelBlock(ch[1], bandNum);
    assert Blocks(ch, 1, bandNum) == Blocks(ch, 0, bandNum) + a;
    assert Yml3Lines(lr, bandNum) == ["\n", "pipeline:\n"] + a + b;
    ChannelBlockShape(ch[0], bandNum);
    ChannelBlockShape(ch[1], bandNum);
  }

  /** One pass of the `for j in ch` loop of `write_eq_settings_yml3`. */
  method AppendChannelBlock(file: TextFile, j: nat, bandNum: nat)
    modifies file
    ensures file.lines == old(file.lines) + ChannelBlock(j, bandNum)
  {
    file.Append(["  - type: Filter\n", "    channel: " + Decimal(j) + "\n", "    names:\n"]);
    var side := if j == 2 || j == 3 then "artificial" else "natural";
    assert side == Side(j);
    ghost var head := file.lines;
    assert head == old(file.lines) + BlockHead(j);
    var k := 0;
    while k < bandNum
      invariant 0 <= k <= bandNum
      invariant file.lines == head + EqNames(side, k)
    {
      var n := k + 1;
      var title := side + "_eq" + Decimal(n);
      file.Append(["      - " + title + "\n"]);
      EqNamesNext(side, k);
      k := k + 1;
    }
    assert k == bandNum;
    var title := side + "_gain";
    file.Append(["      - " + title + "\n"]);
    assert file.lines == head + EqNames(side, k) + [NameLine(Side(j) + "_gain")];
  }

  lemma BlocksNext(ch: seq<nat>, c: nat, bandNum: nat)
    requires c < |ch|
    ensures Blocks(ch, c + 1, bandNum) == Blocks(ch, c, bandNum) + ChannelBlock(ch[c], bandNum)
  {
  }

  lemma AppendAssoc(a: seq<string>, b: seq<string>, c: seq<string>)
    ensures a + b + c == a + (b + c)
  {
  }

  /** `write_eq_settings_yml3(out_path, lr, band_num)`: the pipeline section, appended. */
  method WriteYml3(file: TextFile, lr: string, bandNum: nat)
    modifies file
    ensures file.lines == old(file.lines) + Yml3Lines(lr, bandNum)
  {
    file.Append(PipelineHead);
    var ch := Channels(lr);
    ghost var head := file.lines;
    var c := 0;
    while c < |ch|
      invariant 0 <= c <= |ch|
      invariant file.lines == head + Blocks(ch, c, bandNum)
    {
      AppendChannelBlock(file, ch[c], bandNum);
      BlocksNext(ch, c, bandNum);
      AppendAssoc(head, Blocks(ch, c, bandNum), ChannelBlock(ch[c], bandNum));
      c := c + 1;
    }
    AppendAssoc(old(file.lines), PipelineHead, Blocks(ch, 2, bandNum));
  }
}
