/**
 * Text primitives the readers and writers rely on: Python's `str.split()`
 * (runs of whitespace, no empty words), `re.split(r'[, \t]+', line)` (runs of
 * separators, empty leading and trailing fields kept) and `str(n)` for a
 * natural number.
 */
module Text {

  /**
   * The characters `str.split()` treats as whitespace: the ASCII ones and
   * the Unicode spaces and line separators that `str.isspace()` accepts.
   */
  predicate IsSpace(c: char) {
    || c == ' ' || 9 <= c as int <= 13 || 28 <= c as int <= 31
    || c as int == 0x85 || c as int == 0xA0 || c as int == 0x1680
    || 0x2000 <= c as int <= 0x200A || c as int == 0x2028 || c as int == 0x2029
    || c as int == 0x202F || c as int == 0x205F || c as int == 0x3000
  }

  predicate NoSpace(s: string) {
    forall i :: 0 <= i < |s| ==> !IsSpace(s[i])
  }

  predicate AllSpace(s: string) {
    forall i :: 0 <= i < |s| ==> IsSpace(s[i])
  }

  /** The longest prefix of `s` that holds no whitespace. */
  function Token(s: string): (w: string)
    ensures |w| <= |s| && w == s[..|w|] && NoSpace(w)
    ensures |w| < |s| ==> IsSpace(s[|w|])
    ensures s != [] && !IsSpace(s[0]) ==> |w| > 0
  {
    if s == [] || IsSpace(s[0]) then [] else [s[0]] + Token(s[1..])
  }

  /** Python's `s.split()`: the maximal whitespace-free words of `s`, in order. */
  function Split(s: string): (ws: seq<string>)
    ensures forall k :: 0 <= k < |ws| ==> ws[k] != [] && NoSpace(ws[k])
    decreases |s|
  {
    if s == [] then []
    else if IsSpace(s[0]) then Split(s[1..])
    else
      var w := Token(s);
      [w] + Split(s[|w|..])
  }

  lemma {:induction false} TokenOfWord(w: string, rest: string)
    requires NoSpace(w)
    requires rest == [] || IsSpace(rest[0])
    ensures Token(w + rest) == w
  {
    if w == [] {
      assert w + rest == rest;
    } else {
      assert (w + rest)[1..] == w[1..] + rest;
      TokenOfWord(w[1..], rest);
    }
  }

  lemma {:induction false} SplitSkipsSpace(sp: string, rest: string)
    requires AllSpace(sp)
    ensures Split(sp + rest) == Split(rest)
  {
    if sp == [] {
      assert sp + rest == rest;
    } else {
      assert (sp + rest)[1..] == sp[1..] + rest;
      SplitSkipsSpace(sp[1..], rest);
    }
  }

  /** A word followed by whitespace is split off as the first word. */
  lemma SplitWord(w: string, sp: string, rest: string)
    requires w != [] && NoSpace(w)
    requires sp != [] && AllSpace(sp)
    ensures Split(w + (sp + rest)) == [w] + Split(rest)
  {
    var s := w + (sp + rest);
    TokenOfWord(w, sp + rest);
    assert s[|w|..] == sp + rest;
    SplitSkipsSpace(sp, rest);
  }

  /** A line laid out as word, separator, word, separator, ... */
  function Glue(parts: seq<(string, string)>): string {
    if parts == [] then "" else parts[0].0 + (parts[0].1 + Glue(parts[1..]))
  }

  function Words(parts: seq<(string, string)>): (ws: seq<string>)
    ensures |ws| == |parts|
    ensures forall k :: 0 <= k < |parts| ==> ws[k] == parts[k].0
  {
    if parts == [] then [] else [parts[0].0] + Words(parts[1..])
  }

  /** Every word is non-empty and whitespace-free, every separator is non-empty whitespace. */
  predicate WellSpaced(parts: seq<(string, string)>) {
    forall k :: 0 <= k < |parts| ==>
      parts[k].0 != [] && NoSpace(parts[k].0) && parts[k].1 != [] && AllSpace(parts[k].1)
  }

  /** Splitting a well-spaced line gives back exactly its words. */
  lemma {:induction false} SplitGlue(parts: seq<(string, string)>)
    requires WellSpaced(parts)
    ensures Split(Glue(parts)) == Words(parts)
  {
    if parts != [] {
      assert WellSpaced(parts[1..]) by {
        forall k | 0 <= k < |parts[1..]|
          ensures parts[1..][k].0 != [] && NoSpace(parts[1..][k].0)
          ensures parts[1..][k].1 != [] && AllSpace(parts[1..][k].1)
        {
          assert parts[1..][k] == parts[k + 1];
        }
      }
      SplitWord(parts[0].0, parts[0].1, Glue(parts[1..]));
      SplitGlue(parts[1..]);
    }
  }

  /** The separators of `re.split(r'[, \t]+', line)`. */
  predicate IsSep(c: char) {
    c == ',' || c == ' ' || c == '\t'
  }

  /** The longest prefix of `s` free of separators. */
  function FieldHead(s: string): (f: string)
    ensures |f| <= |s| && f == s[..|f|]
    ensures forall i :: 0 <= i < |f| ==> !IsSep(f[i])
    ensures |f| < |s| ==> IsSep(s[|f|])
  {
    if s == [] || IsSep(s[0]) then [] else [s[0]] + FieldHead(s[1..])
  }

  /** `s` with its leading run of separators removed. */
  function DropSeps(s: string): (r: string)
    ensures |r| <= |s| && r == s[|s| - |r|..]
    ensures r == [] || !IsSep(r[0])
    ensures s != [] && IsSep(s[0]) ==> |r| < |s|
  {
    if s != [] && IsSep(s[0]) then DropSeps(s[1..]) else s
  }

  /**
   * `re.split(r'[, \t]+', s)`: the pieces between maximal separator runs.
   * A leading run yields an empty first field and a trailing run an empty last one.
   */
  function Fields(s: string): (fs: seq<string>)
    ensures |fs| >= 1
    decreases |s|
  {
    var f := FieldHead(s);
    var rest := s[|f|..];
    if rest == [] then [f] else [f] + Fields(DropSeps(rest))
  }

  function Digit(d: nat): char
    requires d < 10
  {
    "0123456789"[d]
  }

  /** `str(n)` for a natural number. */
  function Decimal(n: nat): (s: string)
    ensures s != [] && NoSpace(s)
  {
    if n < 10 then [Digit(n)] else Decimal(n / 10) + [Digit(n % 10)]
  }
}
