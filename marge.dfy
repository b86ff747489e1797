/**
 * Merging a left and a right CamillaDSP settings file into one: filter
 * names get an "L_" or "R_" prefix, the two pipelines are renamed the same
 * way and framed by fixed Copy and Mix steps. YAML parsing and dumping are
 * not modelled; the configurations are given as loaded values.
 */
module Marge {
  import opened Wrappers

  /** A value as `yaml.safe_load` builds it; a mapping keeps its key order. */
  datatype Value =
    | Text(s: string)
    | Num(n: int)
    | Null
    | List(items: seq<Value>)
    | Dict(entries: seq<(string, Value)>)

  type Entries = seq<(string, Value)>

  function Keys(d: Entries): (ks: seq<string>)
    ensures |ks| == |d| && forall i :: 0 <= i < |d| ==> ks[i] == d[i].0
  {
    seq(|d|, i requires 0 <= i < |d| => d[i].0)
  }

  /** The keys of two entry lists joined are the keys of each, in order. */
  lemma KeysAppend(a: Entries, b: Entries)
    ensures Keys(a + b) == Keys(a) + Keys(b)
  {
    assert forall i :: 0 <= i < |a| + |b| ==> Keys(a + b)[i] == (Keys(a) + Keys(b))[i];
  }

  /** A Python dict never holds a key twice. */
  predicate UniqueKeys(d: Entries) {
    forall i, j :: 0 <= i < j < |d| ==> d[i].0 != d[j].0
  }

  /** `d.get(k)`: the value stored under `k`, if any. */
  function Get(d: Entries, k: string): (r: Option<Value>)
    ensures r.Some? <==> exists i :: 0 <= i < |d| && d[i].0 == k
    ensures r.Some? ==> exists i :: 0 <= i < |d| && d[i] == (k, r.value)
  {
    if d == [] then None
    else if d[0].0 == k then Some(d[0].1)
    else
      var r := Get(d[1..], k);
      assert forall i :: 0 < i < |d| ==> d[1..][i - 1] == d[i];
      r
  }

  /** `d.get(k, default)`. */
  function GetOr(d: Entries, k: string, default: Value): Value {
    var r := Get(d, k);
    if r.Some? then r.value else default
  }

  /** `d[k] = v`: an existing key keeps its place and gets the new value, a new key goes last. */
  function Set(d: Entries, k: string, v: Value): (r: Entries)
    ensures Get(d, k).Some? ==> Keys(r) == Keys(d)
    ensures Get(d, k).None? ==> r == d + [(k, v)]
  {
    if d == [] then [(k, v)]
    else if d[0].0 == k then [(k, v)] + d[1..]
    else
      var rest := Set(d[1..], k, v);
      assert Keys([d[0]] + rest) == [d[0].0] + Keys(rest);
      assert Keys(d) == [d[0].0] + Keys(d[1..]);
      [d[0]] + rest
  }

  /** After `d[k] = v`, `k` maps to `v` and every other key to what it mapped to before. */
  lemma {:induction false} SetGet(d: Entries, k: string, v: Value, k': string)
    ensures Get(Set(d, k, v), k') == if k' == k then Some(v) else Get(d, k')
  {
    if d != [] && d[0].0 != k && d[0].0 != k' {
      SetGet(d[1..], k, v, k');
    }
  }

  /** `d.update(e)`: every entry of `e`, in order, set into `d`. */
  function Update(d: Entries, e: Entries): Entries
    decreases |e|
  {
    if e == [] then d else Update(Set(d, e[0].0, e[0].1), e[1..])
  }

  /** Updating with keys the dict does not hold appends the new entries in order. */
  lemma {:induction false} UpdateFresh(d: Entries, e: Entries)
    requires UniqueKeys(e)
    requires forall i :: 0 <= i < |e| ==> Get(d, e[i].0).None?
    ensures Update(d, e) == d + e
    decreases |e|
  {
    if e != [] {
      var d' := Set(d, e[0].0, e[0].1);
      assert d' == d + [e[0]];
      forall i | 0 <= i < |e[1..]|
        ensures Get(d', e[1..][i].0).None?
      {
        SetGet(d, e[0].0, e[0].1, e[1..][i].0);
        assert e[1..][i] == e[i + 1];
      }
      UpdateFresh(d', e[1..]);
      assert d' + e[1..] == d + e;
    }
  }

  // ----------------------------------------------------------------------
  // add_prefix

  /** `f"{prefix}_{k}"`. */
  function Prefixed(prefix: string, k: string): string {
    prefix + "_" + k
  }

  /** A fixed prefix never makes two keys equal. */
  lemma PrefixedInjective(prefix: string, a: string, b: string)
    requires Prefixed(prefix, a) == Prefixed(prefix, b)
    ensures a == b
  {
    assert a == Prefixed(prefix, a)[|prefix| + 1..];
    assert b == Prefixed(prefix, b)[|prefix| + 1..];
  }

  /** `add_prefix(d, prefix)`: every key prefixed, values and order unchanged. */
  function AddPrefix(d: Entries, prefix: string): (r: Entries)
    ensures |r| == |d|
  {
    seq(|d|, i requires 0 <= i < |d| => (Prefixed(prefix, d[i].0), d[i].1))
  }

  /** The prefixed dict has as many entries as the original: no two keys merge. */
  lemma AddPrefixUnique(d: Entries, prefix: string)
    requires UniqueKeys(d)
    ensures UniqueKeys(AddPrefix(d, prefix))
  {
    var r := AddPrefix(d, prefix);
    forall i, j | 0 <= i < j < |r|
      ensures r[i].0 != r[j].0
    {
      if r[i].0 == r[j].0 {
        PrefixedInjective(prefix, d[i].0, d[j].0);
      }
    }
  }

  /** The value under `<prefix>_k` is the value that was under `k`. */
  lemma {:induction false} AddPrefixGet(d: Entries, prefix: string, k: string)
    ensures Get(AddPrefix(d, prefix), Prefixed(prefix, k)) == Get(d, k)
  {
    if d != [] {
      assert AddPrefix(d, prefix)[1..] == AddPrefix(d[1..], prefix);
      if Prefixed(prefix, d[0].0) == Prefixed(prefix, k) {
        PrefixedInjective(prefix, d[0].0, k);
      } else {
        AddPrefixGet(d[1..], prefix, k);
      }
    }
  }

  /** Every key of the prefixed dict starts with `<prefix>_`. */
  lemma AddPrefixKeys(d: Entries, prefix: string, i: nat)
    requires i < |d|
    ensures var k := AddPrefix(d, prefix)[i].0;
      |k| > |prefix| && k[..|prefix| + 1] == prefix + "_"
    ensures prefix != [] ==> AddPrefix(d, prefix)[i].0[0] == prefix[0]
  {
    var k := AddPrefix(d, prefix)[i].0;
    assert k == prefix + "_" + d[i].0;
  }

  /** A key that does not start like the prefix is not in the prefixed dict. */
  lemma AddPrefixMiss(d: Entries, prefix: string, k: string)
    requires prefix != [] && (k == [] || k[0] != prefix[0])
    ensures Get(AddPrefix(d, prefix), k).None?
  {
    if Get(AddPrefix(d, prefix), k).Some? {
      var j :| 0 <= j < |d| && AddPrefix(d, prefix)[j].0 == k;
      AddPrefixKeys(d, prefix, j);
    }
  }

  // ----------------------------------------------------------------------
  // update_pipeline

  /**
   * `[f"{prefix}_{name}" for name in names]`: a list of strings, a string
   * (its characters) or a mapping (its keys) can be iterated; anything else
   * raises, and items that are not strings are not modelled. Each item the
   * iteration yields becomes one prefixed string, in order.
   */
  function PrefixNames(prefix: string, names: Value): (r: Option<Value>)
    ensures r.Some? <==> (names.Text? || names.Dict?
      || (names.List? && forall i :: 0 <= i < |names.items| ==> names.items[i].Text?))
    ensures r.Some? ==> var it := Steps(names).value;
      && r.value.List? && |r.value.items| == |it|
      && forall i :: 0 <= i < |it| ==> it[i].Text? && r.value.items[i] == Text(Prefixed(prefix, it[i].s))
  {
    match names
    case List(items) =>
      if forall i :: 0 <= i < |items| ==> items[i].Text? then
        Some(List(seq(|items|, i requires 0 <= i < |items| && items[i].Text? => Text(Prefixed(prefix, items[i].s)))))
      else None
    case Text(s) => Some(List(seq(|s|, i requires 0 <= i < |s| => Text(Prefixed(prefix, [s[i]])))))
    case Dict(entries) => Some(List(seq(|entries|, i requires 0 <= i < |entries| => Text(Prefixed(prefix, entries[i].0)))))
    case _ => None
  }

  /**
   * One step of `update_pipeline`: `dict(step)` copies a mapping (an empty
   * string also gives `{}`, anything else here raises); a "names" list is
   * replaced by its prefixed copy in place.
   */
  function UpdatedStep(prefix: string, step: Value): (r: Option<Value>)
    ensures r.Some? <==> (step == Text("")
      || (step.Dict? && (Get(step.entries, "names").Some? ==> PrefixNames(prefix, Get(step.entries, "names").value).Some?)))
    ensures r.Some? ==> r.value.Dict?
  {
    match step
    case Dict(entries) =>
      var names := Get(entries, "names");
      if names.None? then Some(step)
      else
        var renamed := PrefixNames(prefix, names.value);
        if renamed.None? then None else Some(Dict(Set(entries, "names", renamed.value)))
    case Text(s) => if s == "" then Some(Dict([])) else None
    case _ => None
  }

  /** What `update_pipeline(pipeline, prefix)` returns, or `None` when it raises. */
  function UpdatedPipeline(steps: seq<Value>, prefix: string): (r: Option<seq<Value>>)
    ensures r.None? <==> exists i :: 0 <= i < |steps| && UpdatedStep(prefix, steps[i]).None?
    ensures r.Some? ==> (|r.value| == |steps| &&
      forall i :: 0 <= i < |steps| ==> UpdatedStep(prefix, steps[i]) == Some(r.value[i]))
  {
    if steps == [] then Some([])
    else
      var prev := UpdatedPipeline(steps[..|steps| - 1], prefix);
      var last := UpdatedStep(prefix, steps[|steps| - 1]);
      assert forall i :: 0 <= i < |steps| - 1 ==> steps[..|steps| - 1][i] == steps[i];
      if prev.None? || last.None? then None else Some(prev.value + [last.value])
  }

  /** `update_pipeline(pipeline, prefix)`, looping over the steps. */
  method UpdatePipeline(pipeline: seq<Value>, prefix: string) returns (r: Option<seq<Value>>)
    ensures r == UpdatedPipeline(pipeline, prefix)
  {
    var newPipeline := [];
    var i := 0;
    while i < |pipeline|
      invariant 0 <= i <= |pipeline|
      invariant UpdatedPipeline(pipeline[..i], prefix) == Some(newPipeline)
    {
      assert pipeline[..i + 1][..i] == pipeline[..i];
      var stepCopy := UpdatedStep(prefix, pipeline[i]);
      if stepCopy.None? {
        assert UpdatedStep(prefix, pipeline[i]).None?;
        return None;
      }
      newPipeline := newPipeline + [stepCopy.value];
      i := i + 1;
    }
    assert pipeline[..i] == pipeline;
    r := Some(newPipeline);
  }

  /**
   * A step with "names" keeps its keys in order, gets its names prefixed,
   * and keeps every other value; a step without "names" is copied as it is.
   */
  lemma UpdatedStepEntries(prefix: string, entries: Entries, k: string)
    requires UpdatedStep(prefix, Dict(entries)).Some?
    ensures var r := UpdatedStep(prefix, Dict(entries)).value;
      && r.Dict?
      && Keys(r.entries) == Keys(entries)
      && (k != "names" ==> Get(r.entries, k) == Get(entries, k))
      && (Get(entries, "names").Some? ==> Get(r.entries, "names") == PrefixNames(prefix, Get(entries, "names").value))
  {
    if Get(entries, "names").Some? {
      var renamed := PrefixNames(prefix, Get(entries, "names").value).value;
      SetGet(entries, "names", renamed, k);
      SetGet(entries, "names", renamed, "names");
    }
  }

  // ----------------------------------------------------------------------
  // merge_yml

  function Step(kind: string, channel: int, dest: seq<int>): Value {
    Dict([("type", Text(kind)), ("channel", Num(channel)), ("dest", List(seq(|dest|, i requires 0 <= i < |dest| => Num(dest[i]))))])
  }

  /** Input channel 0 is copied to outputs 2 and 4, channel 1 to 3 and 5. */
  function CopySection(): seq<Value> {
    [Step("Copy", 0, [2, 4]), Step("Copy", 1, [3, 5])]
  }

  function MixSection(): seq<Value> {
    [Step("Mix", 0, [2, 4]), Step("Mix", 1, [3, 5])]
  }

  /** `for step in pipeline`: a list gives its items, a string its characters, a mapping its keys. */
  function Steps(v: Value): Option<seq<Value>> {
    match v
    case List(items) => Some(items)
    case Text(s) => Some(seq(|s|, i requires 0 <= i < |s| => Text([s[i]])))
    case Dict(entries) => Some(seq(|entries|, i requires 0 <= i < |entries| => Text(entries[i].0)))
    case _ => None
  }

  /** The merged filters: the left ones prefixed "L", then the right ones prefixed "R". */
  function MergedFilters(lf: Entries, rf: Entries): Entries {
    Update(Update([], AddPrefix(lf, "L")), AddPrefix(rf, "R"))
  }

  /**
   * The mapping `merge_yml` dumps, or `None` where it raises: a
   * configuration that is not a mapping, filters that are not a mapping, or
   * a pipeline whose steps cannot be copied.
   */
  function MergeYml(left: Value, right: Value): Option<Value> {
    if !left.Dict? || !right.Dict? then None
    else
      var devices := GetOr(left.entries, "devices", Dict([]));
      var lf := GetOr(left.entries, "filters", Dict([]));
      var rf := GetOr(right.entries, "filters", Dict([]));
      if !lf.Dict? || !rf.Dict? then None
      else
        var filters := MergedFilters(lf.entries, rf.entries);
        var lp := Steps(GetOr(left.entries, "pipeline", List([])));
        var rp := Steps(GetOr(right.entries, "pipeline", List([])));
        if lp.None? || rp.None? then None
        else
          var l, r := UpdatedPipeline(lp.value, "L"), UpdatedPipeline(rp.value, "R");
          if l.None? || r.None? then None
          else
            var pipeline := CopySection() + (l.value + r.value) + MixSection();
            Some(Dict([("devices", devices), ("filters", Dict(filters)), ("pipeline", List(pipeline))]))
  }

  /**
   * Both files must load as mappings: an empty file (`None`), a scalar or a
   * list on either side raises.
   */
  lemma MergeYmlNeedsMappings(left: Value, right: Value)
    ensures MergeYml(left, right).Some? ==> left.Dict? && right.Dict?
    ensures MergeYml(Null, right) == None && MergeYml(left, Null) == None
  {
  }

  /** No "L_" key equals an "R_" key. */
  lemma PrefixesDisjoint(lf: Entries, rf: Entries, i: nat)
    requires i < |rf|
    ensures Get(AddPrefix(lf, "L"), AddPrefix(rf, "R")[i].0).None?
  {
    AddPrefixKeys(rf, "R", i);
    AddPrefixMiss(lf, "L", AddPrefix(rf, "R")[i].0);
  }

  /** The merged filters are the "L_" entries followed by the "R_" entries, with no key twice. */
  lemma MergedFiltersConcat(lf: Entries, rf: Entries)
    requires UniqueKeys(lf) && UniqueKeys(rf)
    ensures MergedFilters(lf, rf) == AddPrefix(lf, "L") + AddPrefix(rf, "R")
    ensures |MergedFilters(lf, rf)| == |lf| + |rf|
  {
    var l, r := AddPrefix(lf, "L"), AddPrefix(rf, "R");
    AddPrefixUnique(lf, "L");
    AddPrefixUnique(rf, "R");
    UpdateFresh([], l);
    assert [] + l == l;
    forall i | 0 <= i < |r|
      ensures Get(l, r[i].0).None?
    {
      PrefixesDisjoint(lf, rf, i);
    }
    UpdateFresh(l, r);
  }

  /** No two merged filters share a name, so none was overwritten. */
  lemma MergedFiltersUnique(lf: Entries, rf: Entries)
    requires UniqueKeys(lf) && UniqueKeys(rf)
    ensures UniqueKeys(MergedFilters(lf, rf))
  {
    var l, r := AddPrefix(lf, "L"), AddPrefix(rf, "R");
    MergedFiltersConcat(lf, rf);
    AddPrefixUnique(lf, "L");
    AddPrefixUnique(rf, "R");
    forall i, j | 0 <= i < |l| && 0 <= j < |r|
      ensures l[i].0 != r[j].0
    {
      PrefixesDisjoint(lf, rf, j);
    }
  }

  /** Every left filter is found under its "L_" name. */
  lemma MergedFiltersGetLeft(lf: Entries, rf: Entries, k: string)
    requires UniqueKeys(lf) && UniqueKeys(rf)
    ensures Get(MergedFilters(lf, rf), Prefixed("L", k)) == Get(lf, k)
  {
    var l, r := AddPrefix(lf, "L"), AddPrefix(rf, "R");
    MergedFiltersConcat(lf, rf);
    GetAppend(l, r, Prefixed("L", k));
    AddPrefixGet(lf, "L", k);
    AddPrefixMiss(rf, "R", Prefixed("L", k));
  }

  /** Every right filter is found under its "R_" name. */
  lemma MergedFiltersGetRight(lf: Entries, rf: Entries, k: string)
    requires UniqueKeys(lf) && UniqueKeys(rf)
    ensures Get(MergedFilters(lf, rf), Prefixed("R", k)) == Get(rf, k)
  {
    var l, r := AddPrefix(lf, "L"), AddPrefix(rf, "R");
    MergedFiltersConcat(lf, rf);
    GetAppend(l, r, Prefixed("R", k));
    AddPrefixGet(rf, "R", k);
    AddPrefixMiss(lf, "L", Prefixed("R", k));
  }

  lemma {:induction false} GetAppend(a: Entries, b: Entries, k: string)
    ensures Get(a + b, k) == if Get(a, k).Some? then Get(a, k) else Get(b, k)
  {
    if a != [] {
      assert (a + b)[1..] == a[1..] + b;
      GetAppend(a[1..], b, k);
    } else {
      assert a + b == b;
    }
  }

  /**
   * The merged mapping has exactly the keys devices, filters and pipeline,
   * in that order; devices come from the left file alone (default `{}`);
   * the pipeline is two Copy steps, the renamed left steps, the renamed
   * right steps and two Mix steps.
   */
  lemma MergeYmlShape(left: Value, right: Value)
    requires MergeYml(left, right).Some?
    ensures var m := MergeYml(left, right).value;
      && m.Dict? && Keys(m.entries) == ["devices", "filters", "pipeline"]
      && m.entries[0].1 == GetOr(left.entries, "devices", Dict([]))
      && m.entries[1].1 == Dict(MergedFilters(GetOr(left.entries, "filters", Dict([])).entries,
                                              GetOr(right.entries, "filters", Dict([])).entries))
      && var lp := UpdatedPipeline(Steps(GetOr(left.entries, "pipeline", List([]))).value, "L").value;
         var rp := UpdatedPipeline(Steps(GetOr(right.entries, "pipeline", List([]))).value, "R").value;
         m.entries[2].1 == List(CopySection() + lp + rp + MixSection())
  {
  }

  /** The merged pipeline has four steps more than the two pipelines together. */
  lemma MergeYmlPipelineLength(left: Value, right: Value)
    requires MergeYml(left, right).Some?
    ensures var m := MergeYml(left, right).value;
      m.Dict? && |m.entries| == 3 && m.entries[2].1.List? &&
      |m.entries[2].1.items| == 4 + |Steps(GetOr(left.entries, "pipeline", List([]))).value|
                                  + |Steps(GetOr(right.entries, "pipeline", List([]))).value|
  {
  }

  /** The right file's devices never reach the output. */
  lemma MergeYmlIgnoresRightDevices(left: Value, right: Entries, v: Value)
    ensures MergeYml(left, Dict(Set(right, "devices", v))) == MergeYml(left, Dict(right))
  {
    SetGet(right, "devices", v, "filters");
    SetGet(right, "devices", v, "pipeline");
  }

  /** Two files that each hold an empty mapping `{}` merge into the fixed Copy and Mix steps alone. */
  lemma MergeYmlEmpty()
    ensures MergeYml(Dict([]), Dict([])) ==
      Some(Dict([("devices", Dict([])), ("filters", Dict([])), ("pipeline", List(CopySection() + MixSection()))]))
  {
    assert MergedFilters([], []) == [];
    assert CopySection() + ([] + []) + MixSection() == CopySection() + MixSection();
  }
}
