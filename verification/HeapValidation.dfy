/** What `validate_profile` of `src/heap/mod.rs` demands of a heap profile before it enters a session. */
module HeapValidation {
  import opened Prelude
  import opened Pprof

  function MappingId(m: Mapping): u64 { m.id }

  function FunctionId(f: Function): u64 { f.id }

  function LocationId(l: Location): u64 { l.id }

  function Ids<T>(items: seq<T>, id: T -> u64): set<u64> {
    set i | 0 <= i < |items| :: id(items[i])
  }

  predicate UniqueIds<T>(items: seq<T>, id: T -> u64) {
    && (forall i :: 0 <= i < |items| ==> id(items[i]) != 0)
    && (forall i, j :: 0 <= i < j < |items| ==> id(items[i]) != id(items[j]))
  }

  predicate MappingStrings(m: Mapping, n: nat) {
    m.filename < n && m.buildId < n
  }

  predicate FunctionStrings(f: Function, n: nat) {
    f.name < n && f.systemName < n && f.filename < n
  }

  predicate LocationResolves(l: Location, mappings: set<u64>, functions: set<u64>) {
    && (l.mappingId == 0 || l.mappingId in mappings)
    && (forall line :: line in l.lines ==> line.functionId in functions)
  }

  predicate LabelStrings(l: Label, n: nat) {
    l.key < n && l.strIndex < n && l.numUnit < n
  }

  predicate SampleResolves(s: Sample, locations: set<u64>, n: nat) {
    && (forall id :: id in s.locationIds ==> id in locations)
    && (forall l :: l in s.labels ==> LabelStrings(l, n))
  }

  /** The tables are consistent: nonzero unique ids, and every reference resolves. */
  predicate TablesResolve(p: Profile) {
    var n := |p.strings.strings|;
    && n > 0 && p.strings.strings[0] == []
    && UniqueIds(p.mappings, MappingId) && UniqueIds(p.functions, FunctionId) && UniqueIds(p.locations, LocationId)
    && (forall m :: m in p.mappings ==> MappingStrings(m, n))
    && (forall f :: f in p.functions ==> FunctionStrings(f, n))
    && (forall l :: l in p.locations ==> LocationResolves(l, Ids(p.mappings, MappingId), Ids(p.functions, FunctionId)))
    && (forall s :: s in p.samples ==> SampleResolves(s, Ids(p.locations, LocationId), n))
  }

  predicate HeaderStrings(p: Profile) {
    var n := |p.strings.strings|;
    && (forall c :: c in p.comments ==> c < n)
    && p.defaultSampleType < n && p.docUrl < n && p.dropFrames < n && p.keepFrames < n
    && p.periodType.typ < n && p.periodType.unit < n
  }

  // A value type's name and unit.
  type Metric = (Text, Text)

  function MetricOf(strings: StringTable, v: ValueType): Metric {
    (strings.Get(v.typ), strings.Get(v.unit))
  }

  function Metrics(p: Profile): (metrics: seq<Metric>)
    ensures |metrics| == |p.valueTypes|
  {
    seq(|p.valueTypes|, i requires 0 <= i < |p.valueTypes| => MetricOf(p.strings, p.valueTypes[i]))
  }

  predicate HeapMetric(m: Metric) {
    || (m.0 == Ascii("alloc_space") && m.1 == Ascii("bytes"))
    || (m.0 == Ascii("inuse_space") && m.1 == Ascii("bytes"))
    || (m.0 == Ascii("alloc_objects") && m.1 == Ascii("count"))
    || (m.0 == Ascii("inuse_objects") && m.1 == Ascii("count"))
  }

  /** Some of the four heap metrics, none of them twice. */
  predicate HeapShape(p: Profile) {
    var metrics := Metrics(p);
    && metrics != []
    && (forall v :: v in p.valueTypes ==> v.typ < |p.strings.strings| && v.unit < |p.strings.strings|)
    && (forall i, j :: 0 <= i < j < |metrics| ==> metrics[i].0 != metrics[j].0)
    && (forall m :: m in metrics ==> HeapMetric(m))
    && (forall s :: s in p.samples ==> |s.values| == |p.valueTypes|)
  }

  /** `validate_profile` accepts. */
  predicate Accepts(p: Profile) {
    TablesResolve(p) && HeaderStrings(p) && HeapShape(p)
  }

  // ----- The checks, in the source's order -----

  lemma IdsNext<T>(items: seq<T>, id: T -> u64)
    requires items != []
    ensures Ids(items, id) == Ids(items[..|items| - 1], id) + {id(items[|items| - 1])}
  {
    var n := |items| - 1;
    forall x | x in Ids(items, id) ensures x in Ids(items[..n], id) + {id(items[n])} {
      var i :| 0 <= i < |items| && id(items[i]) == x;
      assert i < n ==> items[..n][i] == items[i];
    }
    forall x | x in Ids(items[..n], id) ensures x in Ids(items, id) {
      var i :| 0 <= i < n && id(items[..n][i]) == x;
      assert items[..n][i] == items[i];
    }
  }

  /** A set of ids is as large as the table exactly if no id repeats. */
  lemma {:induction false} IdsSize<T>(items: seq<T>, id: T -> u64)
    ensures |Ids(items, id)| <= |items|
    ensures |Ids(items, id)| == |items| <==> forall i, j :: 0 <= i < j < |items| ==> id(items[i]) != id(items[j])
    decreases |items|
  {
    if items == [] {
      assert Ids(items, id) == {};
    } else {
      var n := |items| - 1;
      IdsSize(items[..n], id);
      IdsNext(items, id);
      assert forall i :: 0 <= i < n ==> items[..n][i] == items[i];
      if id(items[n]) in Ids(items[..n], id) {
        var i :| 0 <= i < n && id(items[..n][i]) == id(items[n]);
        assert id(items[i]) == id(items[n]);
      }
    }
  }

  // `unique_ids`: a set of all ids, which must be as many as there are, and not zero.
  method CollectIds<T>(items: seq<T>, id: T -> u64) returns (ids: Option<set<u64>>)
    ensures ids == if UniqueIds(items, id) then Some(Ids(items, id)) else None
  {
    var all: set<u64> := {};
    for i := 0 to |items|
      invariant all == Ids(items[..i], id)
    {
      IdsNext(items[..i + 1], id);
      assert items[..i + 1][..i] == items[..i];
      all := all + {id(items[i])};
    }
    assert items[..|items|] == items;
    IdsSize(items, id);
    if |all| != |items| || 0 in all {
      return None;
    }
    return Some(all);
  }

  method TablesPass(p: Profile) returns (ok: bool)
    ensures ok == TablesResolve(p)
  {
    hide UniqueIds, Ids;
    var n := |p.strings.strings|;
    if n == 0 || p.strings.strings[0] != [] {
      return false;
    }
    var mappings := CollectIds(p.mappings, MappingId);
    var functions := CollectIds(p.functions, FunctionId);
    var locations := CollectIds(p.locations, LocationId);
    if mappings.None? || functions.None? || locations.None? {
      return false;
    }
    for i := 0 to |p.mappings|
      invariant forall k :: 0 <= k < i ==> MappingStrings(p.mappings[k], n)
    {
      if p.mappings[i].filename >= n || p.mappings[i].buildId >= n {
        assert p.mappings[i] in p.mappings;
        return false;
      }
    }
    for i := 0 to |p.functions|
      invariant forall k :: 0 <= k < i ==> FunctionStrings(p.functions[k], n)
    {
      if p.functions[i].name >= n || p.functions[i].systemName >= n || p.functions[i].filename >= n {
        assert p.functions[i] in p.functions;
        return false;
      }
    }
    for i := 0 to |p.locations|
      invariant forall k :: 0 <= k < i ==> LocationResolves(p.locations[k], mappings.value, functions.value)
    {
      var resolves := LocationPasses(p.locations[i], mappings.value, functions.value);
      if !resolves {
        assert p.locations[i] in p.locations;
        return false;
      }
    }
    for i := 0 to |p.samples|
      invariant forall k :: 0 <= k < i ==> SampleResolves(p.samples[k], locations.value, n)
    {
      var resolves := SamplePasses(p.samples[i], locations.value, n);
      if !resolves {
        assert p.samples[i] in p.samples;
        return false;
      }
    }
    return true;
  }

  method LocationPasses(l: Location, mappings: set<u64>, functions: set<u64>) returns (ok: bool)
    ensures ok == LocationResolves(l, mappings, functions)
  {
    if l.mappingId != 0 && l.mappingId !in mappings {
      return false;
    }
    for i := 0 to |l.lines|
      invariant forall k :: 0 <= k < i ==> l.lines[k].functionId in functions
    {
      if l.lines[i].functionId !in functions {
        return false;
      }
    }
    return true;
  }

  method SamplePasses(s: Sample, locations: set<u64>, n: nat) returns (ok: bool)
    ensures ok == SampleResolves(s, locations, n)
  {
    for i := 0 to |s.locationIds|
      invariant forall k :: 0 <= k < i ==> s.locationIds[k] in locations
    {
      if s.locationIds[i] !in locations {
        return false;
      }
    }
    for i := 0 to |s.labels|
      invariant forall k :: 0 <= k < i ==> LabelStrings(s.labels[k], n)
    {
      var l := s.labels[i];
      if l.key >= n || l.strIndex >= n || l.numUnit >= n {
        assert l in s.labels;
        return false;
      }
    }
    return true;
  }

  method HeaderPasses(p: Profile) returns (ok: bool)
    ensures ok == HeaderStrings(p)
  {
    var n := |p.strings.strings|;
    for i := 0 to |p.comments|
      invariant forall k :: 0 <= k < i ==> p.comments[k] < n
    {
      if p.comments[i] >= n {
        assert p.comments[i] in p.comments;
        return false;
      }
    }
    ok := p.defaultSampleType < n && p.docUrl < n && p.dropFrames < n && p.keepFrames < n
          && p.periodType.typ < n && p.periodType.unit < n;
  }

  method ShapePasses(p: Profile) returns (ok: bool)
    ensures ok == HeapShape(p)
  {
    hide HeapMetric;
    var n := |p.strings.strings|;
    ghost var metrics := Metrics(p);
    if p.valueTypes == [] {
      return false;
    }
    var seen: set<Text> := {};
    for i := 0 to |p.valueTypes|
      invariant forall k :: 0 <= k < i ==> p.valueTypes[k].typ < n && p.valueTypes[k].unit < n && HeapMetric(metrics[k])
      invariant forall t :: t in seen <==> exists k :: 0 <= k < i && metrics[k].0 == t
      invariant forall j, k :: 0 <= j < k < i ==> metrics[j].0 != metrics[k].0
    {
      var v := p.valueTypes[i];
      assert v in p.valueTypes && metrics[i] in metrics && metrics[i] == MetricOf(p.strings, v);
      if v.typ >= n || v.unit >= n {
        return false;
      }
      var name := p.strings.strings[v.typ];
      if name in seen || !HeapMetric((name, p.strings.strings[v.unit])) {
        return false;
      }
      seen := seen + {name};
    }
    for i := 0 to |p.samples|
      invariant forall k :: 0 <= k < i ==> |p.samples[k].values| == |p.valueTypes|
    {
      if |p.samples[i].values| != |p.valueTypes| {
        assert p.samples[i] in p.samples;
        return false;
      }
    }
    return true;
  }

  /** `validate_profile`: one pass over every table, and it passes exactly what is meant. */
  method ValidateProfile(p: Profile) returns (ok: bool)
    ensures ok == Accepts(p)
  {
    hide TablesResolve, HeaderStrings, HeapShape;
    ok := TablesPass(p);
    if ok {
      ok := HeaderPasses(p);
    }
    if ok {
      ok := ShapePasses(p);
    }
  }
}
