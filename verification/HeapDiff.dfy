/** Signed differences of compatible heap profiles: `difference` of `src/heap/compare.rs`.

    The result is specified as sums: for every structural key and metric, the output's value is what
    `current` sums to, minus what `base` sums to. */
module HeapDiff {
  import opened Prelude
  import opened Pprof
  import opened HeapValidation
  import opened SampleKeys
  import opened KeyedSums
  import opened TableMerge

  datatype DiffError = InvalidProfile | IncompatibleTypes | DifferentDomains | Overflow | IdOverflow

  const HEAP: Text := Ascii("heap")
  const DIFFERENCE_COMMENT: Text := Ascii("Signed heap difference: ") + Ascii("current snapshot minus ")
    + Ascii("base snapshot.")

  // ----- The checks -----

  predicate SameTypes(b: Profile, c: Profile) {
    && |b.valueTypes| == |c.valueTypes|
    && MetricSet(b) == MetricSet(c)
  }

  function MetricSet(p: Profile): set<Metric> {
    set m | m in Metrics(p)
  }

  /** The values of the labels named `heap`. */
  function Domains(p: Profile): set<Text> {
    set i, j | 0 <= i < |p.samples| && 0 <= j < |p.samples[i].labels|
      && p.strings.Get(p.samples[i].labels[j].key) == HEAP
      :: p.strings.Get(p.samples[i].labels[j].strIndex)
  }

  // What is checked before anything is computed.
  function Incompatible(b: Profile, c: Profile): (e: Option<DiffError>)
    ensures e.None? <==> Accepts(b) && Accepts(c) && SameTypes(b, c) && Domains(b) == Domains(c)
  {
    if !Accepts(b) || !Accepts(c) then Some(InvalidProfile)
    else if !SameTypes(b, c) then Some(IncompatibleTypes)
    else if Domains(b) != Domains(c) then Some(DifferentDomains)
    else None
  }

  // ----- Metric order -----

  function Position(metrics: seq<Metric>, m: Metric): (i: nat)
    requires m in metrics
    ensures i < |metrics| && metrics[i] == m
  {
    if metrics[0] == m then 0 else 1 + Position(metrics[1..], m)
  }

  lemma SharedMetric(b: Profile, c: Profile, m: Metric)
    requires SameTypes(b, c)
    ensures m in Metrics(b) <==> m in Metrics(c)
  {
    assert m in MetricSet(b) <==> m in MetricSet(c);
  }

  /** Where the base keeps each metric of the current profile. */
  function Order(b: Profile, c: Profile): (order: seq<nat>)
    requires SameTypes(b, c)
    ensures |order| == |c.valueTypes|
    ensures forall i :: 0 <= i < |order| ==> order[i] < |b.valueTypes| && Metrics(b)[order[i]] == Metrics(c)[i]
  {
    var metrics := Metrics(c);
    assert forall i :: 0 <= i < |metrics| ==> metrics[i] in Metrics(b) by {
      forall i | 0 <= i < |metrics| ensures metrics[i] in Metrics(b) {
        SharedMetric(b, c, metrics[i]);
      }
    }
    seq(|metrics|, i requires 0 <= i < |metrics| => Position(Metrics(b), metrics[i]))
  }

  function Identity(n: nat): (order: seq<nat>)
    ensures |order| == n
  {
    seq(n, i => i)
  }

  function Reorder(values: seq<i64>, order: seq<nat>): (r: seq<i64>)
    requires forall i :: 0 <= i < |order| ==> order[i] < |values|
    ensures |r| == |order|
  {
    seq(|order|, i requires 0 <= i < |order| => values[order[i]])
  }

  // ----- What is summed -----

  predicate Ordered(samples: seq<Sample>, order: seq<nat>) {
    forall s, i :: 0 <= s < |samples| && 0 <= i < |order| ==> order[i] < |samples[s].values|
  }

  // The samples as keys and values, the values in the current profile's metric order.
  function Entries(x: Tables, samples: seq<Sample>, order: seq<nat>): (entries: seq<Entry<SampleKey>>)
    requires Ordered(samples, order)
    ensures |entries| == |samples| && Widths(entries, |order|)
    ensures forall j :: 0 <= j < |entries| ==>
      entries[j].0 == Key(x, samples[j]) && entries[j].1 == Reorder(samples[j].values, order)
  {
    seq(|samples|, j requires 0 <= j < |samples| => (Key(x, samples[j]), Reorder(samples[j].values, order)))
  }

  function OwnEntries(p: Profile): (entries: seq<Entry<SampleKey>>)
    requires HeapShape(p)
    ensures Widths(entries, |p.valueTypes|) && |entries| == |p.samples|
    ensures forall j :: 0 <= j < |entries| ==> entries[j] == (Key(TablesOf(p), p.samples[j]), p.samples[j].values)
  {
    var entries := Entries(TablesOf(p), p.samples, Identity(|p.valueTypes|));
    assert forall j :: 0 <= j < |entries| ==> entries[j].1 == p.samples[j].values;
    entries
  }

  function BaseEntries(b: Profile, c: Profile): (entries: seq<Entry<SampleKey>>)
    requires HeapShape(b) && SameTypes(b, c)
    ensures Widths(entries, |c.valueTypes|) && |entries| == |b.samples|
    ensures forall j :: 0 <= j < |entries| ==>
      entries[j].0 == Key(TablesOf(b), b.samples[j]) && entries[j].1 == Reorder(b.samples[j].values, Order(b, c))
  {
    Entries(TablesOf(b), b.samples, Order(b, c))
  }

  const NO_TOTALS: map<SampleKey, seq<i64>> := map[]

  /** What `difference` must arrive at: why it fails, or the total of every key. */
  function Outcome(b: Profile, c: Profile): Result<map<SampleKey, seq<i64>>, DiffError> {
    var n := |c.valueTypes|;
    if Incompatible(b, c).Some? then Err(Incompatible(b, c).value)
    else
      match Fold(NO_TOTALS, OwnEntries(c), true, n)
      case None => Err(Overflow)
      case Some(totals) =>
        if !IdsFit(b, c) then Err(IdOverflow)
        else
          match Fold(totals, BaseEntries(b, c), false, n)
          case None => Err(Overflow)
          case Some(all) => Ok(all)
  }

  // ----- The samples while they are summed -----

  /** Under each key stands a sample that has this key and these values. */
  ghost predicate Represents(samples: map<SampleKey, Sample>, y: Tables, totals: map<SampleKey, seq<i64>>) {
    && samples.Keys == totals.Keys
    && (forall k :: k in samples ==>
          && samples[k].values == totals[k]
          && Key(y, samples[k]) == k
          && SampleResolves(samples[k], y.locations.Keys, |y.strings.strings|))
  }

  lemma FoldNext<K>(totals: map<K, seq<i64>>, entries: seq<Entry<K>>, adds: bool, n: nat, i: nat)
    requires Uniform(totals, n) && Widths(entries, n) && i < |entries|
    requires Widths(entries[..i], n) && Widths(entries[..i + 1], n)
    ensures Fold(totals, entries[..i + 1], adds, n)
      == match Fold(totals, entries[..i], adds, n)
         case None => None
         case Some(t) =>
           match Combine(At(t, entries[i].0, n), entries[i].1, adds)
           case None => None
           case Some(v) => Some(t[entries[i].0 := v])
  {
    assert entries[..i + 1][..i] == entries[..i];
  }

  lemma {:induction false} FoldStops<K>(totals: map<K, seq<i64>>, entries: seq<Entry<K>>, adds: bool, n: nat, i: nat)
    requires Uniform(totals, n) && Widths(entries, n) && i <= |entries| && Widths(entries[..i], n)
    requires Fold(totals, entries[..i], adds, n).None?
    ensures Fold(totals, entries, adds, n).None?
    decreases |entries|
  {
    if i < |entries| {
      assert entries[..|entries| - 1][..i] == entries[..i];
      FoldStops(totals, entries[..|entries| - 1], adds, n, i);
    } else {
      assert entries[..i] == entries;
    }
  }

  // A value that starts from zero.
  lemma FromZero(values: seq<i64>)
    ensures Combine(Zeros(|values|), values, true) == Some(values)
  {
    assert Combine(Zeros(|values|), values, true).value == values;
  }

  lemma AcceptedSample(p: Profile, i: nat)
    requires TablesResolve(p) && i < |p.samples|
    ensures KeyResolves(TablesOf(p), p.samples[i])
    ensures SampleResolves(p.samples[i], TablesOf(p).locations.Keys, |p.strings.strings|)
  {
    AcceptedKeysResolve(p, p.samples[i]);
    IndexFinds(p.locations, LocationId);
  }

  // One more sample under its key.
  lemma RepresentsNext(samples: map<SampleKey, Sample>, y: Tables, totals: map<SampleKey, seq<i64>>, k: SampleKey,
                       s: Sample)
    requires Represents(samples, y, totals)
    requires Key(y, s) == k && SampleResolves(s, y.locations.Keys, |y.strings.strings|)
    ensures Represents(samples[k := s], y, totals[k := s.values])
  {
    hide Key, SampleResolves;
  }

  lemma RepresentsSum(samples: map<SampleKey, Sample>, y: Tables, totals: map<SampleKey, seq<i64>>, k: SampleKey,
                      values: seq<i64>)
    requires Represents(samples, y, totals) && k in samples
    ensures Represents(samples[k := samples[k].(values := values)], y, totals[k := values])
  {
    var s := samples[k].(values := values);
    assert Key(y, s) == Key(y, samples[k]);
    RepresentsNext(samples, y, totals, k, s);
  }

  lemma RepresentsNothing(y: Tables)
    ensures Represents(map[], y, NO_TOTALS)
  {
  }

  lemma ShapeWidths(p: Profile)
    requires HeapShape(p)
    ensures forall i :: 0 <= i < |p.samples| ==> |p.samples[i].values| == |p.valueTypes|
  {
  }

  // The current samples, summed under their keys.
  method AggregateCurrent(c: Profile) returns (r: Option<map<SampleKey, Sample>>)
    requires TablesResolve(c) && HeapShape(c)
    ensures match Fold(NO_TOTALS, OwnEntries(c), true, |c.valueTypes|)
            case None => r.None?
            case Some(totals) => r.Some? && Represents(r.value, TablesOf(c), totals)
  {
    hide TablesResolve, HeapShape, Key, KeyResolves, SampleResolves, OwnEntries, Represents, Fold, At, Combine;
    var x, n := TablesOf(c), |c.valueTypes|;
    ghost var entries, totals := OwnEntries(c), NO_TOTALS;
    var samples: map<SampleKey, Sample> := map[];
    RepresentsNothing(x);
    FoldNone(NO_TOTALS, entries[..0], true, n);
    ShapeWidths(c);
    for i := 0 to |c.samples|
      invariant Uniform(totals, n) && Fold(NO_TOTALS, entries[..i], true, n) == Some(totals)
      invariant Represents(samples, x, totals)
    {
      var s := c.samples[i];
      AcceptedSample(c, i);
      var key := SampleKeyFor(x, s);
      var k := key.value;
      FoldNext(NO_TOTALS, entries, true, n, i);
      assert entries[i] == (k, s.values);
      RepresentsAt(samples, x, totals, k, n);
      if k in samples {
        var sum := Add(samples[k].values, s.values, true);
        if sum.None? {
          FoldStops(NO_TOTALS, entries, true, n, i + 1);
          return None;
        }
        RepresentsSum(samples, x, totals, k, sum.value);
        samples := samples[k := samples[k].(values := sum.value)];
        totals := totals[k := sum.value];
      } else {
        FromZero(s.values);
        RepresentsNext(samples, x, totals, k, s);
        samples := samples[k := s];
        totals := totals[k := s.values];
      }
    }
    assert entries[..|c.samples|] == entries;
    r := Some(samples);
  }

  method Negate(values: seq<i64>) returns (r: Option<seq<i64>>)
    ensures r == Combine(Zeros(|values|), values, false)
  {
    var negated := values;
    for i := 0 to |values|
      invariant |negated| == |values|
      invariant forall j :: 0 <= j < i ==> InI64(Step(false, 0, values[j])) && negated[j] == -values[j]
      invariant forall j :: i <= j < |values| ==> negated[j] == values[j]
    {
      if negated[i] == I64_MIN {
        assert !InI64(Step(false, Zeros(|values|)[i], values[i]));
        return None;
      }
      negated := negated[i := -negated[i]];
    }
    assert negated == Combine(Zeros(|values|), values, false).value;
    r := Some(negated);
  }

  lemma CarriedSample(b: Profile, y: Tables, t: NewIds, i: nat)
    requires TablesResolve(b) && CarriedOver(b, y, t) && i < |b.samples|
    ensures SampleCarries(b.samples[i], t)
    ensures Key(y, CarrySample(b.samples[i], t)) == Key(TablesOf(b), b.samples[i])
    ensures SampleResolves(CarrySample(b.samples[i], t), y.locations.Keys, |y.strings.strings|)
  {
    hide *;
    BaseSample(b, i);
    CarriedKey(b, y, t, b.samples[i]);
  }

  lemma BaseSample(p: Profile, i: nat)
    requires TablesResolve(p) && i < |p.samples|
    ensures SampleResolves(p.samples[i], Ids(p.locations, LocationId), |p.strings.strings|)
  {
  }

  // The base samples, subtracted from what stands under their keys.
  method SubtractBase(b: Profile, ghost y: Tables, t: NewIds, order: seq<nat>, current: map<SampleKey, Sample>,
                      ghost start: map<SampleKey, seq<i64>>)
      returns (r: Option<map<SampleKey, Sample>>)
    requires TablesResolve(b) && Ordered(b.samples, order) && CarriedOver(b, y, t)
    requires Uniform(start, |order|) && Represents(current, y, start)
    ensures match Fold(start, Entries(TablesOf(b), b.samples, order), false, |order|)
            case None => r.None?
            case Some(totals) => r.Some? && Represents(r.value, y, totals)
  {
    hide TablesResolve, CarriedOver, Represents, Key, KeyResolves, TablesOf, SampleResolves, SampleCarries, Fold,
         Combine, At,
         Entries, Ordered, CarrySample, Reorder;
    var x, n := TablesOf(b), |order|;
    ghost var entries, totals := Entries(x, b.samples, order), start;
    var samples := current;
    assert entries[..0] == [];
    FoldNone(start, entries[..0], false, n);
    for i := 0 to |b.samples|
      invariant Uniform(totals, n) && Fold(start, entries[..i], false, n) == Some(totals)
      invariant Represents(samples, y, totals)
    {
      var s := b.samples[i];
      AcceptedSample(b, i);
      CarriedSample(b, y, t, i);
      var key := SampleKeyFor(x, s);
      var k := key.value;
      OrderedSample(b.samples, order, i);
      var values := Reorder(s.values, order);
      FoldNext(start, entries, false, n, i);
      assert entries[i] == (k, values);
      RepresentsAt(samples, y, totals, k, n);
      if k in samples {
        var sum := Add(samples[k].values, values, false);
        if sum.None? {
          FoldStops(start, entries, false, n, i + 1);
          return None;
        }
        RepresentsSum(samples, y, totals, k, sum.value);
        samples := samples[k := samples[k].(values := sum.value)];
        totals := totals[k := sum.value];
      } else {
        var negated := Negate(values);
        if negated.None? {
          FoldStops(start, entries, false, n, i + 1);
          return None;
        }
        var carried := CarrySample(s, t).(values := negated.value);
        ValuesAside(y, CarrySample(s, t), negated.value);
        RepresentsNext(samples, y, totals, k, carried);
        samples := samples[k := carried];
        totals := totals[k := negated.value];
      }
    }
    assert entries[..|b.samples|] == entries;
    r := Some(samples);
  }

  lemma FoldNone<K>(totals: map<K, seq<i64>>, entries: seq<Entry<K>>, adds: bool, n: nat)
    requires Uniform(totals, n) && Widths(entries, n) && entries == []
    ensures Fold(totals, entries, adds, n) == Some(totals)
  {
  }

  lemma OrderedSample(samples: seq<Sample>, order: seq<nat>, i: nat)
    requires Ordered(samples, order) && i < |samples|
    ensures forall j :: 0 <= j < |order| ==> order[j] < |samples[i].values|
  {
  }

  lemma RepresentsAt(samples: map<SampleKey, Sample>, y: Tables, totals: map<SampleKey, seq<i64>>, k: SampleKey, n: nat)
    requires Represents(samples, y, totals) && Uniform(totals, n)
    ensures At(totals, k, n) == if k in samples then samples[k].values else Zeros(n)
  {
  }

  lemma ValuesAside(y: Tables, s: Sample, values: seq<i64>)
    ensures Key(y, s.(values := values)) == Key(y, s)
    ensures forall ids, n :: SampleResolves(s, ids, n) ==> SampleResolves(s.(values := values), ids, n)
  {
  }

  // ----- The output -----

  predicate Nonzero(values: seq<i64>) {
    exists i :: 0 <= i < |values| && values[i] != 0
  }

  ghost predicate Distinct(keys: seq<SampleKey>) {
    forall i, j :: 0 <= i < j < |keys| ==> keys[i] != keys[j]
  }

  /** The samples with a value, each once.  The source lists them by key; here the order is left open. */
  method KeepNonzero(samples: map<SampleKey, Sample>) returns (out: seq<Sample>, ghost keys: seq<SampleKey>)
    ensures |keys| == |out| && Distinct(keys)
    ensures forall j :: 0 <= j < |out| ==> keys[j] in samples && out[j] == samples[keys[j]] && Nonzero(out[j].values)
    ensures forall k :: k in samples && Nonzero(samples[k].values) ==> k in keys
    ensures forall k :: k in samples && Nonzero(samples[k].values) ==> samples[k] in out
    ensures forall s :: s in out ==> Nonzero(s.values) && s in samples.Values
  {
    out, keys := [], [];
    var todo := samples.Keys;
    while todo != {}
      invariant todo <= samples.Keys
      invariant |keys| == |out| && Distinct(keys)
      invariant forall j :: 0 <= j < |out| ==>
        keys[j] in samples && keys[j] !in todo && out[j] == samples[keys[j]] && Nonzero(out[j].values)
      invariant forall k :: k in samples && k !in todo && Nonzero(samples[k].values) ==> k in keys
    {
      var k :| k in todo;
      todo := todo - {k};
      if exists i :: 0 <= i < |samples[k].values| && samples[k].values[i] != 0 {
        out := out + [samples[k]];
        keys := keys + [k];
      }
    }
  }

  /** The main result: `out` is an accepted profile that holds, for every key and metric, current minus
      base; no key twice, and no sample without a value. */
  ghost predicate IsDifference(b: Profile, c: Profile, out: Profile)
    requires Accepts(b) && Accepts(c) && SameTypes(b, c)
  {
    && Accepts(out)
    && out.valueTypes == c.valueTypes && Metrics(out) == Metrics(c)
    && (forall i, j :: 0 <= i < j < |out.samples| ==>
        Key(TablesOf(out), out.samples[i]) != Key(TablesOf(out), out.samples[j]))
    && (forall i :: 0 <= i < |out.samples| ==> Nonzero(out.samples[i].values))
    && (forall key, i :: 0 <= i < |c.valueTypes| ==> Differs(b, c, out, key, i))
  }

  ghost predicate Differs(b: Profile, c: Profile, out: Profile, key: SampleKey, i: nat)
    requires HeapShape(b) && HeapShape(c) && HeapShape(out) && SameTypes(b, c) && out.valueTypes == c.valueTypes
    requires i < |c.valueTypes|
  {
    var n := |c.valueTypes|;
    SumOf(OwnEntries(out), key, i, n) == SumOf(OwnEntries(c), key, i, n) - SumOf(BaseEntries(b, c), key, i, n)
  }

  // What is emitted sums to the totals.
  lemma EmittedSums(out: Profile, samples: map<SampleKey, Sample>, totals: map<SampleKey, seq<i64>>,
                    keys: seq<SampleKey>,
                    n: nat, key: SampleKey, i: nat)
    requires HeapShape(out) && n == |out.valueTypes| && i < n
    requires Represents(samples, TablesOf(out), totals) && Uniform(totals, n)
    requires |keys| == |out.samples| && Distinct(keys)
    requires forall j :: 0 <= j < |keys| ==> keys[j] in samples && out.samples[j] == samples[keys[j]]
    requires forall k :: k in samples && Nonzero(samples[k].values) ==> k in keys
    ensures SumOf(OwnEntries(out), key, i, n) == At(totals, key, n)[i]
  {
    hide HeapShape, Key, SumOf, SampleResolves, TablesOf;
    var entries := OwnEntries(out);
    assert forall j :: 0 <= j < |keys| ==> entries[j] == (keys[j], totals[keys[j]]);
    if key in keys {
      var j :| 0 <= j < |keys| && keys[j] == key;
      SumOfDistinct(entries, j, i, n);
    } else {
      SumOfMissing(entries, key, i, n);
      if key in samples {
        assert !Nonzero(samples[key].values);
      }
    }
  }

  lemma OutcomeSums(b: Profile, c: Profile, key: SampleKey, i: nat)
    requires Outcome(b, c).Ok? && i < |c.valueTypes|
    ensures Uniform(Outcome(b, c).value, |c.valueTypes|)
    ensures At(Outcome(b, c).value, key, |c.valueTypes|)[i]
         == SumOf(OwnEntries(c), key, i, |c.valueTypes|) - SumOf(BaseEntries(b, c), key, i, |c.valueTypes|)
  {
    hide TablesResolve, HeapShape, SumOf, Fold, OwnEntries, BaseEntries, IdsFit;
    var n := |c.valueTypes|;
    FoldSums(NO_TOTALS, OwnEntries(c), true, n, key, i);
    FoldSums(Fold(NO_TOTALS, OwnEntries(c), true, n).value, BaseEntries(b, c), false, n, key, i);
  }

  // The current profile without its samples, and the base's tables after its own.
  method MergeTables(b: Profile, c: Profile) returns (r: Option<(Profile, NewIds)>)
    requires TablesResolve(b) && c.strings.Sound()
    requires |c.strings.strings| + |b.strings.strings| <= I64_MAX
    ensures r.None? <==> !IdsFit(b, c)
    ensures r.Some? ==>
      var (out, t) := r.value;
      && Merged(b, c, out, t) && out.strings.Sound() && c.strings.strings <= out.strings.strings
      && |out.strings.strings| <= |c.strings.strings| + |b.strings.strings|
      && out == c.(strings := out.strings, samples := [], mappings := out.mappings, functions := out.functions,
                   locations := out.locations)
  {
    hide TablesResolve, UniqueIds, Ids, MaxId, Renumbering, CarriedMappings, CarriedFunctions, CarriedLocations,
         MappingStrings,
         FunctionStrings, LocationCarries, LocationResolves, StringTable.Sound;
    TablesUnique(b);
    var out := c.(samples := []);
    var table, strings := InternAll(out.strings, b.strings.strings);
    out := out.(strings := table);
    var mappings := AppendMappings(out.mappings, b.mappings, strings);
    if mappings.None? {
      return None;
    }
    out := out.(mappings := mappings.value.0);
    var functions := AppendFunctions(out.functions, b.functions, strings);
    if functions.None? {
      return None;
    }
    out := out.(functions := functions.value.0);
    AllLocationsCarry(b.locations, b.mappings, b.functions, MaxId(c.mappings, MappingId),
                      MaxId(c.functions, FunctionId));
    var locations := AppendLocations(out.locations, b.locations, mappings.value.1, functions.value.1);
    if locations.None? {
      return None;
    }
    out := out.(locations := locations.value.0);
    r := Some((out, NewIds(strings, mappings.value.1, functions.value.1, locations.value.1)));
  }

  // The current samples stay what they are among the merged tables.
  lemma KeptSamples(c: Profile, y: Tables, samples: map<SampleKey, Sample>, totals: map<SampleKey, seq<i64>>)
    requires TablesResolve(c) && |c.strings.strings| <= I64_MAX && CarriedOver(c, y, Kept(c))
    requires Represents(samples, TablesOf(c), totals)
    ensures Represents(samples, y, totals)
  {
    TablesUnique(c);
    IndexFinds(c.locations, LocationId);
    hide TablesResolve, UniqueIds, Index, Ids, CarriedOver, Key, SampleResolves, SampleCarries, CarrySample, Kept;
    forall k | k in samples
      ensures Key(y, samples[k]) == k && SampleResolves(samples[k], y.locations.Keys, |y.strings.strings|)
    {
      CarriedKey(c, y, Kept(c), samples[k]);
      KeptSample(c, samples[k]);
    }
  }

  // Interning one more string keeps the tables merged.
  lemma StillMerged(b: Profile, c: Profile, mid: Profile, out: Profile, t: NewIds)
    requires Merged(b, c, mid, t) && mid.strings.strings <= out.strings.strings
    requires out.mappings == mid.mappings && out.functions == mid.functions && out.locations == mid.locations
    ensures Merged(b, c, out, t)
  {
    hide MaxId, Renumbering, CarriedMappings, CarriedFunctions, CarriedLocations, MappingStrings, FunctionStrings,
         LocationCarries;
    assert forall i :: 0 <= i < |mid.strings.strings| ==> out.strings.strings[i] == mid.strings.strings[i];
  }

  // All that the merged tables are good for.
  lemma MergedWorks(b: Profile, c: Profile, out: Profile, t: NewIds)
    requires Merged(b, c, out, t) && TablesResolve(b) && TablesResolve(c) && |c.strings.strings| <= I64_MAX
    ensures UniqueIds(out.mappings, MappingId) && UniqueIds(out.functions, FunctionId)
    ensures UniqueIds(out.locations, LocationId)
    ensures CarriedOver(b, TablesOf(out), t) && CarriedOver(c, TablesOf(out), Kept(c))
  {
    MergedPrefix(b, c, out, t);
    hide *;
    TablesUnique(b);
    TablesUnique(c);
    MergedUnique(b, c, out, t);
    AddedOver(b, c, out, t);
    KeptOver(c, out);
  }

  lemma MergedPrefix(b: Profile, c: Profile, out: Profile, t: NewIds)
    requires Merged(b, c, out, t) && TablesResolve(c)
    ensures c.strings.strings <= out.strings.strings && out.strings.Get(0) == []
    ensures c.mappings <= out.mappings && c.functions <= out.functions && c.locations <= out.locations
  {
    hide MaxId, Renumbering, CarriedMappings, CarriedFunctions, CarriedLocations, MappingStrings, FunctionStrings,
         LocationCarries,
         UniqueIds, StringsCarried;
    TablesUnique(c);
  }

  // What the output keeps of the current profile besides its tables.
  predicate KeepsHeader(c: Profile, out: Profile) {
    && c.strings.strings <= out.strings.strings
    && |out.comments| == |c.comments| + 1 && out.comments == c.comments + [out.comments[|c.comments|]]
    && out.strings.Get(out.comments[|c.comments|]) == DIFFERENCE_COMMENT
    && out == c.(strings := out.strings, samples := out.samples, mappings := out.mappings, functions := out.functions,
                 locations := out.locations, comments := out.comments)
  }

  lemma AcceptedHeader(c: Profile, out: Profile)
    requires HeaderStrings(c) && KeepsHeader(c, out) && |out.comments| > 0
    requires out.comments[|c.comments|] < |out.strings.strings|
    ensures HeaderStrings(out)
  {
    hide DIFFERENCE_COMMENT;
    var last := out.comments[|c.comments|];
    forall id | id in out.comments ensures id < |out.strings.strings| {
      assert id in c.comments || id == last;
    }
  }

  lemma AcceptedShape(c: Profile, out: Profile)
    requires HeapShape(c) && out.valueTypes == c.valueTypes && c.strings.strings <= out.strings.strings
    requires forall i :: 0 <= i < |out.samples| ==> |out.samples[i].values| == |c.valueTypes|
    ensures HeapShape(out) && Metrics(out) == Metrics(c)
  {
    hide HeapMetric;
    assert Metrics(out) == Metrics(c);
  }

  // Accepting the output.
  lemma AcceptedDifference(b: Profile, c: Profile, out: Profile, t: NewIds, samples: map<SampleKey, Sample>,
                           totals: map<SampleKey, seq<i64>>, keys: seq<SampleKey>)
    requires Accepts(b) && Accepts(c) && |c.strings.strings| <= I64_MAX
    requires Merged(b, c, out, t) && KeepsHeader(c, out)
    requires out.comments[|c.comments|] < |out.strings.strings|
    requires Represents(samples, TablesOf(out), totals) && Uniform(totals, |c.valueTypes|)
    requires |keys| == |out.samples|
    requires forall j :: 0 <= j < |keys| ==> keys[j] in samples && out.samples[j] == samples[keys[j]]
    ensures Accepts(out) && Metrics(out) == Metrics(c)
  {
    hide TablesResolve, HeaderStrings, HeapShape, Merged, UniqueIds, CarriedOver, Key, SampleResolves;
    MergedWorks(b, c, out, t);
    forall i | 0 <= i < |out.samples|
      ensures SampleResolves(out.samples[i], TablesOf(out).locations.Keys, |out.strings.strings|)
      ensures |out.samples[i].values| == |c.valueTypes|
    {
      assert out.samples[i] == samples[keys[i]] && keys[i] in totals;
    }
    MergedResolve(b, c, out, t);
    AcceptedHeader(c, out);
    AcceptedShape(c, out);
  }

  // The output is the difference.
  lemma OutputIsDifference(b: Profile, c: Profile, out: Profile, samples: map<SampleKey, Sample>, keys: seq<SampleKey>)
    requires Accepts(b) && Accepts(c) && Accepts(out) && Outcome(b, c).Ok?
    requires out.valueTypes == c.valueTypes && Metrics(out) == Metrics(c)
    requires Represents(samples, TablesOf(out), Outcome(b, c).value)
    requires |keys| == |out.samples| && Distinct(keys)
    requires forall j :: 0 <= j < |keys| ==>
      keys[j] in samples && out.samples[j] == samples[keys[j]] && Nonzero(out.samples[j].values)
    requires forall k :: k in samples && Nonzero(samples[k].values) ==> k in keys
    ensures IsDifference(b, c, out)
  {
    hide TablesResolve, HeapShape, HeaderStrings, Outcome, SumOf, Key, TablesOf, SampleResolves, Nonzero, SameTypes;
    assert SameTypes(b, c) by {
      OutcomeCompatible(b, c);
    }
    var n := |c.valueTypes|;
    forall key, i: nat | i < n ensures Differs(b, c, out, key, i) {
      OutcomeSums(b, c, key, i);
      EmittedSums(out, samples, Outcome(b, c).value, keys, n, key, i);
    }
    assert forall j :: 0 <= j < |keys| ==> Key(TablesOf(out), out.samples[j]) == keys[j];
  }

  lemma OutcomeCompatible(b: Profile, c: Profile)
    requires Outcome(b, c).Ok?
    ensures Incompatible(b, c).None? && IdsFit(b, c) && SameTypes(b, c)
  {
    hide Accepts, SameTypes, IdsFit, Fold;
  }

  lemma OrderedBase(b: Profile, c: Profile)
    requires HeapShape(b) && SameTypes(b, c)
    ensures Ordered(b.samples, Order(b, c))
    ensures BaseEntries(b, c) == Entries(TablesOf(b), b.samples, Order(b, c))
  {
  }

  // The tables are ready, and the current samples stand in them.
  lemma ReadyToSubtract(b: Profile, c: Profile, mid: Profile, final: Profile, t: NewIds,
                        current: map<SampleKey, Sample>,
                        totals: map<SampleKey, seq<i64>>)
    requires TablesResolve(b) && TablesResolve(c) && |c.strings.strings| <= I64_MAX
    requires Merged(b, c, mid, t) && mid.strings.strings <= final.strings.strings
    requires final.mappings == mid.mappings && final.functions == mid.functions && final.locations == mid.locations
    requires Represents(current, TablesOf(c), totals)
    ensures Merged(b, c, final, t) && CarriedOver(b, TablesOf(final), t)
    ensures Represents(current, TablesOf(final), totals)
  {
    hide *;
    StillMerged(b, c, mid, final, t);
    MergedWorks(b, c, final, t);
    KeptSamples(c, TablesOf(final), current, totals);
  }

  lemma AcceptedTables(p: Profile)
    requires Accepts(p)
    ensures TablesResolve(p)
  {
    hide TablesResolve, HeaderStrings, HeapShape;
  }

  // The output, once the samples are in.
  lemma Finished(b: Profile, c: Profile, final: Profile, out: Profile, t: NewIds, samples: map<SampleKey, Sample>,
                 keys: seq<SampleKey>)
    requires Outcome(b, c).Ok? && Accepts(b) && Accepts(c) && SameTypes(b, c) && |c.strings.strings| <= I64_MAX
    requires Merged(b, c, final, t) && out == final.(samples := out.samples) && KeepsHeader(c, out)
    requires out.comments[|c.comments|] < |out.strings.strings|
    requires Represents(samples, TablesOf(final), Outcome(b, c).value) && Uniform(Outcome(b, c).value, |c.valueTypes|)
    requires |keys| == |out.samples| && Distinct(keys)
    requires forall j :: 0 <= j < |keys| ==>
      keys[j] in samples && out.samples[j] == samples[keys[j]] && Nonzero(out.samples[j].values)
    requires forall k :: k in samples && Nonzero(samples[k].values) ==> k in keys
    ensures IsDifference(b, c, out) && Joined(b, c, out)
  {
    hide Joined;
    hide TablesResolve, HeaderStrings, HeapShape, Accepts, SameTypes, Outcome, Merged, Represents, Nonzero, Distinct,
         IsDifference,
         Metrics, Uniform;
    assert TablesOf(out) == TablesOf(final);
    assert out.strings.strings <= out.strings.strings;
    StillMerged(b, c, final, out, t);
    AcceptedTables(b);
    MergedJoins(b, c, out, t);
    AcceptedDifference(b, c, out, t, samples, Outcome(b, c).value, keys);
    OutputIsDifference(b, c, out, samples, keys);
  }

  /** Current minus base. */
  method Difference(b: Profile, c: Profile) returns (r: Result<Profile, DiffError>)
    // The cache of a string table never points at a wrong string; a `Vec` holds at most `isize::MAX` elements.
    requires c.strings.Sound() && |c.strings.strings| + |b.strings.strings| < I64_MAX
    ensures match Outcome(b, c)
            case Err(e) => r == Err(e)
            case Ok(_) =>
              && r.Ok? && KeepsHeader(c, r.value) && Accepts(b) && Accepts(c) && SameTypes(b, c)
              && IsDifference(b, c, r.value) && Joined(b, c, r.value)
  {
    hide TablesResolve, HeapShape, HeaderStrings, Metrics, SameTypes, Domains, Merged, CarriedOver, Represents,
         TablesOf, Fold, UniqueIds, Entries, IsDifference, Joined, IdsFit, StringTable.Sound, Nonzero, Distinct,
         OwnEntries, BaseEntries;
    var incompatible := Incompatible(b, c);
    if incompatible.Some? {
      return Err(incompatible.value);
    }
    var order := Order(b, c);
    var current := AggregateCurrent(c);
    if current.None? {
      return Err(Overflow);
    }
    var merged := MergeTables(b, c);
    if merged.None? {
      return Err(IdOverflow);
    }
    var (out, t) := merged.value;
    var (strings, comment) := out.strings.Intern(DIFFERENCE_COMMENT);
    ghost var final := out.(strings := strings, comments := c.comments + [comment]);
    ghost var totals := Fold(NO_TOTALS, OwnEntries(c), true, |c.valueTypes|).value;
    ReadyToSubtract(b, c, out, final, t, current.value, totals);
    OrderedBase(b, c);
    var samples := SubtractBase(b, TablesOf(final), t, order, current.value, totals);
    if samples.None? {
      return Err(Overflow);
    }
    var kept, keys := KeepNonzero(samples.value);
    out := out.(strings := strings, samples := kept, comments := c.comments + [comment]);
    Finished(b, c, final, out, t, samples.value, keys);
    r := Ok(out);
  }

  // ----- What follows -----

  // What the output must hold for a key and a metric.
  function Change(b: Profile, c: Profile, key: SampleKey, i: nat): int
    requires HeapShape(b) && HeapShape(c) && SameTypes(b, c) && i < |c.valueTypes|
  {
    SumOf(OwnEntries(c), key, i, |c.valueTypes|) - SumOf(BaseEntries(b, c), key, i, |c.valueTypes|)
  }

  /** A sample of the output has exactly the changes of its key. */
  lemma SampleIsChange(b: Profile, c: Profile, out: Profile, j: nat, i: nat)
    requires Accepts(b) && Accepts(c) && SameTypes(b, c) && IsDifference(b, c, out)
    requires j < |out.samples| && i < |c.valueTypes|
    ensures |out.samples[j].values| == |c.valueTypes|
    ensures out.samples[j].values[i] == Change(b, c, Key(TablesOf(out), out.samples[j]), i)
  {
    hide TablesResolve, HeaderStrings, HeapShape, SameTypes, Key, TablesOf, SumOf, Nonzero;
    ShapeWidths(out);
    var key := Key(TablesOf(out), out.samples[j]);
    assert Differs(b, c, out, key, i);
    SumOfDistinct(OwnEntries(out), j, i, |c.valueTypes|);
  }

  /** A key is in the output exactly when one of its metrics changed. */
  lemma KeyAppears(b: Profile, c: Profile, out: Profile, key: SampleKey)
    requires Accepts(b) && Accepts(c) && SameTypes(b, c) && IsDifference(b, c, out)
    ensures (exists j :: 0 <= j < |out.samples| && Key(TablesOf(out), out.samples[j]) == key)
       <==> (exists i :: 0 <= i < |c.valueTypes| && Change(b, c, key, i) != 0)
  {
    hide TablesResolve, HeaderStrings, HeapShape, SameTypes, Key, TablesOf, SumOf, Change;
    var n := |c.valueTypes|;
    if j :| 0 <= j < |out.samples| && Key(TablesOf(out), out.samples[j]) == key {
      assert Nonzero(out.samples[j].values);
      var i :| 0 <= i < |out.samples[j].values| && out.samples[j].values[i] != 0;
      ShapeWidths(out);
      SampleIsChange(b, c, out, j, i);
    } else {
      forall i | 0 <= i < n ensures Change(b, c, key, i) == 0 {
        NoChange(b, c, out, key, i);
      }
    }
  }

  lemma NoChange(b: Profile, c: Profile, out: Profile, key: SampleKey, i: nat)
    requires Accepts(b) && Accepts(c) && SameTypes(b, c) && IsDifference(b, c, out)
    requires i < |c.valueTypes| && forall j :: 0 <= j < |out.samples| ==> Key(TablesOf(out), out.samples[j]) != key
    ensures Change(b, c, key, i) == 0
  {
    hide TablesResolve, HeaderStrings, HeapShape, SameTypes, Key, TablesOf, SumOf, Nonzero;
    assert Differs(b, c, out, key, i);
    SumOfMissing(OwnEntries(out), key, i, |c.valueTypes|);
  }

  lemma {:induction false} ReorderedSum(x: Tables, samples: seq<Sample>, order: seq<nat>, key: SampleKey, i: nat,
                                        n: nat)
    requires Ordered(samples, order) && i < |order| && order[i] < n
    requires forall s :: 0 <= s < |samples| ==> |samples[s].values| == n
    ensures SumOf(Entries(x, samples, order), key, i, |order|)
         == SumOf(Entries(x, samples, Identity(n)), key, order[i], n)
    decreases |samples|
  {
    hide Key;
    if samples != [] {
      var before := samples[..|samples| - 1];
      ReorderedSum(x, before, order, key, i, n);
      assert Entries(x, samples, order)[..|before|] == Entries(x, before, order);
      assert Entries(x, samples, Identity(n))[..|before|] == Entries(x, before, Identity(n));
    }
  }

  // The base's sum for a metric is its own sum where it keeps that metric.
  lemma BaseSum(b: Profile, c: Profile, key: SampleKey, i: nat)
    requires HeapShape(b) && SameTypes(b, c) && i < |c.valueTypes|
    ensures SumOf(BaseEntries(b, c), key, i, |c.valueTypes|)
         == SumOf(OwnEntries(b), key, Order(b, c)[i], |b.valueTypes|)
  {
    hide Key, SumOf;
    ShapeWidths(b);
    ReorderedSum(TablesOf(b), b.samples, Order(b, c), key, i, |b.valueTypes|);
    assert OwnEntries(b) == Entries(TablesOf(b), b.samples, Identity(|b.valueTypes|));
  }

  /** The two orders are each other's inverse. */
  lemma OrderInverse(b: Profile, c: Profile, i: nat)
    requires HeapShape(b) && HeapShape(c) && SameTypes(b, c) && i < |c.valueTypes|
    ensures SameTypes(c, b) && Order(b, c)[i] < |b.valueTypes|
    ensures Order(c, b)[Order(b, c)[i]] == i
  {
    hide HeapMetric;
    var j := Order(b, c)[i];
    assert Metrics(b)[j] == Metrics(c)[i];
    assert Metrics(c)[Order(c, b)[j]] == Metrics(b)[j];
  }

  /** Swapping the arguments negates every value, each under its own metric. */
  lemma SwapNegates(b: Profile, c: Profile, x: Profile, y: Profile, key: SampleKey, i: nat)
    requires Accepts(b) && Accepts(c) && SameTypes(b, c) && SameTypes(c, b)
    requires IsDifference(b, c, x) && IsDifference(c, b, y) && i < |c.valueTypes|
    ensures var j := Order(b, c)[i];
      && Metrics(y)[j] == Metrics(x)[i]
      && SumOf(OwnEntries(x), key, i, |c.valueTypes|) == -SumOf(OwnEntries(y), key, j, |b.valueTypes|)
  {
    hide TablesResolve, HeaderStrings, HeapShape, Key, TablesOf, SumOf, Nonzero, OwnEntries, BaseEntries, SameTypes,
         Order;
    var j := Order(b, c)[i];
    OrderInverse(b, c, i);
    assert Differs(b, c, x, key, i);
    assert Differs(c, b, y, key, j);
    BaseSum(b, c, key, i);
    BaseSum(c, b, key, j);
  }

  /** Profiles with the same sums differ by nothing. */
  lemma NothingChanged(b: Profile, c: Profile, out: Profile)
    requires Accepts(b) && Accepts(c) && SameTypes(b, c) && IsDifference(b, c, out)
    requires forall key, i :: 0 <= i < |c.valueTypes| ==> Change(b, c, key, i) == 0
    ensures out.samples == []
  {
    hide TablesResolve, HeaderStrings, HeapShape, SameTypes, Key, TablesOf, SumOf, Change;
    if out.samples != [] {
      assert Nonzero(out.samples[0].values);
      var i :| 0 <= i < |out.samples[0].values| && out.samples[0].values[i] != 0;
      ShapeWidths(out);
      SampleIsChange(b, c, out, 0, i);
    }
  }

  /** A profile compared with itself. */
  lemma SelfDifference(p: Profile, out: Profile)
    requires Accepts(p) && SameTypes(p, p) && IsDifference(p, p, out)
    ensures out.samples == []
  {
    hide TablesResolve, HeaderStrings, Key, TablesOf, SumOf, Nonzero, IsDifference, OwnEntries, BaseEntries, HeapMetric;
    forall key, i | 0 <= i < |p.valueTypes| ensures Change(p, p, key, i) == 0 {
      BaseSum(p, p, key, i);
      assert Order(p, p)[i] == i;
    }
    NothingChanged(p, p, out);
  }

  /** The same program loaded elsewhere: each image and its locations moved, frames without a symbol named
      after their new addresses.  The difference is empty. */
  lemma RelocatedDifference(b: Profile, c: Profile, delta: map<u64, int>, out: Profile)
    requires Accepts(b) && Accepts(c) && Relocated(TablesOf(b), TablesOf(c), delta)
    requires SameTypes(b, c) && Metrics(b) == Metrics(c) && IsDifference(b, c, out)
    requires |b.samples| == |c.samples|
    requires forall i :: 0 <= i < |b.samples| ==>
      && c.samples[i].locationIds == b.samples[i].locationIds && c.samples[i].values == b.samples[i].values
      && LabelKeys(b.strings, b.samples[i].labels) == LabelKeys(c.strings, c.samples[i].labels)
    ensures out.samples == []
  {
    hide TablesResolve, HeaderStrings, Relocated, Key, SumOf, Nonzero, IsDifference, HeapMetric;
    forall i | 0 <= i < |b.samples| ensures Key(TablesOf(b), b.samples[i]) == Key(TablesOf(c), c.samples[i]) {
      SampleLocated(b, i);
      RelocationKeepsKeys(TablesOf(b), TablesOf(c), delta, b.samples[i], c.samples[i]);
    }
    assert OwnEntries(b) == OwnEntries(c);
    hide OwnEntries, BaseEntries;
    forall key, i | 0 <= i < |c.valueTypes| ensures Change(b, c, key, i) == 0 {
      BaseSum(b, c, key, i);
      assert Metrics(b)[Order(b, c)[i]] == Metrics(b)[i];
      assert Order(b, c)[i] == i;
    }
    NothingChanged(b, c, out);
  }

  lemma SampleLocated(p: Profile, i: nat)
    requires TablesResolve(p) && i < |p.samples|
    ensures forall id :: id in p.samples[i].locationIds ==> id in TablesOf(p).locations
  {
    AcceptedSample(p, i);
  }

  /** The subtraction overflows exactly when a running total leaves int64: first one of the current
      profile's, then, if the ids fit, one of the differences. */
  lemma OverflowExactly(b: Profile, c: Profile)
    requires Incompatible(b, c).None?
    ensures Outcome(b, c) == Err(Overflow) <==>
      var n, own := |c.valueTypes|, OwnEntries(c);
      || (exists m, i :: Leaves(NO_TOTALS, own, true, n, m, i))
      || (&& Fold(NO_TOTALS, own, true, n).Some? && IdsFit(b, c)
          && exists m, i :: Leaves(Fold(NO_TOTALS, own, true, n).value, BaseEntries(b, c), false, n, m, i))
  {
    hide TablesResolve, HeaderStrings, SameTypes, IdsFit, Leaves, Fold, OwnEntries, BaseEntries;
    var n, own := |c.valueTypes|, OwnEntries(c);
    FoldOverflows(NO_TOTALS, own, true, n);
    if Fold(NO_TOTALS, own, true, n).Some? {
      FoldOverflows(Fold(NO_TOTALS, own, true, n).value, BaseEntries(b, c), false, n);
    }
  }

  // ----- The difference sample by sample, without keys -----

  /** Two samples of two profiles are the same call path with the same labels. */
  ghost predicate Meets(p: Profile, s: Sample, q: Profile, t: Sample) {
    && KeyResolves(TablesOf(p), s) && KeyResolves(TablesOf(q), t)
    && SamplesMeet(TablesOf(p), s, TablesOf(q), t)
  }

  /** What the first `n` samples of `q` add up to in column `j`, counting those that meet `s`. */
  ghost function MetSum(p: Profile, s: Sample, q: Profile, j: nat, n: nat): int
    requires n <= |q.samples| && forall k :: 0 <= k < |q.samples| ==> j < |q.samples[k].values|
  {
    if n == 0 then 0
    else MetSum(p, s, q, j, n - 1) + if Meets(p, s, q, q.samples[n - 1]) then q.samples[n - 1].values[j] else 0
  }

  // The column of `p` that has this name.
  ghost predicate Column(p: Profile, i: nat, name: Text) {
    && i < |p.valueTypes| && p.valueTypes[i].typ < |p.strings.strings|
    && p.strings.strings[p.valueTypes[i].typ] == name
  }

  lemma SameKeyMeets(p: Profile, s: Sample, q: Profile, t: Sample)
    requires TablesResolve(p) && TablesResolve(q) && s in p.samples && t in q.samples
    ensures Key(TablesOf(p), s) == Key(TablesOf(q), t) <==> Meets(p, s, q, t)
  {
    hide TablesResolve, KeyResolves, Key, TablesOf, SamplesMeet;
    AcceptedKeysResolve(p, s);
    AcceptedKeysResolve(q, t);
    KeysMeet(TablesOf(p), s, TablesOf(q), t);
  }

  lemma {:induction false} MetSums(p: Profile, s: Sample, q: Profile, j: nat, n: nat)
    requires TablesResolve(p) && TablesResolve(q) && HeapShape(q) && s in p.samples
    requires j < |q.valueTypes| && n <= |q.samples|
    requires forall k :: 0 <= k < |q.samples| ==> j < |q.samples[k].values|
    requires Widths(OwnEntries(q)[..n], |q.valueTypes|)
    ensures SumOf(OwnEntries(q)[..n], Key(TablesOf(p), s), j, |q.valueTypes|) == MetSum(p, s, q, j, n)
    decreases n
  {
    hide TablesResolve, HeapShape, Key, TablesOf, Meets, OwnEntries;
    if n > 0 {
      assert OwnEntries(q)[..n][..n - 1] == OwnEntries(q)[..n - 1];
      MetSums(p, s, q, j, n - 1);
      SameKeyMeets(p, s, q, q.samples[n - 1]);
    }
  }

  // A key's sum in a profile.
  lemma KeySum(p: Profile, s: Sample, q: Profile, j: nat)
    requires TablesResolve(p) && TablesResolve(q) && HeapShape(q) && s in p.samples && j < |q.valueTypes|
    ensures forall k :: 0 <= k < |q.samples| ==> j < |q.samples[k].values|
    ensures SumOf(OwnEntries(q), Key(TablesOf(p), s), j, |q.valueTypes|) == MetSum(p, s, q, j, |q.samples|)
  {
    hide TablesResolve, HeapShape, Key, TablesOf, MetSum, OwnEntries, SumOf;
    ShapeWidths(q);
    assert OwnEntries(q)[..|q.samples|] == OwnEntries(q);
    MetSums(p, s, q, j, |q.samples|);
  }

  lemma OrderIsByName(b: Profile, c: Profile, i: nat, j: nat, name: Text)
    requires HeapShape(b) && SameTypes(b, c) && Column(c, i, name) && Column(b, j, name)
    ensures Order(b, c)[i] == j
  {
    hide HeapMetric;
    assert Metrics(b)[Order(b, c)[i]] == Metrics(c)[i];
    assert Metrics(b)[j].0 == name;
  }

  lemma ColumnStays(c: Profile, out: Profile, i: nat, name: Text)
    requires HeapShape(c) && HeapShape(out) && Metrics(out) == Metrics(c) && Column(c, i, name)
    ensures Column(out, i, name)
  {
    hide HeapMetric;
    assert Metrics(out)[i] == Metrics(c)[i];
    assert out.valueTypes[i] in out.valueTypes;
  }

  lemma ChangeByMeeting(p: Profile, s: Sample, b: Profile, c: Profile, i: nat, j: nat, name: Text)
    requires TablesResolve(p) && s in p.samples
    requires Accepts(b) && Accepts(c) && SameTypes(b, c) && Column(c, i, name) && Column(b, j, name)
    ensures forall k :: 0 <= k < |b.samples| ==> j < |b.samples[k].values|
    ensures forall k :: 0 <= k < |c.samples| ==> i < |c.samples[k].values|
    ensures Change(b, c, Key(TablesOf(p), s), i)
         == MetSum(p, s, c, i, |c.samples|) - MetSum(p, s, b, j, |b.samples|)
  {
    hide TablesResolve, HeaderStrings, HeapShape, Key, TablesOf, MetSum, OwnEntries, BaseEntries, SumOf, SameTypes;
    KeySum(p, s, c, i);
    KeySum(p, s, b, j);
    OrderIsByName(b, c, i, j, name);
    BaseSum(b, c, Key(TablesOf(p), s), i);
  }

  /** The difference in the terms of its arguments: under a metric's name, an output sample has what the current
      samples that meet it add up to, minus what the base samples that meet it add up to. */
  lemma DifferenceByMeeting(b: Profile, c: Profile, out: Profile, k: nat, i: nat, j: nat, name: Text)
    requires Accepts(b) && Accepts(c) && SameTypes(b, c) && IsDifference(b, c, out)
    requires k < |out.samples| && Column(c, i, name) && Column(b, j, name)
    ensures forall m :: 0 <= m < |b.samples| ==> j < |b.samples[m].values|
    ensures forall m :: 0 <= m < |c.samples| ==> i < |c.samples[m].values|
    ensures Column(out, i, name) && |out.samples[k].values| == |c.valueTypes|
    ensures out.samples[k].values[i]
      == MetSum(out, out.samples[k], c, i, |c.samples|) - MetSum(out, out.samples[k], b, j, |b.samples|)
    ensures forall m :: 0 <= m < |out.samples| && Meets(out, out.samples[k], out, out.samples[m]) ==> m == k
  {
    hide TablesResolve, HeaderStrings, HeapShape, Key, TablesOf, MetSum, SumOf, SameTypes, Change, Differs, Meets;
    SampleIsChange(b, c, out, k, i);
    ChangeByMeeting(out, out.samples[k], b, c, i, j, name);
    ColumnStays(c, out, i, name);
    forall m | 0 <= m < |out.samples| && Meets(out, out.samples[k], out, out.samples[m]) ensures m == k {
      SameKeyMeets(out, out.samples[k], out, out.samples[m]);
    }
  }

  /** Nothing that changed is missing: where a sample of either argument has sums that differ under some metric, an
      output sample meets it. */
  lemma ChangesAppear(b: Profile, c: Profile, out: Profile, p: Profile, s: Sample, i: nat, j: nat, name: Text)
    requires Accepts(b) && Accepts(c) && SameTypes(b, c) && IsDifference(b, c, out)
    requires (p == b || p == c) && s in p.samples && Column(c, i, name) && Column(b, j, name)
    requires forall m :: 0 <= m < |b.samples| ==> j < |b.samples[m].values|
    requires forall m :: 0 <= m < |c.samples| ==> i < |c.samples[m].values|
    requires MetSum(p, s, c, i, |c.samples|) != MetSum(p, s, b, j, |b.samples|)
    ensures exists k :: 0 <= k < |out.samples| && Meets(p, s, out, out.samples[k])
  {
    hide TablesResolve, HeaderStrings, HeapShape, Key, TablesOf, MetSum, SumOf, SameTypes, Change, Differs, Meets;
    ChangeByMeeting(p, s, b, c, i, j, name);
    KeyAppears(b, c, out, Key(TablesOf(p), s));
    var k :| 0 <= k < |out.samples| && Key(TablesOf(out), out.samples[k]) == Key(TablesOf(p), s);
    SameKeyMeets(p, s, out, out.samples[k]);
  }

  /** Two builds of one file are never subtracted from each other: samples with a frame in images of different
      build ids do not meet. */
  lemma BuildsStayApart(p: Profile, s: Sample, q: Profile, t: Sample, i: nat)
    requires i < |s.locationIds| && i < |t.locationIds|
    requires var x, y := TablesOf(p), TablesOf(q);
      && s.locationIds[i] in x.locations && t.locationIds[i] in y.locations
      && var l, k := x.locations[s.locationIds[i]], y.locations[t.locationIds[i]];
        && l.mappingId in x.mappings && k.mappingId in y.mappings
        && var m, n := x.mappings[l.mappingId].buildId, y.mappings[k.mappingId].buildId;
          && 0 < m < |p.strings.strings| && 0 < n < |q.strings.strings|
          && p.strings.strings[m] != [] && q.strings.strings[n] != [] && p.strings.strings[m] != q.strings.strings[n]
    ensures !Meets(p, s, q, t)
  {
    hide LabelTexts, LinesMeet, PlacesMeet, LineResolves;
  }

  // ----- Why there is no difference -----

  /** Some sample has a label named `heap` with this text. */
  ghost predicate InDomain(p: Profile, domain: Text) {
    exists s, l :: s in p.samples && l in s.labels && HeapLabel(p, l, domain)
  }

  ghost predicate HeapLabel(p: Profile, l: Label, domain: Text) {
    && l.key < |p.strings.strings| && p.strings.strings[l.key] == Ascii("heap")
    && l.strIndex < |p.strings.strings| && p.strings.strings[l.strIndex] == domain
  }

  // The profile has a column of this name and unit.
  ghost predicate HasMetric(p: Profile, name: Text, unit: Text) {
    exists v :: v in p.valueTypes
      && v.typ < |p.strings.strings| && p.strings.strings[v.typ] == name
      && v.unit < |p.strings.strings| && p.strings.strings[v.unit] == unit
  }

  lemma DomainsAre(p: Profile, domain: Text)
    requires TablesResolve(p)
    ensures domain in Domains(p) <==> InDomain(p, domain)
  {
    hide UniqueIds, LocationResolves, MappingStrings, FunctionStrings;
    forall s, l | s in p.samples && l in s.labels ensures LabelStrings(l, |p.strings.strings|) {
      assert SampleResolves(s, Ids(p.locations, LocationId), |p.strings.strings|);
    }
    if InDomain(p, domain) {
      var s, l :| s in p.samples && l in s.labels && HeapLabel(p, l, domain);
      var i :| 0 <= i < |p.samples| && p.samples[i] == s;
      var j :| 0 <= j < |p.samples[i].labels| && p.samples[i].labels[j] == l;
      assert p.strings.Get(p.samples[i].labels[j].key) == HEAP;
    }
    if domain in Domains(p) {
      var i, j :| 0 <= i < |p.samples| && 0 <= j < |p.samples[i].labels|
        && p.strings.Get(p.samples[i].labels[j].key) == HEAP
        && p.strings.Get(p.samples[i].labels[j].strIndex) == domain;
      assert p.samples[i] in p.samples && p.samples[i].labels[j] in p.samples[i].labels;
      assert HeapLabel(p, p.samples[i].labels[j], domain);
    }
  }

  lemma MetricsAre(p: Profile, m: Metric)
    requires HeapShape(p)
    ensures m in Metrics(p) <==> HasMetric(p, m.0, m.1)
  {
    hide HeapMetric;
    if m in Metrics(p) {
      var i :| 0 <= i < |Metrics(p)| && Metrics(p)[i] == m;
      assert p.valueTypes[i] in p.valueTypes;
    }
    if HasMetric(p, m.0, m.1) {
      var v :| v in p.valueTypes && v.typ < |p.strings.strings| && p.strings.strings[v.typ] == m.0
        && v.unit < |p.strings.strings| && p.strings.strings[v.unit] == m.1;
      var i :| 0 <= i < |p.valueTypes| && p.valueTypes[i] == v;
      assert Metrics(p)[i] == m;
    }
  }

  /** The checks in their order: a profile that is no heap profile, other columns, labels of another heap. */
  lemma RefusedExactly(b: Profile, c: Profile)
    ensures Outcome(b, c) == Err(InvalidProfile) <==> !Accepts(b) || !Accepts(c)
    ensures Outcome(b, c) == Err(IncompatibleTypes) <==>
      && Accepts(b) && Accepts(c)
      && !(&& |b.valueTypes| == |c.valueTypes|
           && forall name, unit :: HasMetric(b, name, unit) <==> HasMetric(c, name, unit))
    ensures Outcome(b, c) == Err(DifferentDomains) <==>
      && Accepts(b) && Accepts(c) && |b.valueTypes| == |c.valueTypes|
      && (forall name, unit :: HasMetric(b, name, unit) <==> HasMetric(c, name, unit))
      && (exists domain :: InDomain(b, domain) != InDomain(c, domain))
  {
    hide TablesResolve, HeaderStrings, HeapShape, HasMetric, InDomain, Fold, Domains, Metrics, IdsFit;
    if Accepts(b) && Accepts(c) {
      TypesAre(b, c);
      if Domains(b) != Domains(c) {
        var domain :| (domain in Domains(b)) != (domain in Domains(c));
        DomainsAre(b, domain);
        DomainsAre(c, domain);
      } else {
        forall domain ensures InDomain(b, domain) == InDomain(c, domain) {
          DomainsAre(b, domain);
          DomainsAre(c, domain);
        }
      }
    }
  }

  lemma TypesAre(b: Profile, c: Profile)
    requires HeapShape(b) && HeapShape(c)
    ensures SameTypes(b, c) <==>
      && |b.valueTypes| == |c.valueTypes|
      && forall name, unit :: HasMetric(b, name, unit) <==> HasMetric(c, name, unit)
  {
    hide HeapShape, HasMetric, Metrics;
    forall name, unit
      ensures (name, unit) in MetricSet(b) <==> HasMetric(b, name, unit)
      ensures (name, unit) in MetricSet(c) <==> HasMetric(c, name, unit)
    {
      MetricsAre(b, (name, unit));
      MetricsAre(c, (name, unit));
    }
    if forall name, unit :: HasMetric(b, name, unit) <==> HasMetric(c, name, unit) {
      forall m: Metric ensures m in MetricSet(b) <==> m in MetricSet(c) {
        assert m == (m.0, m.1);
        assert HasMetric(b, m.0, m.1) <==> HasMetric(c, m.0, m.1);
      }
      assert MetricSet(b) == MetricSet(c);
    }
  }
}
