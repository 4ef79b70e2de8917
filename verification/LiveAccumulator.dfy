/** The app's accumulator of live profiles, `LiveProfileAccumulator.swift`: profiles with ids of their own
    are merged into one with a single id space, in which nothing stands twice.

    What a profile means is said by resolving it: a sample is the list of its locations and labels with
    all names and images in place of ids. */
module LiveAccumulator {
  import opened Prelude

  // ----- Profiles, as the app decodes them -----

  // Ids and string positions are `UInt64`; those of the accumulator count table entries.
  datatype MappingFlags = MappingFlags(functions: bool, filenames: bool, lineNumbers: bool, inlineFrames: bool)

  datatype ProfMapping = ProfMapping(id: nat, memoryStart: u64, memoryLimit: u64, fileOffset: u64, filename: nat,
                                     buildId: nat,
                                     flags: MappingFlags)

  datatype ProfFunction = ProfFunction(id: nat, name: nat, systemName: nat, filename: nat, startLine: i64)

  datatype ProfLine = ProfLine(functionId: nat, line: i64, column: i64)

  datatype ProfLocation = ProfLocation(id: nat, mappingId: nat, address: u64, lines: seq<ProfLine>, isFolded: bool)

  datatype ProfLabel = ProfLabel(key: nat, str: nat, num: i64, numUnit: nat)

  datatype ProfSample = ProfSample(locationIds: seq<nat>, values: seq<i64>, labels: seq<ProfLabel>)

  datatype ProfType = ProfType(typ: nat, unit: nat)

  datatype DecodedProfile = DecodedProfile(
    sampleTypes: seq<ProfType>, samples: seq<ProfSample>, mappings: seq<ProfMapping>, locations: seq<ProfLocation>,
    functions: seq<ProfFunction>, stringTable: seq<Text>, timeNanos: i64, durationNanos: i64,
    periodType: Option<ProfType>, period: i64, defaultSampleType: nat, comments: seq<nat>, dropFrames: nat,
    keepFrames: nat, docUrl: nat)

  // `string(at:)`.
  function StringAt(strings: seq<Text>, index: nat): Text {
    if index < |strings| then strings[index] else []
  }

  // Position 0 means no string, whatever stands there.
  function OptionalString(strings: seq<Text>, index: nat): Text {
    if index == 0 then [] else StringAt(strings, index)
  }

  // ----- Keys -----

  datatype MappingKey = MappingKey(buildId: Text, filename: Text, memoryStart: u64, memoryLimit: u64, fileOffset: u64)

  datatype FunctionKey = FunctionKey(name: Text, systemName: Text, filename: Text, startLine: i64)

  datatype LocationKey = LocationKey(mappingId: nat, address: u64, lines: seq<ProfLine>, isFolded: bool)

  datatype SampleKey = SampleKey(stack: seq<nat>, labels: seq<ProfLabel>)

  // ----- Meanings -----

  datatype LineMeaning = LineMeaning(symbol: FunctionKey, line: i64, column: i64)

  datatype LocationMeaning = LocationMeaning(mapping: Option<MappingKey>, address: u64, lines: seq<LineMeaning>,
                                             isFolded: bool)

  datatype LabelMeaning = LabelMeaning(key: Text, str: Text, num: i64, numUnit: Text)

  datatype SampleMeaning = SampleMeaning(stack: seq<LocationMeaning>, labels: seq<LabelMeaning>)

  function MappingKeyOf(strings: seq<Text>, m: ProfMapping): MappingKey {
    MappingKey(StringAt(strings, m.buildId), StringAt(strings, m.filename), m.memoryStart, m.memoryLimit, m.fileOffset)
  }

  function FunctionKeyOf(strings: seq<Text>, f: ProfFunction): FunctionKey {
    FunctionKey(StringAt(strings, f.name), StringAt(strings, f.systemName), StringAt(strings, f.filename), f.startLine)
  }

  function LabelMeaningOf(strings: seq<Text>, l: ProfLabel): LabelMeaning {
    LabelMeaning(StringAt(strings, l.key), OptionalString(strings, l.str), l.num, OptionalString(strings, l.numUnit))
  }

  function LabelMeanings(strings: seq<Text>, labels: seq<ProfLabel>): (r: seq<LabelMeaning>)
    ensures |r| == |labels|
  {
    seq(|labels|, i requires 0 <= i < |labels| => LabelMeaningOf(strings, labels[i]))
  }

  // ----- What an incoming profile means -----

  // The last mapping with an id counts, the first function, and the last location.
  function IncomingMappings(d: DecodedProfile, n: nat): map<nat, MappingKey>
    requires n <= |d.mappings|
  {
    if n == 0 then map[]
    else IncomingMappings(d, n - 1)[d.mappings[n - 1].id := MappingKeyOf(d.stringTable, d.mappings[n - 1])]
  }

  function IncomingFunctions(d: DecodedProfile, n: nat): map<nat, ProfFunction>
    requires n <= |d.functions|
  {
    if n == 0 then map[]
    else
      var before := IncomingFunctions(d, n - 1);
      if d.functions[n - 1].id in before then before else before[d.functions[n - 1].id := d.functions[n - 1]]
  }

  // Lines whose function is missing are skipped.
  function LineMeanings(d: DecodedProfile, lines: seq<ProfLine>, n: nat): seq<LineMeaning>
    requires n <= |lines|
  {
    if n == 0 then []
    else
      var functions := IncomingFunctions(d, |d.functions|);
      var line := lines[n - 1];
      LineMeanings(d, lines, n - 1)
      + if line.functionId !in functions then []
        else [LineMeaning(FunctionKeyOf(d.stringTable, functions[line.functionId]), line.line, line.column)]
  }

  function IncomingLocation(d: DecodedProfile, l: ProfLocation): LocationMeaning {
    var mappings := IncomingMappings(d, |d.mappings|);
    LocationMeaning(if l.mappingId in mappings then Some(mappings[l.mappingId]) else None,
                    l.address, LineMeanings(d, l.lines, |l.lines|), l.isFolded)
  }

  function IncomingLocations(d: DecodedProfile, n: nat): map<nat, LocationMeaning>
    requires n <= |d.locations|
  {
    if n == 0 then map[]
    else IncomingLocations(d, n - 1)[d.locations[n - 1].id := IncomingLocation(d, d.locations[n - 1])]
  }

  // `compactMap`: the ids that are known, looked up.
  function Known<T>(ids: seq<nat>, table: map<nat, T>, n: nat): seq<T>
    requires n <= |ids|
  {
    if n == 0 then []
    else Known(ids, table, n - 1) + if ids[n - 1] in table then [table[ids[n - 1]]] else []
  }

  function IncomingSample(d: DecodedProfile, s: ProfSample): SampleMeaning {
    SampleMeaning(Known(s.locationIds, IncomingLocations(d, |d.locations|), |s.locationIds|),
                  LabelMeanings(d.stringTable, s.labels))
  }

  // ----- The accumulator's state -----

  datatype Tables = Tables(
    profile: DecodedProfile,
    stringIds: map<Text, nat>,
    mappingIds: map<MappingKey, nat>,
    functionIds: map<FunctionKey, nat>,
    locationIds: map<LocationKey, nat>,
    sampleIndexes: map<SampleKey, nat>)

  /** An index map and the keys of its table are each other's inverse. */
  ghost predicate Inverse<K(!new)>(ids: map<K, nat>, keys: seq<K>, base: nat) {
    && (forall i :: 0 <= i < |keys| ==> keys[i] in ids && ids[keys[i]] == i + base)
    && (forall k :: k in ids ==> base <= ids[k] < |keys| + base && keys[ids[k] - base] == k)
  }

  lemma InverseAppend<K(!new)>(ids: map<K, nat>, keys: seq<K>, base: nat, k: K)
    requires Inverse(ids, keys, base) && k !in ids
    ensures Inverse(ids[k := |keys| + base], keys + [k], base)
  {
    var keys' := keys + [k];
    forall i | 0 <= i < |keys'|
      ensures keys'[i] in ids[k := |keys| + base] && ids[k := |keys| + base][keys'[i]] == i + base
    {
      if i < |keys| {
        assert keys'[i] == keys[i];
      }
    }
  }

  /** No key stands twice. */
  lemma InverseDistinct<K(!new)>(ids: map<K, nat>, keys: seq<K>, base: nat, i: nat, j: nat)
    requires Inverse(ids, keys, base) && i < |keys| && j < |keys| && keys[i] == keys[j]
    ensures i == j
  {
  }

  function MappingKeys(p: DecodedProfile): (keys: seq<MappingKey>)
    ensures |keys| == |p.mappings|
  {
    seq(|p.mappings|, i requires 0 <= i < |p.mappings| => MappingKeyOf(p.stringTable, p.mappings[i]))
  }

  function FunctionKeys(p: DecodedProfile): (keys: seq<FunctionKey>)
    ensures |keys| == |p.functions|
  {
    seq(|p.functions|, i requires 0 <= i < |p.functions| => FunctionKeyOf(p.stringTable, p.functions[i]))
  }

  function LocationKeyOf(l: ProfLocation): LocationKey {
    LocationKey(l.mappingId, l.address, l.lines, l.isFolded)
  }

  function LocationKeys(p: DecodedProfile): (keys: seq<LocationKey>)
    ensures |keys| == |p.locations|
  {
    seq(|p.locations|, i requires 0 <= i < |p.locations| => LocationKeyOf(p.locations[i]))
  }

  function SampleKeyOf(s: ProfSample): SampleKey {
    SampleKey(s.locationIds, s.labels)
  }

  function SampleKeys(p: DecodedProfile): (keys: seq<SampleKey>)
    ensures |keys| == |p.samples|
  {
    seq(|p.samples|, i requires 0 <= i < |p.samples| => SampleKeyOf(p.samples[i]))
  }

  // References resolve.
  predicate MappingOk(p: DecodedProfile, i: nat)
    requires i < |p.mappings|
  {
    p.mappings[i].id == i + 1 && p.mappings[i].filename < |p.stringTable| && p.mappings[i].buildId < |p.stringTable|
  }

  predicate FunctionOk(p: DecodedProfile, i: nat)
    requires i < |p.functions|
  {
    var f := p.functions[i];
    f.id == i + 1 && f.name < |p.stringTable| && f.systemName < |p.stringTable| && f.filename < |p.stringTable|
  }

  predicate LinesOk(p: DecodedProfile, lines: seq<ProfLine>) {
    forall j :: 0 <= j < |lines| ==> 1 <= lines[j].functionId <= |p.functions|
  }

  predicate LocationOk(p: DecodedProfile, i: nat)
    requires i < |p.locations|
  {
    p.locations[i].id == i + 1 && p.locations[i].mappingId <= |p.mappings| && LinesOk(p, p.locations[i].lines)
  }

  predicate LabelOk(p: DecodedProfile, l: ProfLabel) {
    l.key < |p.stringTable| && l.str < |p.stringTable| && l.numUnit < |p.stringTable|
  }

  predicate SampleKeyOk(p: DecodedProfile, k: SampleKey) {
    && (forall j :: 0 <= j < |k.stack| ==> 1 <= k.stack[j] <= |p.locations|)
    && (forall j :: 0 <= j < |k.labels| ==> LabelOk(p, k.labels[j]))
  }

  ghost predicate StringsSound(ids: map<Text, nat>, strings: seq<Text>) {
    Inverse(ids, strings, 0) && strings != [] && strings[0] == []
  }

  ghost predicate StringsValid(t: Tables) {
    StringsSound(t.stringIds, t.profile.stringTable)
  }

  ghost predicate MappingsValid(t: Tables) {
    && Inverse(t.mappingIds, MappingKeys(t.profile), 1)
    && forall i :: 0 <= i < |t.profile.mappings| ==> MappingOk(t.profile, i)
  }

  ghost predicate FunctionsValid(t: Tables) {
    && Inverse(t.functionIds, FunctionKeys(t.profile), 1)
    && forall i :: 0 <= i < |t.profile.functions| ==> FunctionOk(t.profile, i)
  }

  ghost predicate LocationsValid(t: Tables) {
    && Inverse(t.locationIds, LocationKeys(t.profile), 1)
    && forall i :: 0 <= i < |t.profile.locations| ==> LocationOk(t.profile, i)
  }

  ghost predicate SamplesValid(t: Tables) {
    && Inverse(t.sampleIndexes, SampleKeys(t.profile), 0)
    && forall i :: 0 <= i < |t.profile.samples| ==> SampleKeyOk(t.profile, SampleKeyOf(t.profile.samples[i]))
  }

  /** The five index maps are exact inverses of the tables, and every reference resolves. */
  ghost predicate Valid(t: Tables) {
    StringsValid(t) && MappingsValid(t) && FunctionsValid(t) && LocationsValid(t) && SamplesValid(t)
  }

  // ----- What the accumulated profile means -----

  function MappingMeaning(p: DecodedProfile, id: nat): Option<MappingKey> {
    if 1 <= id <= |p.mappings| then Some(MappingKeyOf(p.stringTable, p.mappings[id - 1])) else None
  }

  const NO_FUNCTION: FunctionKey := FunctionKey([], [], [], 0)
  const NO_LOCATION: LocationMeaning := LocationMeaning(None, 0, [], false)

  function FunctionMeaning(p: DecodedProfile, id: nat): FunctionKey {
    if 1 <= id <= |p.functions| then FunctionKeyOf(p.stringTable, p.functions[id - 1]) else NO_FUNCTION
  }

  function LinesMeaning(p: DecodedProfile, lines: seq<ProfLine>): (r: seq<LineMeaning>)
    ensures |r| == |lines|
  {
    seq(|lines|, i requires 0 <= i < |lines| => LineMeaning(FunctionMeaning(p, lines[i].functionId), lines[i].line,
                                                            lines[i].column))
  }

  function KeyMeaning(p: DecodedProfile, k: LocationKey): LocationMeaning {
    LocationMeaning(MappingMeaning(p, k.mappingId), k.address, LinesMeaning(p, k.lines), k.isFolded)
  }

  function LocationMeaningAt(p: DecodedProfile, id: nat): LocationMeaning {
    if 1 <= id <= |p.locations| then KeyMeaning(p, LocationKeyOf(p.locations[id - 1])) else NO_LOCATION
  }

  function StackMeaning(p: DecodedProfile, ids: seq<nat>): (r: seq<LocationMeaning>)
    ensures |r| == |ids|
  {
    seq(|ids|, i requires 0 <= i < |ids| => LocationMeaningAt(p, ids[i]))
  }

  function SampleMeaningOf(p: DecodedProfile, k: SampleKey): SampleMeaning {
    SampleMeaning(StackMeaning(p, k.stack), LabelMeanings(p.stringTable, k.labels))
  }

  // ----- Growing -----

  /** The tables only grow at their ends. */
  ghost predicate Grew(t: Tables, u: Tables) {
    && t.profile.stringTable <= u.profile.stringTable
    && t.profile.mappings <= u.profile.mappings
    && t.profile.functions <= u.profile.functions
    && t.profile.locations <= u.profile.locations
  }

  lemma MappingStays(t: Tables, u: Tables, id: nat)
    requires Grew(t, u) && MappingsValid(t) && 1 <= id <= |t.profile.mappings|
    ensures MappingMeaning(u.profile, id) == MappingMeaning(t.profile, id)
  {
    assert MappingOk(t.profile, id - 1);
  }

  lemma FunctionStays(t: Tables, u: Tables, id: nat)
    requires Grew(t, u) && FunctionsValid(t) && 1 <= id <= |t.profile.functions|
    ensures FunctionMeaning(u.profile, id) == FunctionMeaning(t.profile, id)
  {
    assert FunctionOk(t.profile, id - 1);
  }

  lemma LinesStay(t: Tables, u: Tables, lines: seq<ProfLine>)
    requires Grew(t, u) && FunctionsValid(t) && LinesOk(t.profile, lines)
    ensures LinesMeaning(u.profile, lines) == LinesMeaning(t.profile, lines) && LinesOk(u.profile, lines)
  {
    hide FunctionsValid, FunctionMeaning;
    forall j | 0 <= j < |lines| ensures LinesMeaning(u.profile, lines)[j] == LinesMeaning(t.profile, lines)[j] {
      FunctionStays(t, u, lines[j].functionId);
    }
  }

  lemma LocationStays(t: Tables, u: Tables, id: nat)
    requires Grew(t, u) && MappingsValid(t) && FunctionsValid(t) && LocationsValid(t)
    requires 1 <= id <= |t.profile.locations|
    ensures LocationMeaningAt(u.profile, id) == LocationMeaningAt(t.profile, id)
  {
    var l := t.profile.locations[id - 1];
    assert LocationOk(t.profile, id - 1) && u.profile.locations[id - 1] == l;
    hide MappingsValid, FunctionsValid, LocationsValid, LinesMeaning, MappingMeaning;
    LinesStay(t, u, l.lines);
    if l.mappingId > 0 {
      MappingStays(t, u, l.mappingId);
    } else {
      NoMapping(t.profile);
      NoMapping(u.profile);
    }
  }

  lemma NoMapping(p: DecodedProfile)
    ensures MappingMeaning(p, 0) == None
  {
  }

  lemma LabelsStay(p: DecodedProfile, q: DecodedProfile, labels: seq<ProfLabel>)
    requires p.stringTable <= q.stringTable && forall j :: 0 <= j < |labels| ==> LabelOk(p, labels[j])
    ensures LabelMeanings(q.stringTable, labels) == LabelMeanings(p.stringTable, labels)
  {
    forall j | 0 <= j < |labels|
      ensures LabelMeaningOf(q.stringTable, labels[j]) == LabelMeaningOf(p.stringTable, labels[j])
    {
      assert LabelOk(p, labels[j]);
    }
  }

  /** What a sample means does not change while the tables grow. */
  lemma SampleStays(t: Tables, u: Tables, k: SampleKey)
    requires Grew(t, u) && MappingsValid(t) && FunctionsValid(t) && LocationsValid(t) && SampleKeyOk(t.profile, k)
    ensures SampleMeaningOf(u.profile, k) == SampleMeaningOf(t.profile, k) && SampleKeyOk(u.profile, k)
  {
    hide MappingsValid, FunctionsValid, LocationsValid, LocationMeaningAt, LabelMeanings;
    LabelsStay(t.profile, u.profile, k.labels);
    forall j | 0 <= j < |k.stack|
      ensures LocationMeaningAt(u.profile, k.stack[j]) == LocationMeaningAt(t.profile, k.stack[j])
    {
      LocationStays(t, u, k.stack[j]);
    }
    assert StackMeaning(u.profile, k.stack) == StackMeaning(t.profile, k.stack);
    forall j | 0 <= j < |k.labels| ensures LabelOk(u.profile, k.labels[j]) {
      assert LabelOk(t.profile, k.labels[j]);
    }
  }

  // ----- Nothing stands twice -----

  lemma StringsDiffer(t: Tables, i: nat, j: nat)
    requires StringsValid(t) && i < |t.profile.stringTable| && j < |t.profile.stringTable|
    requires t.profile.stringTable[i] == t.profile.stringTable[j]
    ensures i == j
  {
  }

  lemma MappingsDiffer(t: Tables, i: nat, j: nat)
    requires MappingsValid(t) && i <= |t.profile.mappings| && j <= |t.profile.mappings|
    requires MappingMeaning(t.profile, i) == MappingMeaning(t.profile, j)
    ensures i == j
  {
    if i > 0 && j > 0 {
      InverseDistinct(t.mappingIds, MappingKeys(t.profile), 1, i - 1, j - 1);
    }
  }

  lemma FunctionsDiffer(t: Tables, i: nat, j: nat)
    requires FunctionsValid(t) && 1 <= i <= |t.profile.functions| && 1 <= j <= |t.profile.functions|
    requires FunctionMeaning(t.profile, i) == FunctionMeaning(t.profile, j)
    ensures i == j
  {
    InverseDistinct(t.functionIds, FunctionKeys(t.profile), 1, i - 1, j - 1);
  }

  lemma LinesDiffer(t: Tables, a: seq<ProfLine>, b: seq<ProfLine>)
    requires FunctionsValid(t) && LinesOk(t.profile, a) && LinesOk(t.profile, b)
    requires LinesMeaning(t.profile, a) == LinesMeaning(t.profile, b)
    ensures a == b
  {
    hide FunctionsValid, FunctionMeaning;
    assert |a| == |LinesMeaning(t.profile, a)| == |b|;
    forall i | 0 <= i < |a| ensures a[i] == b[i] {
      assert LinesMeaning(t.profile, a)[i] == LinesMeaning(t.profile, b)[i];
      FunctionsDiffer(t, a[i].functionId, b[i].functionId);
    }
  }

  lemma LocationsDiffer(t: Tables, i: nat, j: nat)
    requires MappingsValid(t) && FunctionsValid(t) && LocationsValid(t)
    requires 1 <= i <= |t.profile.locations| && 1 <= j <= |t.profile.locations|
    requires LocationMeaningAt(t.profile, i) == LocationMeaningAt(t.profile, j)
    ensures i == j
  {
    var a, b := t.profile.locations[i - 1], t.profile.locations[j - 1];
    assert LocationOk(t.profile, i - 1) && LocationOk(t.profile, j - 1);
    hide MappingsValid, FunctionsValid, MappingMeaning, LinesMeaning;
    MappingsDiffer(t, a.mappingId, b.mappingId);
    LinesDiffer(t, a.lines, b.lines);
    InverseDistinct(t.locationIds, LocationKeys(t.profile), 1, i - 1, j - 1);
  }

  lemma LabelsDiffer(t: Tables, a: ProfLabel, b: ProfLabel)
    requires StringsValid(t) && LabelOk(t.profile, a) && LabelOk(t.profile, b)
    requires LabelMeaningOf(t.profile.stringTable, a) == LabelMeaningOf(t.profile.stringTable, b)
    ensures a == b
  {
    OptionalIsString(t, a.str);
    OptionalIsString(t, b.str);
    OptionalIsString(t, a.numUnit);
    OptionalIsString(t, b.numUnit);
    hide StringsValid;
    StringsDiffer(t, a.key, b.key);
    StringsDiffer(t, a.str, b.str);
    StringsDiffer(t, a.numUnit, b.numUnit);
  }

  lemma OptionalIsString(t: Tables, i: nat)
    requires StringsValid(t) && i < |t.profile.stringTable|
    ensures OptionalString(t.profile.stringTable, i) == t.profile.stringTable[i]
  {
  }

  lemma KeysDiffer(t: Tables, a: SampleKey, b: SampleKey)
    requires StringsValid(t) && MappingsValid(t) && FunctionsValid(t) && LocationsValid(t)
    requires SampleKeyOk(t.profile, a) && SampleKeyOk(t.profile, b)
    requires SampleMeaningOf(t.profile, a) == SampleMeaningOf(t.profile, b)
    ensures a == b
  {
    hide StringsValid, MappingsValid, FunctionsValid, LocationsValid, LocationMeaningAt;
    assert |a.stack| == |StackMeaning(t.profile, a.stack)| == |b.stack|;
    assert |a.labels| == |LabelMeanings(t.profile.stringTable, a.labels)| == |b.labels|;
    forall i | 0 <= i < |a.stack| ensures a.stack[i] == b.stack[i] {
      assert StackMeaning(t.profile, a.stack)[i] == StackMeaning(t.profile, b.stack)[i];
      LocationsDiffer(t, a.stack[i], b.stack[i]);
    }
    forall i | 0 <= i < |a.labels| ensures a.labels[i] == b.labels[i] {
      assert LabelMeanings(t.profile.stringTable, a.labels)[i] == LabelMeanings(t.profile.stringTable, b.labels)[i];
      LabelsDiffer(t, a.labels[i], b.labels[i]);
    }
  }

  /** No two accumulated samples mean the same. */
  lemma SamplesDiffer(t: Tables, i: nat, j: nat)
    requires Valid(t) && i < |t.profile.samples| && j < |t.profile.samples|
    requires SampleMeaningOf(t.profile, SampleKeyOf(t.profile.samples[i]))
      == SampleMeaningOf(t.profile, SampleKeyOf(t.profile.samples[j]))
    ensures i == j
  {
    hide StringsValid, MappingsValid, FunctionsValid, LocationsValid, SampleMeaningOf;
    KeysDiffer(t, SampleKeyOf(t.profile.samples[i]), SampleKeyOf(t.profile.samples[j]));
    InverseDistinct(t.sampleIndexes, SampleKeys(t.profile), 0, i, j);
  }

  // ----- Sums -----

  type Entry = (SampleMeaning, seq<i64>)

  // A value that a sample does not have is zero.
  function ValueAt(values: seq<i64>, i: nat): int {
    if i < |values| then values[i] else 0
  }

  /** What some samples add up to, for one meaning and the i-th value. */
  function SumOf(entries: seq<Entry>, meaning: SampleMeaning, i: nat): int {
    if entries == [] then 0
    else
      var last := entries[|entries| - 1];
      SumOf(entries[..|entries| - 1], meaning, i) + if last.0 == meaning then ValueAt(last.1, i) else 0
  }

  function EntriesOf(p: DecodedProfile): (entries: seq<Entry>)
    ensures |entries| == |p.samples|
  {
    seq(|p.samples|, i requires 0 <= i < |p.samples| =>
      (SampleMeaningOf(p, SampleKeyOf(p.samples[i])), p.samples[i].values))
  }

  function IncomingEntries(d: DecodedProfile): (entries: seq<Entry>)
    ensures |entries| == |d.samples|
  {
    seq(|d.samples|, i requires 0 <= i < |d.samples| => (IncomingSample(d, d.samples[i]), d.samples[i].values))
  }

  lemma SumAppend(entries: seq<Entry>, e: Entry, meaning: SampleMeaning, i: nat)
    ensures SumOf(entries + [e], meaning, i) == SumOf(entries, meaning, i)
      + if e.0 == meaning then ValueAt(e.1, i) else 0
  {
    assert (entries + [e])[..|entries|] == entries;
  }

  lemma {:induction false} SumUpdate(entries: seq<Entry>, j: nat, values: seq<i64>, meaning: SampleMeaning, i: nat)
    requires j < |entries|
    ensures SumOf(entries[j := (entries[j].0, values)], meaning, i)
         == SumOf(entries, meaning, i)
           + if entries[j].0 == meaning then ValueAt(values, i) - ValueAt(entries[j].1, i) else 0
  {
    var n := |entries| - 1;
    var updated := entries[j := (entries[j].0, values)];
    if j == n {
      assert updated[..n] == entries[..n];
    } else {
      SumUpdate(entries[..n], j, values, meaning, i);
      assert updated[..n] == entries[..n][j := (entries[j].0, values)];
    }
  }

  lemma {:induction false} SumOfMissing(entries: seq<Entry>, meaning: SampleMeaning, i: nat)
    requires forall j :: 0 <= j < |entries| ==> entries[j].0 != meaning
    ensures SumOf(entries, meaning, i) == 0
  {
    if entries != [] {
      SumOfMissing(entries[..|entries| - 1], meaning, i);
    }
  }

  lemma {:induction false} SumOfDistinct(entries: seq<Entry>, j: nat, i: nat)
    requires j < |entries|
    requires forall a, b :: 0 <= a < b < |entries| ==> entries[a].0 != entries[b].0
    ensures SumOf(entries, entries[j].0, i) == ValueAt(entries[j].1, i)
  {
    var n := |entries| - 1;
    if j == n {
      SumOfMissing(entries[..n], entries[j].0, i);
    } else {
      SumOfDistinct(entries[..n], j, i);
    }
  }

  // ----- What a step leaves valid -----

  lemma MappingsFrame(t: Tables, u: Tables)
    requires MappingsValid(t) && u.profile.mappings == t.profile.mappings && u.mappingIds == t.mappingIds
    requires t.profile.stringTable <= u.profile.stringTable
    ensures MappingsValid(u)
  {
    forall i | 0 <= i < |t.profile.mappings|
      ensures MappingOk(u.profile, i) && MappingKeys(u.profile)[i] == MappingKeys(t.profile)[i]
    {
      assert MappingOk(t.profile, i);
    }
    assert MappingKeys(u.profile) == MappingKeys(t.profile);
  }

  lemma FunctionsFrame(t: Tables, u: Tables)
    requires FunctionsValid(t) && u.profile.functions == t.profile.functions && u.functionIds == t.functionIds
    requires t.profile.stringTable <= u.profile.stringTable
    ensures FunctionsValid(u)
  {
    forall i | 0 <= i < |t.profile.functions|
      ensures FunctionOk(u.profile, i) && FunctionKeys(u.profile)[i] == FunctionKeys(t.profile)[i]
    {
      assert FunctionOk(t.profile, i);
    }
    assert FunctionKeys(u.profile) == FunctionKeys(t.profile);
  }

  lemma LocationsFrame(t: Tables, u: Tables)
    requires LocationsValid(t) && u.profile.locations == t.profile.locations && u.locationIds == t.locationIds
    requires |t.profile.mappings| <= |u.profile.mappings| && |t.profile.functions| <= |u.profile.functions|
    ensures LocationsValid(u)
  {
    assert LocationKeys(u.profile) == LocationKeys(t.profile);
    forall i | 0 <= i < |t.profile.locations| ensures LocationOk(u.profile, i) {
      assert LocationOk(t.profile, i);
    }
  }

  lemma SamplesFrame(t: Tables, u: Tables)
    requires SamplesValid(t) && u.profile.samples == t.profile.samples && u.sampleIndexes == t.sampleIndexes
    requires |t.profile.stringTable| <= |u.profile.stringTable| && |t.profile.locations| <= |u.profile.locations|
    ensures SamplesValid(u)
  {
    assert SampleKeys(u.profile) == SampleKeys(t.profile);
    forall i | 0 <= i < |t.profile.samples| ensures SampleKeyOk(u.profile, SampleKeyOf(u.profile.samples[i])) {
      var k := SampleKeyOf(t.profile.samples[i]);
      assert SampleKeyOk(t.profile, k);
      forall j | 0 <= j < |k.labels| ensures LabelOk(u.profile, k.labels[j]) {
        assert LabelOk(t.profile, k.labels[j]);
      }
    }
  }

  lemma MappingAdded(t: Tables, u: Tables, m: ProfMapping)
    requires MappingsValid(t) && u.profile.stringTable == t.profile.stringTable
    requires u.profile.mappings == t.profile.mappings + [m] && m.id == |t.profile.mappings| + 1
    requires m.filename < |t.profile.stringTable| && m.buildId < |t.profile.stringTable|
    requires var k := MappingKeyOf(t.profile.stringTable, m);
      k !in t.mappingIds && u.mappingIds == t.mappingIds[k := m.id]
    ensures MappingsValid(u) && MappingMeaning(u.profile, m.id) == Some(MappingKeyOf(t.profile.stringTable, m))
  {
    hide Inverse;
    var k := MappingKeyOf(t.profile.stringTable, m);
    assert MappingKeys(u.profile) == MappingKeys(t.profile) + [k];
    InverseAppend(t.mappingIds, MappingKeys(t.profile), 1, k);
    forall i | 0 <= i < |u.profile.mappings| ensures MappingOk(u.profile, i) {
      if i < |t.profile.mappings| {
        assert MappingOk(t.profile, i);
      }
    }
  }

  lemma FunctionAdded(t: Tables, u: Tables, f: ProfFunction)
    requires FunctionsValid(t) && u.profile.stringTable == t.profile.stringTable
    requires u.profile.functions == t.profile.functions + [f] && f.id == |t.profile.functions| + 1
    requires f.name < |t.profile.stringTable| && f.systemName < |t.profile.stringTable|
    requires f.filename < |t.profile.stringTable|
    requires var k := FunctionKeyOf(t.profile.stringTable, f);
      k !in t.functionIds && u.functionIds == t.functionIds[k := f.id]
    ensures FunctionsValid(u) && FunctionMeaning(u.profile, f.id) == FunctionKeyOf(t.profile.stringTable, f)
  {
    hide Inverse;
    var k := FunctionKeyOf(t.profile.stringTable, f);
    assert FunctionKeys(u.profile) == FunctionKeys(t.profile) + [k];
    InverseAppend(t.functionIds, FunctionKeys(t.profile), 1, k);
    forall i | 0 <= i < |u.profile.functions| ensures FunctionOk(u.profile, i) {
      if i < |t.profile.functions| {
        assert FunctionOk(t.profile, i);
      }
    }
  }

  lemma LocationAdded(t: Tables, u: Tables, l: ProfLocation)
    requires LocationsValid(t) && |u.profile.mappings| == |t.profile.mappings|
    requires |u.profile.functions| == |t.profile.functions|
    requires u.profile.locations == t.profile.locations + [l] && l.id == |t.profile.locations| + 1
    requires l.mappingId <= |t.profile.mappings| && LinesOk(t.profile, l.lines)
    requires LocationKeyOf(l) !in t.locationIds && u.locationIds == t.locationIds[LocationKeyOf(l) := l.id]
    ensures LocationsValid(u) && LocationMeaningAt(u.profile, l.id) == KeyMeaning(u.profile, LocationKeyOf(l))
  {
    hide Inverse;
    assert LocationKeys(u.profile) == LocationKeys(t.profile) + [LocationKeyOf(l)];
    InverseAppend(t.locationIds, LocationKeys(t.profile), 1, LocationKeyOf(l));
    forall i | 0 <= i < |u.profile.locations| ensures LocationOk(u.profile, i) {
      if i < |t.profile.locations| {
        assert LocationOk(t.profile, i);
      }
    }
  }

  // Samples, mappings, functions and locations are as before; only strings were added.
  ghost predicate OnlyStrings(t: Tables, u: Tables) {
    && t.profile.stringTable <= u.profile.stringTable
    && u == t.(profile := t.profile.(stringTable := u.profile.stringTable), stringIds := u.stringIds)
  }

  // The samples and the header are as before.
  ghost predicate OnlyTables(t: Tables, u: Tables) {
    && Grew(t, u) && u.sampleIndexes == t.sampleIndexes
    && u.profile == t.profile.(stringTable := u.profile.stringTable, mappings := u.profile.mappings,
                               functions := u.profile.functions, locations := u.profile.locations)
  }

  lemma StringsFrame(t: Tables, u: Tables)
    requires Valid(t) && OnlyStrings(t, u) && StringsValid(u)
    ensures Valid(u)
  {
    hide StringsValid, MappingsValid, FunctionsValid, LocationsValid, SamplesValid;
    MappingsFrame(t, u);
    FunctionsFrame(t, u);
    LocationsFrame(t, u);
    SamplesFrame(t, u);
  }

  // ----- The accumulator -----

  class LiveProfileAccumulator {
    var profile: DecodedProfile
    var stringIds: map<Text, nat>
    var mappingIds: map<MappingKey, nat>
    var functionIds: map<FunctionKey, nat>
    var locationIds: map<LocationKey, nat>
    var sampleIndexes: map<SampleKey, nat>

    ghost function View(): Tables
      reads this
    {
      Tables(profile, stringIds, mappingIds, functionIds, locationIds, sampleIndexes)
    }

    constructor ()
      ensures Valid(View()) && HeaderOk(profile) && profile.samples == [] && HeaderOf(profile) == EMPTY_HEADER
    {
      profile := DecodedProfile([], [], [], [], [], [[]], 0, 0, None, 0, 0, [], 0, 0, 0);
      stringIds := map[[] := 0];
      mappingIds := map[];
      functionIds := map[];
      locationIds := map[];
      sampleIndexes := map[];
    }

    method Intern(value: Text) returns (id: nat)
      requires StringsSound(stringIds, profile.stringTable)
      modifies `profile, `stringIds
      ensures StringsSound(stringIds, profile.stringTable) && OnlyStrings(old(View()), View())
      ensures id < |profile.stringTable| && profile.stringTable[id] == value
    {
      if value in stringIds {
        return stringIds[value];
      }
      id := |profile.stringTable|;
      InverseAppend(stringIds, profile.stringTable, 0, value);
      profile := profile.(stringTable := profile.stringTable + [value]);
      stringIds := stringIds[value := id];
    }

    // The mapping with this image and place, which is added if it is new.
    method MapMapping(d: DecodedProfile, m: ProfMapping) returns (id: nat)
      requires Valid(View())
      modifies this
      ensures Valid(View()) && OnlyTables(old(View()), View())
      ensures 1 <= id <= |profile.mappings| && MappingMeaning(profile, id) == Some(MappingKeyOf(d.stringTable, m))
      // The flags take no part in the key: an entry keeps those that it came with.
      ensures if MappingKeyOf(d.stringTable, m) in old(mappingIds) then profile.mappings == old(profile.mappings)
              else
                && profile.mappings == old(profile.mappings) + [profile.mappings[id - 1]]
                && profile.mappings[id - 1].flags == m.flags
    {
      hide StringsSound, MappingsValid, FunctionsValid, LocationsValid, SamplesValid;
      var key := MappingKeyOf(d.stringTable, m);
      ghost var before := View();
      if key in mappingIds {
        id := mappingIds[key];
        MappingKnown(before, key);
        return;
      }
      id := |profile.mappings| + 1;
      mappingIds := mappingIds[key := id];
      var filename := Intern(key.filename);
      ghost var named := profile.stringTable;
      var buildId := Intern(key.buildId);
      assert profile.stringTable[filename] == named[filename];
      var global := m.(id := id, filename := filename, buildId := buildId);
      profile := profile.(mappings := profile.mappings + [global]);
      MappingStep(before, View(), global);
    }

    method MapFunction(key: FunctionKey) returns (id: nat)
      requires Valid(View())
      modifies this
      ensures Valid(View()) && OnlyTables(old(View()), View())
      ensures 1 <= id <= |profile.functions| && FunctionMeaning(profile, id) == key
    {
      hide StringsSound, MappingsValid, FunctionsValid, LocationsValid, SamplesValid;
      ghost var before := View();
      if key in functionIds {
        id := functionIds[key];
        FunctionKnown(before, key);
        return;
      }
      id := |profile.functions| + 1;
      functionIds := functionIds[key := id];
      var name := Intern(key.name);
      ghost var named := profile.stringTable;
      var systemName := Intern(key.systemName);
      ghost var both := profile.stringTable;
      var filename := Intern(key.filename);
      assert profile.stringTable[name] == both[name] == named[name]
        && profile.stringTable[systemName] == both[systemName];
      var global := ProfFunction(id, name, systemName, filename, key.startLine);
      profile := profile.(functions := profile.functions + [global]);
      FunctionStep(before, View(), global);
    }

    // The lines whose function is known, with the functions' new ids.
    method MapLines(d: DecodedProfile, functions: map<nat, ProfFunction>,
                    lines: seq<ProfLine>) returns (global: seq<ProfLine>)
      requires Valid(View()) && functions == IncomingFunctions(d, |d.functions|)
      modifies this
      ensures Valid(View()) && OnlyTables(old(View()), View())
      ensures LinesOk(profile, global) && LinesMeaning(profile, global) == LineMeanings(d, lines, |lines|)
    {
      hide StringsSound, MappingsValid, FunctionsValid, LocationsValid, SamplesValid, LinesMeaning, IncomingFunctions,
           OnlyTables;
      global := [];
      Unchanged(View());
      NoLines(profile);
      for n := 0 to |lines|
        invariant Valid(View()) && OnlyTables(old(View()), View())
        invariant LinesOk(profile, global) && LinesMeaning(profile, global) == LineMeanings(d, lines, n)
      {
        var line := lines[n];
        if line.functionId in functions {
          var symbol := functions[line.functionId];
          ghost var before := View();
          var id := MapFunction(FunctionKeyOf(d.stringTable, symbol));
          GrewTwice(old(View()), before, View());
          GrewTables(before, View());
          LineNext(before, View(), global, line.(functionId := id));
          global := global + [line.(functionId := id)];
        }
      }
    }

    method MapLocation(d: DecodedProfile, mappings: map<nat, nat>, functions: map<nat, ProfFunction>, l: ProfLocation)
        returns (id: nat)
      requires Valid(View()) && functions == IncomingFunctions(d, |d.functions|)
      requires MappingsFound(profile, mappings, IncomingMappings(d, |d.mappings|))
      modifies this
      ensures Valid(View()) && OnlyTables(old(View()), View())
      ensures 1 <= id <= |profile.locations| && LocationMeaningAt(profile, id) == IncomingLocation(d, l)
    {
      hide StringsSound, MappingsValid, FunctionsValid, LocationsValid, SamplesValid, LinesMeaning, LineMeanings,
           IncomingFunctions,
           IncomingMappings, MappingMeaning, LocationMeaningAt, OnlyTables;
      var mappingId := if l.mappingId in mappings then mappings[l.mappingId] else 0;
      ghost var start := View();
      var lines := MapLines(d, functions, l.lines);
      ghost var before := View();
      GrewTables(start, before);
      MappingsStayFound(start, before, mappings, IncomingMappings(d, |d.mappings|));
      NoMapping(profile);
      var key := LocationKey(mappingId, l.address, lines, l.isFolded);
      assert KeyMeaning(profile, key) == IncomingLocation(d, l);
      if key in locationIds {
        id := locationIds[key];
        LocationKnown(before, key);
        return;
      }
      id := |profile.locations| + 1;
      locationIds := locationIds[key := id];
      var global := l.(id := id, mappingId := mappingId, lines := lines);
      profile := profile.(locations := profile.locations + [global]);
      LocationStep(before, View(), global);
      GrewTwice(start, before, View());
    }

    // A label's strings; position 0 stays 0.
    method InternOptional(d: DecodedProfile, index: nat) returns (id: nat)
      requires StringsSound(stringIds, profile.stringTable)
      modifies `profile, `stringIds
      ensures StringsSound(stringIds, profile.stringTable) && OnlyStrings(old(View()), View())
      ensures id < |profile.stringTable|
      ensures OptionalString(profile.stringTable, id) == OptionalString(d.stringTable, index)
    {
      if index == 0 {
        assert profile.stringTable != [];
        return 0;
      }
      id := Intern(StringAt(d.stringTable, index));
      StringZero(stringIds, profile.stringTable, id);
    }

    method MapLabels(d: DecodedProfile, labels: seq<ProfLabel>) returns (global: seq<ProfLabel>)
      requires StringsSound(stringIds, profile.stringTable)
      modifies `profile, `stringIds
      ensures StringsSound(stringIds, profile.stringTable) && OnlyStrings(old(View()), View())
      ensures forall j :: 0 <= j < |global| ==> LabelOk(profile, global[j])
      ensures LabelMeanings(profile.stringTable, global) == LabelMeanings(d.stringTable, labels)
    {
      hide StringsSound, OptionalString;
      global := [];
      for n := 0 to |labels|
        invariant StringsSound(stringIds, profile.stringTable) && OnlyStrings(old(View()), View())
        invariant |global| == n && forall j :: 0 <= j < n ==> LabelOk(profile, global[j])
        invariant LabelMeanings(profile.stringTable, global) == LabelMeanings(d.stringTable, labels[..n])
      {
        var label_ := labels[n];
        ghost var p0 := profile;
        var key := Intern(StringAt(d.stringTable, label_.key));
        ghost var p1 := profile;
        var str := InternOptional(d, label_.str);
        ghost var p2 := profile;
        var numUnit := InternOptional(d, label_.numUnit);
        OptionalStays(p2.stringTable, profile.stringTable, str);
        assert profile.stringTable[key] == p1.stringTable[key];
        LabelsStay(p0, profile, global);
        forall j | 0 <= j < n ensures LabelOk(profile, global[j]) {
          assert LabelOk(p0, global[j]);
        }
        var l := ProfLabel(key, str, label_.num, numUnit);
        LabelsNext(profile.stringTable, global, l);
        LabelsNext(d.stringTable, labels[..n], label_);
        assert labels[..n + 1] == labels[..n] + [label_];
        assert LabelMeaningOf(profile.stringTable, l) == LabelMeaningOf(d.stringTable, label_);
        global := global + [l];
      }
      assert labels[..|labels|] == labels;
    }

    // The stack of a sample: locations that are not known are skipped.
    method MapStack(d: DecodedProfile, locations: map<nat, nat>, ids: seq<nat>) returns (stack: seq<nat>)
      requires LocationsFound(profile, locations, IncomingLocations(d, |d.locations|))
      ensures forall j :: 0 <= j < |stack| ==> 1 <= stack[j] <= |profile.locations|
      ensures StackMeaning(profile, stack) == Known(ids, IncomingLocations(d, |d.locations|), |ids|)
    {
      hide IncomingLocations, LocationMeaningAt;
      stack := [];
      assert StackMeaning(profile, []) == [];
      for n := 0 to |ids|
        invariant forall j :: 0 <= j < |stack| ==> 1 <= stack[j] <= |profile.locations|
        invariant StackMeaning(profile, stack) == Known(ids, IncomingLocations(d, |d.locations|), n)
      {
        if ids[n] in locations {
          assert StackMeaning(profile, stack + [locations[ids[n]]])
              == StackMeaning(profile, stack) + [LocationMeaningAt(profile, locations[ids[n]])];
          stack := stack + [locations[ids[n]]];
        }
      }
    }

    /** One sample: added to the one that means the same, or appended. */
    method AddSample(d: DecodedProfile, locations: map<nat, nat>, s: ProfSample) returns (ok: bool)
      requires Valid(View()) && LocationsFound(profile, locations, IncomingLocations(d, |d.locations|))
      modifies this
      ensures ok <==> Fits(EntriesOf(old(profile)), (IncomingSample(d, s), s.values))
      ensures ok ==>
        && Valid(View()) && Grew(old(View()), View()) && SameHeader(old(profile), profile)
        && LocationsFound(profile, locations, IncomingLocations(d, |d.locations|))
        && Adds(EntriesOf(old(profile)), EntriesOf(profile), (IncomingSample(d, s), s.values))
    {
      hide StringsSound, MappingsValid, FunctionsValid, LocationsValid, SamplesValid, LocationsFound, StackMeaning,
           LabelMeanings,
           IncomingLocations, EntriesOf, Fits, Adds, OnlyTables;
      ghost var start := View();
      ghost var meaning := IncomingSample(d, s);
      var stack := MapStack(d, locations, s.locationIds);
      var labels := MapLabels(d, s.labels);
      ghost var before := View();
      StringsFrame(start, before);
      StringsAreTables(start, before);
      EntriesStay(start, before);
      StackStays(start, before, stack);
      LocationsStayFound(start, before, locations, IncomingLocations(d, |d.locations|));
      var key := SampleKey(stack, labels);
      assert SampleMeaningOf(profile, key) == meaning;
      if key in sampleIndexes {
        var index := sampleIndexes[key];
        SampleKnown(before, key);
        SampleSum(before, index, (meaning, s.values));
        var sum := AddValues(profile.samples[index].values, s.values);
        if sum.None? {
          return false;
        }
        profile := profile.(samples := profile.samples[index := profile.samples[index].(values := sum.value)]);
        SampleUpdated(before, View(), index, sum.value, (meaning, s.values));
        ok := true;
      } else {
        NewSampleFits(before, key, (meaning, s.values));
        sampleIndexes := sampleIndexes[key := |profile.samples|];
        profile := profile.(samples := profile.samples + [ProfSample(stack, s.values, labels)]);
        SampleStep(before, View(), ProfSample(stack, s.values, labels));
        ok := true;
      }
      LocationsStayFound(before, View(), locations, IncomingLocations(d, |d.locations|));
    }

    method MergeMappings(d: DecodedProfile) returns (incoming: map<nat, nat>)
      requires Valid(View())
      modifies this
      ensures Valid(View()) && OnlyTables(old(View()), View())
      ensures MappingsFound(profile, incoming, IncomingMappings(d, |d.mappings|))
    {
      hide Valid, OnlyTables, MappingMeaning, MappingKeyOf, MappingsFound;
      Unchanged(View());
      incoming := map[];
      NoMappings(profile);
      for n := 0 to |d.mappings|
        invariant Valid(View()) && OnlyTables(old(View()), View())
        invariant MappingsFound(profile, incoming, IncomingMappings(d, n))
      {
        ghost var before := View();
        var id := MapMapping(d, d.mappings[n]);
        GrewTwice(old(View()), before, View());
        GrewTables(before, View());
        AllValid(before);
        MappingsStayFound(before, View(), incoming, IncomingMappings(d, n));
        MappingFound(profile, incoming, IncomingMappings(d, n), d.mappings[n].id, id,
                     MappingKeyOf(d.stringTable, d.mappings[n]));
        incoming := incoming[d.mappings[n].id := id];
      }
    }

    method MergeLocations(d: DecodedProfile, mappings: map<nat, nat>) returns (incoming: map<nat, nat>)
      requires Valid(View()) && MappingsFound(profile, mappings, IncomingMappings(d, |d.mappings|))
      modifies this
      ensures Valid(View()) && OnlyTables(old(View()), View())
      ensures LocationsFound(profile, incoming, IncomingLocations(d, |d.locations|))
    {
      hide Valid, OnlyTables, LocationMeaningAt, MappingsFound, IncomingLocation, IncomingMappings, IncomingFunctions;
      var functions := IncomingFunctions(d, |d.functions|);
      Unchanged(View());
      incoming := map[];
      for n := 0 to |d.locations|
        invariant Valid(View()) && OnlyTables(old(View()), View())
        invariant MappingsFound(profile, mappings, IncomingMappings(d, |d.mappings|))
        invariant LocationsFound(profile, incoming, IncomingLocations(d, n))
      {
        ghost var before := View();
        var id := MapLocation(d, mappings, functions, d.locations[n]);
        GrewTwice(old(View()), before, View());
        GrewTables(before, View());
        AllValid(before);
        MappingsStayFound(before, View(), mappings, IncomingMappings(d, |d.mappings|));
        LocationsStayFound(before, View(), incoming, IncomingLocations(d, n));
        incoming := incoming[d.locations[n].id := id];
      }
    }

    method MergeSamples(d: DecodedProfile, locations: map<nat, nat>) returns (ok: bool)
      requires Valid(View()) && LocationsFound(profile, locations, IncomingLocations(d, |d.locations|))
      modifies this
      ensures ok <==> FitsAll(EntriesOf(old(profile)), IncomingEntries(d))
      ensures ok ==>
        && Valid(View()) && Grew(old(View()), View()) && SameHeader(old(profile), profile)
        && AddsAll(EntriesOf(old(profile)), EntriesOf(profile), IncomingEntries(d))
    {
      hide Valid, Grew, EntriesOf, IncomingSample, LocationsFound, Adds, AddsAll, Fits, FitsAt;
      ghost var start, entries := EntriesOf(profile), IncomingEntries(d);
      NothingAdded(start, entries[..0]);
      GrewNot(View());
      for n := 0 to |d.samples|
        invariant Valid(View()) && Grew(old(View()), View()) && SameHeader(old(profile), profile)
        invariant LocationsFound(profile, locations, IncomingLocations(d, |d.locations|))
        invariant AddsAll(start, EntriesOf(profile), entries[..n])
        invariant forall m :: 0 <= m < n ==> FitsAt(start, entries, m)
      {
        ghost var before := View();
        FitsNext(start, EntriesOf(profile), entries, n);
        var added := AddSample(d, locations, d.samples[n]);
        assert entries[n] == (IncomingSample(d, d.samples[n]), d.samples[n].values);
        if !added {
          return false;
        }
        AddsNext(start, EntriesOf(before.profile), EntriesOf(profile), entries, n);
        GrewOn(old(View()), before, View());
      }
      assert entries[..|d.samples|] == entries;
      ok := true;
    }

    method InternTypes(d: DecodedProfile, types: seq<ProfType>) returns (global: seq<ProfType>)
      requires StringsSound(stringIds, profile.stringTable)
      modifies `profile, `stringIds
      ensures StringsSound(stringIds, profile.stringTable) && OnlyStrings(old(View()), View())
      ensures TypesOk(profile.stringTable, global)
      ensures TypeMeanings(profile.stringTable, global) == TypeMeanings(d.stringTable, types)
    {
      hide StringsSound;
      global := [];
      for n := 0 to |types|
        invariant StringsSound(stringIds, profile.stringTable) && OnlyStrings(old(View()), View())
        invariant |global| == n && TypesOk(profile.stringTable, global)
        invariant forall j :: 0 <= j < n ==>
          && profile.stringTable[global[j].typ] == StringAt(d.stringTable, types[j].typ)
          && profile.stringTable[global[j].unit] == StringAt(d.stringTable, types[j].unit)
      {
        var typ := Intern(StringAt(d.stringTable, types[n].typ));
        var unit := Intern(StringAt(d.stringTable, types[n].unit));
        global := global + [ProfType(typ, unit)];
      }
    }

    method InternComments(d: DecodedProfile, comments: seq<nat>) returns (global: seq<nat>)
      requires StringsSound(stringIds, profile.stringTable)
      modifies `profile, `stringIds
      ensures StringsSound(stringIds, profile.stringTable) && OnlyStrings(old(View()), View())
      ensures CommentsOk(profile.stringTable, global)
      ensures CommentTexts(profile.stringTable, global) == CommentTexts(d.stringTable, comments)
    {
      hide StringsSound;
      global := [];
      for n := 0 to |comments|
        invariant StringsSound(stringIds, profile.stringTable) && OnlyStrings(old(View()), View())
        invariant |global| == n && CommentsOk(profile.stringTable, global)
        invariant forall j :: 0 <= j < n ==> profile.stringTable[global[j]] == StringAt(d.stringTable, comments[j])
      {
        var id := Intern(StringAt(d.stringTable, comments[n]));
        global := global + [id];
      }
    }

    method MergeTypes(d: DecodedProfile)
      requires StringsSound(stringIds, profile.stringTable) && HeaderOk(profile)
      modifies `profile, `stringIds
      ensures StringsSound(stringIds, profile.stringTable) && HeaderOk(profile) && OnlyHeader(old(View()), View())
      ensures var h := HeaderOf(d);
        HeaderOf(profile) == HeaderOf(old(profile)).(sampleTypes := h.sampleTypes,
          periodType := if h.periodType.Some? then h.periodType else HeaderOf(old(profile)).periodType)
    {
      hide StringsSound, OptionalString, TypeMeanings, CommentTexts;
      ghost var p0 := profile;
      var sampleTypes := InternTypes(d, d.sampleTypes);
      HeaderStays(p0, profile);
      profile := profile.(sampleTypes := sampleTypes);
      if d.periodType.Some? {
        ghost var p1 := profile;
        var typ := Intern(StringAt(d.stringTable, d.periodType.value.typ));
        ghost var p2 := profile;
        var unit := Intern(StringAt(d.stringTable, d.periodType.value.unit));
        HeaderStays(p1, profile);
        assert profile.stringTable[typ] == p2.stringTable[typ];
        profile := profile.(periodType := Some(ProfType(typ, unit)));
      }
    }

    method MergeFrames(d: DecodedProfile)
      requires StringsSound(stringIds, profile.stringTable) && HeaderOk(profile)
      modifies `profile, `stringIds
      ensures StringsSound(stringIds, profile.stringTable) && HeaderOk(profile) && OnlyHeader(old(View()), View())
      ensures var h := HeaderOf(d);
        HeaderOf(profile) == HeaderOf(old(profile)).(dropFrames := h.dropFrames, keepFrames := h.keepFrames,
                                                     docUrl := h.docUrl)
    {
      hide StringsSound, OptionalString, TypeMeanings, CommentTexts, StringAt;
      ghost var p0 := profile;
      var dropFrames := InternOptional(d, d.dropFrames);
      HeaderStays(p0, profile);
      profile := profile.(dropFrames := dropFrames);
      ghost var p1 := profile;
      var keepFrames := InternOptional(d, d.keepFrames);
      HeaderStays(p1, profile);
      profile := profile.(keepFrames := keepFrames);
      ghost var p2 := profile;
      var docUrl := InternOptional(d, d.docUrl);
      HeaderStays(p2, profile);
      profile := profile.(docUrl := docUrl);
    }

    method MergeComments(d: DecodedProfile)
      requires StringsSound(stringIds, profile.stringTable) && HeaderOk(profile)
      modifies `profile, `stringIds
      ensures StringsSound(stringIds, profile.stringTable) && HeaderOk(profile) && OnlyHeader(old(View()), View())
      ensures var h := HeaderOf(d);
        HeaderOf(profile) == HeaderOf(old(profile)).(defaultSampleType := h.defaultSampleType, comments := h.comments)
    {
      hide StringsSound, OptionalString, TypeMeanings, CommentTexts, StringAt;
      ghost var p0 := profile;
      var defaultSampleType := InternOptional(d, d.defaultSampleType);
      HeaderStays(p0, profile);
      profile := profile.(defaultSampleType := defaultSampleType);
      ghost var p1 := profile;
      var comments := InternComments(d, d.comments);
      HeaderStays(p1, profile);
      profile := profile.(comments := comments);
    }

    // The header of the first profile that has sample types; after that only the duration grows.
    method MergeHeader(d: DecodedProfile)
      requires Valid(View()) && HeaderOk(profile)
      modifies this
      ensures Valid(View()) && OnlyHeader(old(View()), View()) && HeaderOk(profile)
      ensures HeaderOf(profile) == HeaderAfter(HeaderOf(old(profile)), HeaderOf(d))
    {
      hide StringsSound, MappingsValid, FunctionsValid, LocationsValid, SamplesValid, OptionalString, CommentTexts,
           StringAt;
      ghost var start := View();
      if profile.sampleTypes == [] {
        MergeTypes(d);
        MergeComments(d);
        MergeFrames(d);
        profile := profile.(period := d.period, timeNanos := d.timeNanos);
      }
      profile := profile.(durationNanos := Max(profile.durationNanos, d.durationNanos));
      TablesFrame(start, View());
    }

    /** `merge`: for every meaning the values add up, the index maps stay inverses of the tables, and every
        reference resolves.  It stops exactly when a running total leaves int64. */
    method Merge(d: DecodedProfile) returns (ok: bool)
      requires Valid(View()) && HeaderOk(profile)
      modifies this
      ensures ok <==> FitsAll(EntriesOf(old(profile)), IncomingEntries(d))
      ensures ok ==>
        && Valid(View()) && HeaderOk(profile)
        && AddsAll(EntriesOf(old(profile)), EntriesOf(profile), IncomingEntries(d))
        && HeaderOf(profile) == HeaderAfter(HeaderOf(old(profile)), HeaderOf(d))
    {
      hide Valid, FitsAll, AddsAll, EntriesOf, IncomingEntries, HeaderAfter, HeaderOf, HeaderOk, MappingsFound,
           LocationsFound;
      ghost var start := View();
      MergeHeader(d);
      ghost var headed := View();
      HeaderGrew(start, headed);
      EntriesStay(start, headed);
      var mappings := MergeMappings(d);
      ghost var mapped := View();
      var locations := MergeLocations(d, mappings);
      ghost var located := View();
      GrewTwice(headed, mapped, located);
      EntriesStay(headed, located);
      HeaderStays(headed.profile, located.profile);
      ok := MergeSamples(d, locations);
      if ok {
        HeaderStays(located.profile, profile);
      }
    }

    // `replace` starts over.
    method Replace(checkpoint: DecodedProfile) returns (ok: bool)
      modifies this
      ensures ok <==> FitsAll([], IncomingEntries(checkpoint))
      ensures ok ==>
        && Valid(View()) && HeaderOk(profile)
        && AddsAll([], EntriesOf(profile), IncomingEntries(checkpoint))
        && HeaderOf(profile) == HeaderAfter(EMPTY_HEADER, HeaderOf(checkpoint))
    {
      profile := DecodedProfile([], [], [], [], [], [[]], 0, 0, None, 0, 0, [], 0, 0, 0);
      stringIds := map[[] := 0];
      mappingIds := map[];
      functionIds := map[];
      locationIds := map[];
      sampleIndexes := map[];
      NothingYet(View());
      hide Valid, HeaderOk, EntriesOf, HeaderOf, FitsAll, AddsAll;
      ok := Merge(checkpoint);
    }
  }

  lemma NothingYet(t: Tables)
    requires t == Tables(DecodedProfile([], [], [], [], [], [[]], 0, 0, None, 0, 0, [], 0, 0, 0), map[[] := 0], map[],
                         map[], map[], map[])
    ensures Valid(t) && HeaderOk(t.profile) && EntriesOf(t.profile) == [] && HeaderOf(t.profile) == EMPTY_HEADER
  {
  }

  lemma HeaderGrew(t: Tables, u: Tables)
    requires OnlyHeader(t, u)
    ensures Grew(t, u)
  {
  }

  // More strings do not change a header.
  lemma HeaderStays(p: DecodedProfile, q: DecodedProfile)
    requires HeaderOk(p) && SameHeader(p, q) && p.stringTable <= q.stringTable
    ensures HeaderOk(q) && HeaderOf(q) == HeaderOf(p)
  {
    assert TypeMeanings(q.stringTable, q.sampleTypes) == TypeMeanings(p.stringTable, p.sampleTypes);
    assert CommentTexts(q.stringTable, q.comments) == CommentTexts(p.stringTable, p.comments);
  }

  const EMPTY_HEADER: HeaderMeaning := HeaderMeaning([], None, [], [], [], [], [], 0, 0, 0)

  datatype HeaderMeaning = HeaderMeaning(
    sampleTypes: seq<(Text, Text)>, periodType: Option<(Text, Text)>, defaultSampleType: Text, comments: seq<Text>,
    dropFrames: Text, keepFrames: Text, docUrl: Text, period: i64, timeNanos: i64, durationNanos: i64)

  function HeaderOf(p: DecodedProfile): HeaderMeaning {
    HeaderMeaning(
      TypeMeanings(p.stringTable, p.sampleTypes),
      if p.periodType.Some?
        then Some((StringAt(p.stringTable, p.periodType.value.typ), StringAt(p.stringTable, p.periodType.value.unit)))
      else None,
      OptionalString(p.stringTable, p.defaultSampleType), CommentTexts(p.stringTable, p.comments),
      OptionalString(p.stringTable, p.dropFrames), OptionalString(p.stringTable, p.keepFrames),
      OptionalString(p.stringTable, p.docUrl), p.period, p.timeNanos, p.durationNanos)
  }

  /** What becomes of the header. */
  function HeaderAfter(h: HeaderMeaning, d: HeaderMeaning): HeaderMeaning {
    var duration := Max(h.durationNanos, d.durationNanos);
    if h.sampleTypes != [] then h.(durationNanos := duration)
    else d.(periodType := if d.periodType.Some? then d.periodType else h.periodType, durationNanos := duration)
  }

  predicate HeaderOk(p: DecodedProfile) {
    var n := |p.stringTable|;
    && TypesOk(p.stringTable, p.sampleTypes) && CommentsOk(p.stringTable, p.comments)
    && (p.periodType.Some? ==> p.periodType.value.typ < n && p.periodType.value.unit < n)
    && p.defaultSampleType < n && p.dropFrames < n && p.keepFrames < n && p.docUrl < n
  }

  // Only strings and the header changed.
  ghost predicate OnlyHeader(t: Tables, u: Tables) {
    && t.profile.stringTable <= u.profile.stringTable
    && u.profile.mappings == t.profile.mappings && u.profile.functions == t.profile.functions
    && u.profile.locations == t.profile.locations && u.profile.samples == t.profile.samples
    && u == t.(profile := u.profile, stringIds := u.stringIds)
  }

  lemma TablesFrame(t: Tables, u: Tables)
    requires Valid(t) && OnlyHeader(t, u) && StringsValid(u)
    ensures Valid(u)
  {
    hide StringsSound, MappingsValid, FunctionsValid, LocationsValid, SamplesValid;
    MappingsFrame(t, u);
    FunctionsFrame(t, u);
    LocationsFrame(t, u);
    SamplesFrame(t, u);
  }

  predicate TypesOk(strings: seq<Text>, types: seq<ProfType>) {
    forall j :: 0 <= j < |types| ==> types[j].typ < |strings| && types[j].unit < |strings|
  }

  function TypeMeanings(strings: seq<Text>, types: seq<ProfType>): (r: seq<(Text, Text)>)
    ensures |r| == |types|
  {
    seq(|types|, i requires 0 <= i < |types| => (StringAt(strings, types[i].typ), StringAt(strings, types[i].unit)))
  }

  predicate CommentsOk(strings: seq<Text>, comments: seq<nat>) {
    forall j :: 0 <= j < |comments| ==> comments[j] < |strings|
  }

  function CommentTexts(strings: seq<Text>, comments: seq<nat>): (r: seq<Text>)
    ensures |r| == |comments|
  {
    seq(|comments|, i requires 0 <= i < |comments| => StringAt(strings, comments[i]))
  }

  lemma AllValid(t: Tables)
    requires Valid(t)
    ensures StringsValid(t) && MappingsValid(t) && FunctionsValid(t) && LocationsValid(t) && SamplesValid(t)
  {
  }

  lemma GrewNot(t: Tables)
    ensures Grew(t, t)
  {
  }

  lemma GrewOn(t: Tables, u: Tables, v: Tables)
    requires Grew(t, u) && Grew(u, v)
    ensures Grew(t, v)
  {
  }

  /** Every total moves by what the entries add up to. */
  ghost predicate AddsAll(before: seq<Entry>, after: seq<Entry>, entries: seq<Entry>) {
    forall meaning, i: nat :: SumOf(after, meaning, i) == SumOf(before, meaning, i) + SumOf(entries, meaning, i)
  }

  // Adding the n-th entry, after those before it, leaves no total outside int64.
  ghost predicate FitsAt(before: seq<Entry>, entries: seq<Entry>, n: nat)
    requires n < |entries|
  {
    var e := entries[n];
    forall i :: 0 <= i < |e.1| ==> InI64(SumOf(before, e.0, i) + SumOf(entries[..n], e.0, i) + ValueAt(e.1, i))
  }

  /** No running total leaves int64. */
  ghost predicate FitsAll(before: seq<Entry>, entries: seq<Entry>) {
    forall n :: 0 <= n < |entries| ==> FitsAt(before, entries, n)
  }

  lemma NothingAdded(entries: seq<Entry>, none: seq<Entry>)
    requires none == []
    ensures AddsAll(entries, entries, none)
  {
  }

  lemma FitsNext(before: seq<Entry>, now: seq<Entry>, entries: seq<Entry>, n: nat)
    requires n < |entries| && AddsAll(before, now, entries[..n])
    ensures Fits(now, entries[n]) <==> FitsAt(before, entries, n)
  {
    hide SumOf;
  }

  lemma AddsNext(before: seq<Entry>, now: seq<Entry>, next: seq<Entry>, entries: seq<Entry>, n: nat)
    requires n < |entries| && AddsAll(before, now, entries[..n]) && Adds(now, next, entries[n])
    ensures AddsAll(before, next, entries[..n + 1])
  {
    assert entries[..n + 1] == entries[..n] + [entries[n]];
    hide SumOf;
    forall meaning, i: nat
      ensures SumOf(next, meaning, i) == SumOf(before, meaning, i) + SumOf(entries[..n + 1], meaning, i)
    {
      SumAppend(entries[..n], entries[n], meaning, i);
    }
  }

  // The header: everything but the samples and the tables.
  predicate SameHeader(p: DecodedProfile, q: DecodedProfile) {
    && q.sampleTypes == p.sampleTypes && q.timeNanos == p.timeNanos && q.durationNanos == p.durationNanos
    && q.periodType == p.periodType && q.period == p.period && q.defaultSampleType == p.defaultSampleType
    && q.comments == p.comments && q.dropFrames == p.dropFrames && q.keepFrames == p.keepFrames && q.docUrl == p.docUrl
  }

  /** Adding one sample's values keeps every total of its meaning within int64. */
  ghost predicate Fits(entries: seq<Entry>, e: Entry) {
    forall i :: 0 <= i < |e.1| ==> InI64(SumOf(entries, e.0, i) + ValueAt(e.1, i))
  }

  /** Every total moves by what one more entry brings. */
  ghost predicate Adds(before: seq<Entry>, after: seq<Entry>, e: Entry) {
    forall meaning, i: nat ::
      SumOf(after, meaning, i) == SumOf(before, meaning, i) + if e.0 == meaning then ValueAt(e.1, i) else 0
  }

  lemma StringsAreTables(t: Tables, u: Tables)
    requires OnlyStrings(t, u)
    ensures OnlyTables(t, u) && Grew(t, u)
  {
  }

  lemma StackStays(t: Tables, u: Tables, stack: seq<nat>)
    requires Grew(t, u) && MappingsValid(t) && FunctionsValid(t) && LocationsValid(t)
    requires forall j :: 0 <= j < |stack| ==> 1 <= stack[j] <= |t.profile.locations|
    ensures StackMeaning(u.profile, stack) == StackMeaning(t.profile, stack)
  {
    hide MappingsValid, FunctionsValid, LocationsValid, LocationMeaningAt;
    forall j | 0 <= j < |stack|
      ensures LocationMeaningAt(u.profile, stack[j]) == LocationMeaningAt(t.profile, stack[j])
    {
      LocationStays(t, u, stack[j]);
    }
  }

  // The samples mean what they meant.
  lemma EntriesStay(t: Tables, u: Tables)
    requires Valid(t) && Grew(t, u) && u.profile.samples == t.profile.samples
    ensures EntriesOf(u.profile) == EntriesOf(t.profile)
  {
    hide StringsSound, MappingsValid, FunctionsValid, LocationsValid, SampleMeaningOf, Grew;
    forall i | 0 <= i < |t.profile.samples| ensures EntriesOf(u.profile)[i] == EntriesOf(t.profile)[i] {
      SampleStays(t, u, SampleKeyOf(t.profile.samples[i]));
    }
  }

  lemma SampleKnown(t: Tables, key: SampleKey)
    requires SamplesValid(t) && key in t.sampleIndexes
    ensures t.sampleIndexes[key] < |t.profile.samples| && SampleKeyOf(t.profile.samples[t.sampleIndexes[key]]) == key
  {
    assert SampleKeys(t.profile)[t.sampleIndexes[key]] == key;
  }

  // What stands for a meaning is its whole total.
  lemma SampleSum(t: Tables, index: nat, e: Entry)
    requires Valid(t) && index < |t.profile.samples|
    requires SampleMeaningOf(t.profile, SampleKeyOf(t.profile.samples[index])) == e.0
    ensures forall i: nat :: SumOf(EntriesOf(t.profile), e.0, i) == ValueAt(t.profile.samples[index].values, i)
    ensures Fits(EntriesOf(t.profile), e) <==>
      forall i :: 0 <= i < |e.1| ==> InI64(ValueAt(t.profile.samples[index].values, i) + ValueAt(e.1, i))
  {
    hide Valid, SampleMeaningOf, SumOf, ValueAt;
    var entries := EntriesOf(t.profile);
    forall a, b | 0 <= a < b < |entries| ensures entries[a].0 != entries[b].0 {
      if entries[a].0 == entries[b].0 {
        SamplesDiffer(t, a, b);
      }
    }
    forall i: nat ensures SumOf(entries, e.0, i) == ValueAt(t.profile.samples[index].values, i) {
      SumOfDistinct(entries, index, i);
    }
  }

  lemma KeyAbsent(t: Tables, key: SampleKey)
    requires SamplesValid(t) && key !in t.sampleIndexes
    ensures forall j :: 0 <= j < |t.profile.samples| ==> SampleKeyOf(t.profile.samples[j]) != key
  {
    forall j | 0 <= j < |t.profile.samples| ensures SampleKeyOf(t.profile.samples[j]) in t.sampleIndexes {
      assert SampleKeys(t.profile)[j] == SampleKeyOf(t.profile.samples[j]);
    }
  }

  // A meaning that is not there yet: nothing can overflow.
  lemma NewSampleFits(t: Tables, key: SampleKey, e: Entry)
    requires Valid(t) && key !in t.sampleIndexes && SampleKeyOk(t.profile, key)
    requires SampleMeaningOf(t.profile, key) == e.0
    ensures Fits(EntriesOf(t.profile), e)
  {
    hide StringsSound, MappingsValid, FunctionsValid, LocationsValid, SampleMeaningOf, SumOf;
    var entries := EntriesOf(t.profile);
    KeyAbsent(t, key);
    forall j | 0 <= j < |entries| ensures entries[j].0 != e.0 {
      if entries[j].0 == e.0 {
        KeysDiffer(t, SampleKeyOf(t.profile.samples[j]), key);
        assert false;
      }
    }
    forall i: nat | i < |e.1| ensures InI64(SumOf(entries, e.0, i) + ValueAt(e.1, i)) {
      SumOfMissing(entries, e.0, i);
    }
  }

  lemma SampleUpdated(t: Tables, u: Tables, index: nat, values: seq<i64>, e: Entry)
    requires Valid(t) && index < |t.profile.samples|
    requires SampleMeaningOf(t.profile, SampleKeyOf(t.profile.samples[index])) == e.0
    requires forall i: nat :: ValueAt(values, i) == ValueAt(t.profile.samples[index].values, i) + ValueAt(e.1, i)
    requires u == t.(profile :=
                     t.profile.(samples := t.profile.samples[index := t.profile.samples[index].(values := values)]))
    ensures Valid(u) && Grew(t, u) && Adds(EntriesOf(t.profile), EntriesOf(u.profile), e)
  {
    hide StringsSound, SampleMeaningOf, SumOf, Inverse;
    assert SampleKeys(u.profile) == SampleKeys(t.profile);
    MappingsFrame(t, u);
    FunctionsFrame(t, u);
    LocationsFrame(t, u);
    SamplesStillOk(t, u);
    hide MappingsValid, FunctionsValid, LocationsValid, SampleKeyOk;
    MeaningsSame(t.profile, u.profile);
    assert EntriesOf(u.profile) == EntriesOf(t.profile)[index := (EntriesOf(t.profile)[index].0, values)];
    hide EntriesOf;
    forall meaning, i: nat
      ensures SumOf(EntriesOf(u.profile), meaning, i)
           == SumOf(EntriesOf(t.profile), meaning, i) + if e.0 == meaning then ValueAt(e.1, i) else 0
    {
      SumUpdate(EntriesOf(t.profile), index, values, meaning, i);
    }
  }

  lemma SamplesStillOk(t: Tables, u: Tables)
    requires SamplesValid(t) && |u.profile.samples| == |t.profile.samples|
    requires u.profile.stringTable == t.profile.stringTable && u.profile.locations == t.profile.locations
    requires forall i :: 0 <= i < |t.profile.samples| ==>
      SampleKeyOf(u.profile.samples[i]) == SampleKeyOf(t.profile.samples[i])
    ensures forall i :: 0 <= i < |t.profile.samples| ==> SampleKeyOk(u.profile, SampleKeyOf(u.profile.samples[i]))
  {
    forall i | 0 <= i < |t.profile.samples| ensures SampleKeyOk(u.profile, SampleKeyOf(u.profile.samples[i])) {
      OkInSameTables(t.profile, u.profile, SampleKeyOf(t.profile.samples[i]));
    }
  }

  lemma OkInSameTables(p: DecodedProfile, q: DecodedProfile, k: SampleKey)
    requires SampleKeyOk(p, k) && q.stringTable == p.stringTable && q.locations == p.locations
    ensures SampleKeyOk(q, k)
  {
    assert forall j :: 0 <= j < |k.labels| ==> LabelOk(p, k.labels[j]) ==> LabelOk(q, k.labels[j]);
  }

  lemma MeaningsSame(p: DecodedProfile, q: DecodedProfile)
    requires q.mappings == p.mappings && q.functions == p.functions && q.stringTable == p.stringTable
    requires q.locations == p.locations
    ensures forall k :: SampleMeaningOf(q, k) == SampleMeaningOf(p, k)
  {
    hide KeyMeaning, LabelMeanings;
    forall k ensures SampleMeaningOf(q, k) == SampleMeaningOf(p, k) {
      forall id: nat ensures LocationMeaningAt(q, id) == LocationMeaningAt(p, id) {
        if 1 <= id <= |p.locations| {
          KeyMeaningSame(p, q, LocationKeyOf(p.locations[id - 1]));
        }
      }
      hide LocationMeaningAt;
      assert StackMeaning(q, k.stack) == StackMeaning(p, k.stack);
    }
  }

  lemma SampleStep(t: Tables, u: Tables, s: ProfSample)
    requires Valid(t) && SampleKeyOf(s) !in t.sampleIndexes && SampleKeyOk(t.profile, SampleKeyOf(s))
    requires u == t.(profile := t.profile.(samples := t.profile.samples + [s]),
                     sampleIndexes := t.sampleIndexes[SampleKeyOf(s) := |t.profile.samples|])
    ensures Valid(u) && Grew(t, u)
    ensures Adds(EntriesOf(t.profile), EntriesOf(u.profile), (SampleMeaningOf(t.profile, SampleKeyOf(s)), s.values))
  {
    hide StringsSound, SampleMeaningOf, SumOf, Inverse;
    assert SampleKeys(u.profile) == SampleKeys(t.profile) + [SampleKeyOf(s)];
    InverseAppend(t.sampleIndexes, SampleKeys(t.profile), 0, SampleKeyOf(s));
    MappingsFrame(t, u);
    FunctionsFrame(t, u);
    LocationsFrame(t, u);
    hide MappingsValid, FunctionsValid, LocationsValid;
    forall i | 0 <= i < |u.profile.samples| ensures SampleKeyOk(u.profile, SampleKeyOf(u.profile.samples[i])) {
      OkInSameTables(t.profile, u.profile, SampleKeyOf(u.profile.samples[i]));
    }
    hide SampleKeyOk;
    MeaningsSame(t.profile, u.profile);
    var e := (SampleMeaningOf(t.profile, SampleKeyOf(s)), s.values);
    assert EntriesOf(u.profile) == EntriesOf(t.profile) + [e];
    hide EntriesOf;
    forall meaning, i: nat
      ensures SumOf(EntriesOf(u.profile), meaning, i)
           == SumOf(EntriesOf(t.profile), meaning, i) + if e.0 == meaning then ValueAt(e.1, i) else 0
    {
      SumAppend(EntriesOf(t.profile), e, meaning, i);
    }
  }

  // Padding with zeros, then adding; nothing when a sum leaves int64, where the app stops.
  method AddValues(target: seq<i64>, source: seq<i64>) returns (sum: Option<seq<i64>>)
    ensures sum.Some? <==> forall i :: 0 <= i < |source| ==> InI64(ValueAt(target, i) + ValueAt(source, i))
    ensures sum.Some? ==> forall i: nat :: ValueAt(sum.value, i) == ValueAt(target, i) + ValueAt(source, i)
  {
    var values := target;
    if |values| < |source| {
      values := values + seq(|source| - |values|, _ => 0);
    }
    ghost var padded := values;
    assert forall i: nat :: ValueAt(padded, i) == ValueAt(target, i);
    for i := 0 to |source|
      invariant |values| == |padded|
      invariant forall j :: 0 <= j < i ==> InI64(ValueAt(target, j) + ValueAt(source, j))
      invariant forall j :: 0 <= j < |values| ==>
        values[j] == if j < i then ValueAt(target, j) + ValueAt(source, j) else padded[j]
    {
      assert values[i] == ValueAt(padded, i) == ValueAt(target, i);
      var v: int := values[i] + source[i];
      if !InI64(v) {
        assert !InI64(ValueAt(target, i) + ValueAt(source, i));
        return None;
      }
      values := values[i := v];
    }
    sum := Some(values);
  }

  lemma StringZero(ids: map<Text, nat>, strings: seq<Text>, id: nat)
    requires StringsSound(ids, strings) && id < |strings|
    ensures OptionalString(strings, id) == strings[id]
  {
  }

  lemma OptionalStays(strings: seq<Text>, more: seq<Text>, id: nat)
    requires strings <= more && id < |strings|
    ensures OptionalString(more, id) == OptionalString(strings, id)
  {
  }

  lemma LabelsNext(strings: seq<Text>, labels: seq<ProfLabel>, l: ProfLabel)
    ensures LabelMeanings(strings, labels + [l]) == LabelMeanings(strings, labels) + [LabelMeaningOf(strings, l)]
  {
  }

  lemma NoLines(p: DecodedProfile)
    ensures LinesMeaning(p, []) == []
  {
  }

  lemma Unchanged(t: Tables)
    ensures OnlyTables(t, t)
  {
  }

  lemma GrewTables(t: Tables, u: Tables)
    requires OnlyTables(t, u)
    ensures Grew(t, u)
  {
  }

  // Where the ids of an incoming table went.
  ghost predicate MappingsFound(p: DecodedProfile, ids: map<nat, nat>, table: map<nat, MappingKey>) {
    && ids.Keys == table.Keys
    && forall k :: k in ids ==> 1 <= ids[k] <= |p.mappings| && MappingMeaning(p, ids[k]) == Some(table[k])
  }

  lemma NoMappings(p: DecodedProfile)
    ensures MappingsFound(p, map[], map[])
  {
  }

  lemma MappingFound(p: DecodedProfile, ids: map<nat, nat>, table: map<nat, MappingKey>, incoming: nat, id: nat,
                     key: MappingKey)
    requires MappingsFound(p, ids, table) && 1 <= id <= |p.mappings| && MappingMeaning(p, id) == Some(key)
    ensures MappingsFound(p, ids[incoming := id], table[incoming := key])
  {
    hide MappingMeaning;
  }

  ghost predicate LocationsFound(p: DecodedProfile, ids: map<nat, nat>, table: map<nat, LocationMeaning>) {
    && ids.Keys == table.Keys
    && forall k :: k in ids ==> 1 <= ids[k] <= |p.locations| && LocationMeaningAt(p, ids[k]) == table[k]
  }

  lemma MappingsStayFound(t: Tables, u: Tables, ids: map<nat, nat>, table: map<nat, MappingKey>)
    requires Grew(t, u) && MappingsValid(t) && MappingsFound(t.profile, ids, table)
    ensures MappingsFound(u.profile, ids, table)
  {
    hide MappingsValid, MappingMeaning;
    forall k | k in ids ensures MappingMeaning(u.profile, ids[k]) == Some(table[k]) {
      MappingStays(t, u, ids[k]);
    }
  }

  lemma LocationsStayFound(t: Tables, u: Tables, ids: map<nat, nat>, table: map<nat, LocationMeaning>)
    requires Grew(t, u) && MappingsValid(t) && FunctionsValid(t) && LocationsValid(t)
    requires LocationsFound(t.profile, ids, table)
    ensures LocationsFound(u.profile, ids, table)
  {
    hide MappingsValid, FunctionsValid, LocationsValid, LocationMeaningAt;
    forall k | k in ids ensures LocationMeaningAt(u.profile, ids[k]) == table[k] {
      LocationStays(t, u, ids[k]);
    }
  }

  lemma GrewTwice(t: Tables, u: Tables, v: Tables)
    requires OnlyTables(t, u) && OnlyTables(u, v)
    ensures OnlyTables(t, v)
  {
  }

  lemma LineNext(t: Tables, u: Tables, lines: seq<ProfLine>, line: ProfLine)
    requires Grew(t, u) && FunctionsValid(t) && LinesOk(t.profile, lines)
    requires 1 <= line.functionId <= |u.profile.functions|
    ensures LinesOk(u.profile, lines + [line])
    ensures LinesMeaning(u.profile, lines + [line])
         == LinesMeaning(t.profile, lines)
           + [LineMeaning(FunctionMeaning(u.profile, line.functionId), line.line, line.column)]
  {
    LinesStay(t, u, lines);
    hide FunctionMeaning;
    assert LinesMeaning(u.profile, lines + [line])
        == LinesMeaning(u.profile, lines)
          + [LineMeaning(FunctionMeaning(u.profile, line.functionId), line.line, line.column)];
  }

  lemma LocationKnown(t: Tables, key: LocationKey)
    requires LocationsValid(t) && key in t.locationIds
    ensures 1 <= t.locationIds[key] <= |t.profile.locations|
    ensures LocationMeaningAt(t.profile, t.locationIds[key]) == KeyMeaning(t.profile, key)
  {
    assert LocationKeys(t.profile)[t.locationIds[key] - 1] == key;
  }

  lemma LocationStep(t: Tables, u: Tables, l: ProfLocation)
    requires Valid(t) && l.id == |t.profile.locations| + 1 && LocationKeyOf(l) !in t.locationIds
    requires l.mappingId <= |t.profile.mappings| && LinesOk(t.profile, l.lines)
    requires u == t.(profile := t.profile.(locations := t.profile.locations + [l]),
                     locationIds := t.locationIds[LocationKeyOf(l) := l.id])
    ensures Valid(u) && OnlyTables(t, u)
    ensures LocationMeaningAt(u.profile, l.id) == KeyMeaning(t.profile, LocationKeyOf(l))
  {
    hide StringsSound, MappingsValid, FunctionsValid, LocationsValid, SamplesValid, KeyMeaning;
    LocationAdded(t, u, l);
    MappingsFrame(t, u);
    FunctionsFrame(t, u);
    SamplesFrame(t, u);
    KeyMeaningSame(t.profile, u.profile, LocationKeyOf(l));
  }

  lemma KeyMeaningSame(p: DecodedProfile, q: DecodedProfile, k: LocationKey)
    requires q.mappings == p.mappings && q.functions == p.functions && q.stringTable == p.stringTable
    ensures KeyMeaning(q, k) == KeyMeaning(p, k)
  {
    assert LinesMeaning(q, k.lines) == LinesMeaning(p, k.lines);
  }

  lemma MappingKnown(t: Tables, key: MappingKey)
    requires MappingsValid(t) && key in t.mappingIds
    ensures 1 <= t.mappingIds[key] <= |t.profile.mappings| && MappingMeaning(t.profile, t.mappingIds[key]) == Some(key)
  {
    assert MappingKeys(t.profile)[t.mappingIds[key] - 1] == key;
  }

  lemma FunctionKnown(t: Tables, key: FunctionKey)
    requires FunctionsValid(t) && key in t.functionIds
    ensures 1 <= t.functionIds[key] <= |t.profile.functions| && FunctionMeaning(t.profile, t.functionIds[key]) == key
  {
    assert FunctionKeys(t.profile)[t.functionIds[key] - 1] == key;
  }

  // A mapping was added, after its strings.
  lemma MappingStep(t: Tables, u: Tables, m: ProfMapping)
    requires Valid(t) && StringsValid(u) && t.profile.stringTable <= u.profile.stringTable
    requires u.profile == t.profile.(stringTable := u.profile.stringTable, mappings := t.profile.mappings + [m])
    requires m.id == |t.profile.mappings| + 1 && m.filename < |u.profile.stringTable|
    requires m.buildId < |u.profile.stringTable|
    requires var k := MappingKeyOf(u.profile.stringTable, m);
      k !in t.mappingIds && u
        == t.(profile := u.profile, stringIds := u.stringIds, mappingIds := t.mappingIds[k := m.id])
    ensures Valid(u) && OnlyTables(t, u)
    ensures MappingMeaning(u.profile, m.id) == Some(MappingKeyOf(u.profile.stringTable, m))
  {
    hide StringsValid, MappingsValid, FunctionsValid, LocationsValid, SamplesValid;
    var interned := t.(profile := t.profile.(stringTable := u.profile.stringTable), stringIds := u.stringIds);
    MappingsFrame(t, interned);
    MappingAdded(interned, u, m);
    FunctionsFrame(t, u);
    LocationsFrame(t, u);
    SamplesFrame(t, u);
  }

  lemma FunctionStep(t: Tables, u: Tables, f: ProfFunction)
    requires Valid(t) && StringsValid(u) && t.profile.stringTable <= u.profile.stringTable
    requires u.profile == t.profile.(stringTable := u.profile.stringTable, functions := t.profile.functions + [f])
    requires f.id == |t.profile.functions| + 1
    requires f.name < |u.profile.stringTable| && f.systemName < |u.profile.stringTable|
    requires f.filename < |u.profile.stringTable|
    requires var k := FunctionKeyOf(u.profile.stringTable, f);
      k !in t.functionIds && u
        == t.(profile := u.profile, stringIds := u.stringIds, functionIds := t.functionIds[k := f.id])
    ensures Valid(u) && OnlyTables(t, u) && FunctionMeaning(u.profile, f.id) == FunctionKeyOf(u.profile.stringTable, f)
  {
    hide StringsValid, MappingsValid, FunctionsValid, LocationsValid, SamplesValid;
    var interned := t.(profile := t.profile.(stringTable := u.profile.stringTable), stringIds := u.stringIds);
    FunctionsFrame(t, interned);
    FunctionAdded(interned, u, f);
    MappingsFrame(t, u);
    LocationsFrame(t, u);
    SamplesFrame(t, u);
  }

  lemma {:induction false} SumConcat(a: seq<Entry>, b: seq<Entry>, meaning: SampleMeaning, i: nat)
    ensures SumOf(a + b, meaning, i) == SumOf(a, meaning, i) + SumOf(b, meaning, i)
  {
    if b == [] {
      assert a + b == a;
    } else {
      SumConcat(a, b[..|b| - 1], meaning, i);
      assert (a + b)[..|a + b| - 1] == a + b[..|b| - 1];
    }
  }

  /** Merging two profiles one after the other is merging both at once, in either order. */
  lemma MergesAddUp(start: seq<Entry>, middle: seq<Entry>, end: seq<Entry>, first: seq<Entry>, second: seq<Entry>)
    requires AddsAll(start, middle, first) && AddsAll(middle, end, second)
    ensures AddsAll(start, end, first + second) && AddsAll(start, end, second + first)
  {
    hide SumOf;
    forall meaning, i: nat
      ensures SumOf(end, meaning, i) == SumOf(start, meaning, i) + SumOf(first + second, meaning, i)
      ensures SumOf(end, meaning, i) == SumOf(start, meaning, i) + SumOf(second + first, meaning, i)
    {
      SumConcat(first, second, meaning, i);
      SumConcat(second, first, meaning, i);
    }
  }
}
