/** Carrying the tables of one profile over into another, as `difference` of `src/heap/compare.rs` does:
    strings are interned again, and mappings, functions and locations are numbered on from the largest
    id of the other profile.  What is proved: every sample keeps its structural key. */
module TableMerge {
  import opened Prelude
  import opened Pprof
  import opened HeapValidation
  import opened SampleKeys

  // ----- Strings -----

  /** New positions for all of `texts`; what was in the table stays where it was. */
  ghost predicate Carries(before: StringTable, after: StringTable, texts: seq<Text>, ids: seq<u64>) {
    && before.strings <= after.strings
    && |ids| == |texts|
    && (forall i :: 0 <= i < |ids| ==> ids[i] < |after.strings| && after.strings[ids[i]] == texts[i])
  }

  lemma CarriesOn(before: StringTable, after: StringTable, next: StringTable, texts: seq<Text>, ids: seq<u64>,
                  text: Text, id: u64)
    requires Carries(before, after, texts, ids)
    requires after.strings <= next.strings && id < |next.strings| && next.strings[id] == text
    ensures Carries(before, next, texts + [text], ids + [id])
  {
    assert forall j :: 0 <= j < |after.strings| ==> next.strings[j] == after.strings[j];
  }

  method InternAll(before: StringTable, texts: seq<Text>) returns (after: StringTable, ids: seq<u64>)
    requires before.Sound()
    // A `Vec` holds at most `isize::MAX` elements.
    requires |before.strings| + |texts| <= I64_MAX
    ensures after.Sound() && Carries(before, after, texts, ids)
    ensures |after.strings| <= |before.strings| + |texts|
  {
    after, ids := before, [];
    assert Carries(before, after, texts[..0], ids);
    hide Carries, FirstIndices;
    for i := 0 to |texts|
      invariant after.Sound() && Carries(before, after, texts[..i], ids)
      invariant |after.strings| <= |before.strings| + i
    {
      var (next, id) := after.Intern(texts[i]);
      CarriesOn(before, after, next, texts[..i], ids, texts[i], id);
      assert texts[..i + 1] == texts[..i] + [texts[i]];
      after := next;
      ids := ids + [id];
    }
    assert texts[..|texts|] == texts;
  }

  // ----- Ids -----

  function MaxId<T>(items: seq<T>, id: T -> u64): (m: u64)
    ensures forall i :: 0 <= i < |items| ==> id(items[i]) <= m
    ensures m == 0 || exists i :: 0 <= i < |items| && id(items[i]) == m
  {
    if items == [] then 0 else Max(MaxId(items[..|items| - 1], id), id(items[|items| - 1]))
  }

  // The k-th of the first `n` items gets the k-th id after `start`.
  function Renumbering<T>(items: seq<T>, id: T -> u64, n: nat, start: u64, initial: map<u64, u64>): map<u64, u64>
    requires n <= |items| && start + n < U64_SIZE
  {
    if n == 0 then initial else Renumbering(items, id, n - 1, start, initial)[id(items[n - 1]) := start + n]
  }

  lemma {:induction false} RenumberingFinds<T>(items: seq<T>, id: T -> u64, n: nat, start: u64, initial: map<u64, u64>)
    requires n <= |items| && start + n < U64_SIZE && UniqueIds(items, id)
    requires forall i :: i in initial ==> i !in Ids(items, id)
    ensures var r := Renumbering(items, id, n, start, initial);
      && r.Keys == initial.Keys + Ids(items[..n], id)
      && (forall i :: i in initial ==> r[i] == initial[i])
      && (forall k :: 0 <= k < n ==> r[id(items[k])] == start + k + 1)
  {
    if n > 0 {
      assert Ids(items[..n], id) == Ids(items[..n - 1], id) + {id(items[n - 1])};
      RenumberingFinds(items, id, n - 1, start, initial);
    }
  }

  const NO_IDS: map<u64, u64> := map[]
  const NO_ID: map<u64, u64> := map[0 := 0]

  // ----- Tables -----

  function CarryMapping(m: Mapping, id: u64, strings: seq<u64>): Mapping
    requires MappingStrings(m, |strings|)
  {
    m.(id := id, filename := strings[m.filename], buildId := strings[m.buildId])
  }

  function CarryFunction(f: Function, id: u64, strings: seq<u64>): Function
    requires FunctionStrings(f, |strings|)
  {
    f.(id := id, name := strings[f.name], systemName := strings[f.systemName], filename := strings[f.filename])
  }

  predicate LocationCarries(l: Location, mappings: map<u64, u64>, functions: map<u64, u64>) {
    l.mappingId in mappings && forall line :: line in l.lines ==> line.functionId in functions
  }

  function CarryLocation(l: Location, id: u64, mappings: map<u64, u64>, functions: map<u64, u64>): Location
    requires LocationCarries(l, mappings, functions)
  {
    l.(id := id, mappingId := mappings[l.mappingId],
       lines := seq(|l.lines|,
                    i requires 0 <= i < |l.lines| => l.lines[i].(functionId := functions[l.lines[i].functionId])))
  }

  function CarriedMappings(items: seq<Mapping>, n: nat, start: u64, strings: seq<u64>): (r: seq<Mapping>)
    requires n <= |items| && start + n < U64_SIZE
    requires forall k :: 0 <= k < |items| ==> MappingStrings(items[k], |strings|)
    ensures |r| == n && forall k :: 0 <= k < n ==> r[k] == CarryMapping(items[k], start + k + 1, strings)
  {
    if n == 0 then []
    else CarriedMappings(items, n - 1, start, strings) + [CarryMapping(items[n - 1], start + n, strings)]
  }

  function CarriedFunctions(items: seq<Function>, n: nat, start: u64, strings: seq<u64>): (r: seq<Function>)
    requires n <= |items| && start + n < U64_SIZE
    requires forall k :: 0 <= k < |items| ==> FunctionStrings(items[k], |strings|)
    ensures |r| == n && forall k :: 0 <= k < n ==> r[k] == CarryFunction(items[k], start + k + 1, strings)
  {
    if n == 0 then []
    else CarriedFunctions(items, n - 1, start, strings) + [CarryFunction(items[n - 1], start + n, strings)]
  }

  function CarriedLocations(items: seq<Location>, n: nat, start: u64, mappings: map<u64, u64>,
                            functions: map<u64, u64>): (r: seq<Location>)
    requires n <= |items| && start + n < U64_SIZE
    requires forall k :: 0 <= k < |items| ==> LocationCarries(items[k], mappings, functions)
    ensures |r| == n && forall k :: 0 <= k < n ==> r[k] == CarryLocation(items[k], start + k + 1, mappings, functions)
  {
    if n == 0 then []
    else
      CarriedLocations(items, n - 1, start, mappings, functions)
      + [CarryLocation(items[n - 1], start + n, mappings, functions)]
  }

  /** Fails exactly when the ids run out. */
  method AppendMappings(output: seq<Mapping>, items: seq<Mapping>,
                        strings: seq<u64>) returns (r: Option<(seq<Mapping>, map<u64, u64>)>)
    requires forall k :: 0 <= k < |items| ==> MappingStrings(items[k], |strings|)
    ensures var start := MaxId(output, MappingId);
      r == if start + |items| >= U64_SIZE then None
           else Some((output + CarriedMappings(items, |items|, start, strings),
                      Renumbering(items, MappingId, |items|, start, NO_ID)))
  {
    var start := MaxId(output, MappingId);
    hide CarryMapping, MappingStrings, MaxId;
    var all, next: u64, ids: map<u64, u64> := output, start, NO_ID;
    for k := 0 to |items|
      invariant next == start + k < U64_SIZE
      invariant all == output + CarriedMappings(items, k, start, strings)
      invariant ids == Renumbering(items, MappingId, k, start, NO_ID)
    {
      if next + 1 >= U64_SIZE {
        return None;
      }
      next := next + 1;
      ids := ids[items[k].id := next];
      all := all + [CarryMapping(items[k], next, strings)];
    }
    r := Some((all, ids));
  }

  method AppendFunctions(output: seq<Function>, items: seq<Function>,
                         strings: seq<u64>) returns (r: Option<(seq<Function>, map<u64, u64>)>)
    requires forall k :: 0 <= k < |items| ==> FunctionStrings(items[k], |strings|)
    ensures var start := MaxId(output, FunctionId);
      r == if start + |items| >= U64_SIZE then None
           else Some((output + CarriedFunctions(items, |items|, start, strings),
                      Renumbering(items, FunctionId, |items|, start, NO_ID)))
  {
    var start := MaxId(output, FunctionId);
    hide CarryFunction, FunctionStrings, MaxId;
    var all, next: u64, ids: map<u64, u64> := output, start, NO_ID;
    for k := 0 to |items|
      invariant next == start + k < U64_SIZE
      invariant all == output + CarriedFunctions(items, k, start, strings)
      invariant ids == Renumbering(items, FunctionId, k, start, NO_ID)
    {
      if next + 1 >= U64_SIZE {
        return None;
      }
      next := next + 1;
      ids := ids[items[k].id := next];
      all := all + [CarryFunction(items[k], next, strings)];
    }
    r := Some((all, ids));
  }

  method AppendLocations(output: seq<Location>, items: seq<Location>, mappings: map<u64, u64>,
                         functions: map<u64, u64>) returns (r: Option<(seq<Location>, map<u64, u64>)>)
    requires forall k :: 0 <= k < |items| ==> LocationCarries(items[k], mappings, functions)
    ensures var start := MaxId(output, LocationId);
      r == if start + |items| >= U64_SIZE then None
           else Some((output + CarriedLocations(items, |items|, start, mappings, functions),
                      Renumbering(items, LocationId, |items|, start, NO_IDS)))
  {
    var start := MaxId(output, LocationId);
    hide CarryLocation, LocationCarries, MaxId;
    var all, next: u64, ids: map<u64, u64> := output, start, NO_IDS;
    for k := 0 to |items|
      invariant next == start + k < U64_SIZE
      invariant all == output + CarriedLocations(items, k, start, mappings, functions)
      invariant ids == Renumbering(items, LocationId, k, start, NO_IDS)
    {
      if next + 1 >= U64_SIZE {
        return None;
      }
      next := next + 1;
      ids := ids[items[k].id := next];
      all := all + [CarryLocation(items[k], next, mappings, functions)];
    }
    r := Some((all, ids));
  }

  // ----- Keys survive -----

  // Where the strings and entries of one profile are found in another.
  datatype NewIds = NewIds(strings: seq<u64>, mappings: map<u64, u64>, functions: map<u64, u64>,
                           locations: map<u64, u64>)

  ghost predicate MappingCarried(y: Tables, t: NewIds, m: Mapping) {
    && MappingStrings(m, |t.strings|)
    && m.id in t.mappings && t.mappings[m.id] in y.mappings
    && y.mappings[t.mappings[m.id]] == CarryMapping(m, t.mappings[m.id], t.strings)
  }

  ghost predicate FunctionCarried(y: Tables, t: NewIds, f: Function) {
    && FunctionStrings(f, |t.strings|)
    && f.id in t.functions && t.functions[f.id] in y.functions
    && y.functions[t.functions[f.id]] == CarryFunction(f, t.functions[f.id], t.strings)
  }

  ghost predicate LocationCarried(y: Tables, t: NewIds, l: Location) {
    && LocationCarries(l, t.mappings, t.functions)
    && l.id in t.locations && t.locations[l.id] in y.locations
    && y.locations[t.locations[l.id]] == CarryLocation(l, t.locations[l.id], t.mappings, t.functions)
  }

  ghost predicate StringsCarried(from: StringTable, into: StringTable, t: NewIds) {
    && |t.strings| == |from.strings|
    && (forall i :: 0 <= i < |t.strings| ==>
        t.strings[i] < |into.strings| && into.strings[t.strings[i]] == from.strings[i])
  }

  /** Every entry of `p` is also found in `y`, under its new id. */
  ghost predicate CarriedOver(p: Profile, y: Tables, t: NewIds) {
    && y.strings.Get(0) == []
    && StringsCarried(p.strings, y.strings, t)
    && 0 in t.mappings && t.mappings[0] == 0 && 0 !in y.mappings
    && (forall i :: 0 <= i < |p.mappings| ==> MappingCarried(y, t, p.mappings[i]))
    && (forall i :: 0 <= i < |p.functions| ==> FunctionCarried(y, t, p.functions[i]))
    && (forall i :: 0 <= i < |p.locations| ==> LocationCarried(y, t, p.locations[i]))
  }

  // Two locations with the same frame, each in its own tables.
  ghost predicate SameLine(x: Tables, y: Tables, a: Line, b: Line) {
    && LineKeyOf(x, a) == LineKeyOf(y, b)
    && x.strings.Get(FunctionAt(x, a.functionId).name) == y.strings.Get(FunctionAt(y, b.functionId).name)
  }

  ghost predicate SameImage(x: Tables, y: Tables, l: Location, k: Location) {
    && (l.mappingId in x.mappings <==> k.mappingId in y.mappings)
    && (l.mappingId in x.mappings ==>
          var m, n := x.mappings[l.mappingId], y.mappings[k.mappingId];
          && m.memoryStart == n.memoryStart && m.fileOffset == n.fileOffset
          && x.strings.Get(m.filename) == y.strings.Get(n.filename)
          && x.strings.Get(m.buildId) == y.strings.Get(n.buildId))
  }

  lemma SameFrame(x: Tables, y: Tables, l: Location, k: Location)
    requires x.strings.Get(0) == [] && y.strings.Get(0) == []
    requires |l.lines| == |k.lines| && l.address == k.address
    requires forall i :: 0 <= i < |l.lines| ==> SameLine(x, y, l.lines[i], k.lines[i])
    requires SameImage(x, y, l, k)
    ensures FrameKeyOf(x, l) == FrameKeyOf(y, k)
  {
    assert FrameKeyOf(x, l).lines == FrameKeyOf(y, k).lines;
    hide LineKeyOf;
    assert Unsymbolicated(x, l) ==> Unsymbolicated(y, k) by {
      if Unsymbolicated(x, l) {
        forall line | line in k.lines ensures IsHex(y.strings.Get(FunctionAt(y, line.functionId).name)) {
          var i :| 0 <= i < |k.lines| && k.lines[i] == line;
          assert SameLine(x, y, l.lines[i], k.lines[i]) && l.lines[i] in l.lines;
        }
      }
    }
    assert Unsymbolicated(y, k) ==> Unsymbolicated(x, l) by {
      if Unsymbolicated(y, k) {
        forall line | line in l.lines ensures IsHex(x.strings.Get(FunctionAt(x, line.functionId).name)) {
          var i :| 0 <= i < |l.lines| && l.lines[i] == line;
          assert SameLine(x, y, l.lines[i], k.lines[i]) && k.lines[i] in k.lines;
        }
      }
    }
    hide Unsymbolicated;
  }

  // What resolving tables give, one fact at a time.
  lemma TablesUnique(p: Profile)
    requires TablesResolve(p)
    ensures UniqueIds(p.mappings, MappingId) && UniqueIds(p.functions, FunctionId) && UniqueIds(p.locations, LocationId)
    ensures forall k :: 0 <= k < |p.locations| ==>
      LocationResolves(p.locations[k], Ids(p.mappings, MappingId), Ids(p.functions, FunctionId))
    ensures forall k :: 0 <= k < |p.functions| ==> FunctionStrings(p.functions[k], |p.strings.strings|)
    ensures forall k :: 0 <= k < |p.mappings| ==> MappingStrings(p.mappings[k], |p.strings.strings|)
    ensures p.strings.strings != [] && p.strings.strings[0] == []
  {
  }

  lemma Find<T>(items: seq<T>, id: T -> u64, wanted: u64) returns (i: nat)
    requires UniqueIds(items, id) && wanted in Ids(items, id)
    ensures i < |items| && id(items[i]) == wanted
    ensures wanted in Index(items, id) && Index(items, id)[wanted] == items[i]
  {
    i :| 0 <= i < |items| && id(items[i]) == wanted;
    IndexFinds(items, id);
  }

  lemma CarriedString(from: StringTable, into: StringTable, t: NewIds, i: u64)
    requires StringsCarried(from, into, t) && i < |t.strings|
    ensures into.Get(t.strings[i]) == from.Get(i) && t.strings[i] < |into.strings|
  {
  }

  lemma CarriedLine(p: Profile, y: Tables, t: NewIds, line: Line)
    requires TablesResolve(p) && CarriedOver(p, y, t)
    requires line.functionId in Ids(p.functions, FunctionId) && line.functionId in t.functions
    ensures SameLine(TablesOf(p), y, line, line.(functionId := t.functions[line.functionId]))
  {
    TablesUnique(p);
    hide TablesResolve, UniqueIds, Index;
    var i := Find(p.functions, FunctionId, line.functionId);
    var f := p.functions[i];
    assert FunctionCarried(y, t, f);
    CarriedString(p.strings, y.strings, t, f.name);
    CarriedString(p.strings, y.strings, t, f.systemName);
    CarriedString(p.strings, y.strings, t, f.filename);
    hide CarriedOver, StringsCarried, Ids;
  }

  lemma CarriedImage(p: Profile, y: Tables, t: NewIds, l: Location, k: Location)
    requires TablesResolve(p) && CarriedOver(p, y, t)
    requires l.mappingId == 0 || l.mappingId in Ids(p.mappings, MappingId)
    requires l.mappingId in t.mappings && k.mappingId == t.mappings[l.mappingId]
    ensures SameImage(TablesOf(p), y, l, k)
  {
    TablesUnique(p);
    if l.mappingId == 0 {
      IndexFinds(p.mappings, MappingId);
    } else {
      hide TablesResolve, UniqueIds, Index;
      var i := Find(p.mappings, MappingId, l.mappingId);
      var m := p.mappings[i];
      assert MappingCarried(y, t, m);
      CarriedString(p.strings, y.strings, t, m.filename);
      CarriedString(p.strings, y.strings, t, m.buildId);
      hide CarriedOver, StringsCarried, Ids;
    }
  }

  lemma CarriedFrame(p: Profile, y: Tables, t: NewIds, l: Location, id: u64)
    requires TablesResolve(p) && CarriedOver(p, y, t)
    requires LocationResolves(l, Ids(p.mappings, MappingId), Ids(p.functions, FunctionId))
    requires LocationCarries(l, t.mappings, t.functions)
    ensures FrameKeyOf(TablesOf(p), l) == FrameKeyOf(y, CarryLocation(l, id, t.mappings, t.functions))
  {
    var k := CarryLocation(l, id, t.mappings, t.functions);
    TablesUnique(p);
    hide TablesResolve, Index, SameImage, SameLine;
    CarriedImage(p, y, t, l, k);
    forall i | 0 <= i < |l.lines| ensures SameLine(TablesOf(p), y, l.lines[i], k.lines[i]) {
      CarriedLine(p, y, t, l.lines[i]);
    }
    SameFrame(TablesOf(p), y, l, k);
  }

  lemma CarriedFrameAt(p: Profile, y: Tables, t: NewIds, id: u64)
    requires TablesResolve(p) && CarriedOver(p, y, t)
    requires id in Ids(p.locations, LocationId)
    ensures id in t.locations && t.locations[id] in y.locations
    ensures FrameAt(TablesOf(p), id) == FrameAt(y, t.locations[id])
  {
    TablesUnique(p);
    hide TablesResolve, UniqueIds, Index, FrameKeyOf, CarryLocation, LocationCarries;
    var i := Find(p.locations, LocationId, id);
    assert LocationCarried(y, t, p.locations[i]);
    CarriedFrame(p, y, t, p.locations[i], t.locations[id]);
  }

  predicate SampleCarries(s: Sample, t: NewIds) {
    && (forall id :: id in s.locationIds ==> id in t.locations)
    && (forall l :: l in s.labels ==> LabelStrings(l, |t.strings|))
  }

  function CarryLabel(l: Label, strings: seq<u64>): Label
    requires LabelStrings(l, |strings|)
  {
    l.(key := strings[l.key], strIndex := strings[l.strIndex], numUnit := strings[l.numUnit])
  }

  function CarrySample(s: Sample, t: NewIds): (r: Sample)
    requires SampleCarries(s, t)
    ensures |r.locationIds| == |s.locationIds| && |r.labels| == |s.labels| && r.values == s.values
  {
    Sample(seq(|s.locationIds|, i requires 0 <= i < |s.locationIds| => t.locations[s.locationIds[i]]),
           s.values,
           seq(|s.labels|, i requires 0 <= i < |s.labels| => CarryLabel(s.labels[i], t.strings)))
  }

  lemma CarriedLabels(from: StringTable, into: StringTable, t: NewIds, s: Sample)
    requires StringsCarried(from, into, t) && SampleCarries(s, t)
    ensures LabelKeys(from, s.labels) == LabelKeys(into, CarrySample(s, t).labels)
    ensures forall l :: l in CarrySample(s, t).labels ==> LabelStrings(l, |into.strings|)
  {
    var r := CarrySample(s, t);
    forall i | 0 <= i < |s.labels|
      ensures LabelKeyOf(from, s.labels[i]) == LabelKeyOf(into, r.labels[i])
      ensures LabelStrings(r.labels[i], |into.strings|)
    {
      assert LabelStrings(s.labels[i], |t.strings|);
    }
  }

  /** A sample that is carried over keeps its key. */
  lemma CarriedKey(p: Profile, y: Tables, t: NewIds, s: Sample)
    requires TablesResolve(p) && CarriedOver(p, y, t)
    requires SampleResolves(s, Ids(p.locations, LocationId), |p.strings.strings|)
    ensures SampleCarries(s, t)
    ensures Key(TablesOf(p), s) == Key(y, CarrySample(s, t))
    ensures SampleResolves(CarrySample(s, t), y.locations.Keys, |y.strings.strings|)
  {
    assert StringsCarried(p.strings, y.strings, t);
    hide TablesResolve, FrameAt;
    forall i | 0 <= i < |s.locationIds|
      ensures s.locationIds[i] in t.locations && t.locations[s.locationIds[i]] in y.locations
      ensures FrameAt(TablesOf(p), s.locationIds[i]) == FrameAt(y, t.locations[s.locationIds[i]])
    {
      assert s.locationIds[i] in Ids(p.locations, LocationId);
      CarriedFrameAt(p, y, t, s.locationIds[i]);
    }
    hide CarriedOver, StringsCarried;
    assert SampleCarries(s, t);
    CarriedLabels(p.strings, y.strings, t, s);
    assert StackKey(TablesOf(p), s.locationIds) == StackKey(y, CarrySample(s, t).locationIds);
    hide LabelKeys;
  }

  // ----- Merging the tables -----

  // The two profiles fit into one id space.
  predicate IdsFit(b: Profile, c: Profile) {
    && MaxId(c.mappings, MappingId) + |b.mappings| < U64_SIZE
    && MaxId(c.functions, FunctionId) + |b.functions| < U64_SIZE
    && MaxId(c.locations, LocationId) + |b.locations| < U64_SIZE
  }

  // Nothing of `c` moves.
  function Kept(c: Profile): NewIds
    requires |c.strings.strings| <= I64_MAX
  {
    NewIds(seq(|c.strings.strings|, i requires 0 <= i < |c.strings.strings| => i),
           map i: u64 | i in {0} + Ids(c.mappings, MappingId) :: i,
           map i: u64 | i in {0} + Ids(c.functions, FunctionId) :: i,
           map i: u64 | i in Ids(c.locations, LocationId) :: i)
  }

  lemma KeptSample(c: Profile, s: Sample)
    requires |c.strings.strings| <= I64_MAX
    requires SampleCarries(s, Kept(c))
    ensures CarrySample(s, Kept(c)) == s
  {
    var r := CarrySample(s, Kept(c));
    forall i | 0 <= i < |s.labels| ensures r.labels[i] == s.labels[i] {
      assert LabelStrings(s.labels[i], |Kept(c).strings|);
    }
    assert r.labels == s.labels && r.locationIds == s.locationIds;
  }

  lemma AppendedUnique<T>(first: seq<T>, added: seq<T>, id: T -> u64)
    requires UniqueIds(first, id)
    requires forall k :: 0 <= k < |added| ==> id(added[k]) == MaxId(first, id) + k + 1
    ensures UniqueIds(first + added, id)
  {
    var all := first + added;
    forall i, j | 0 <= i < j < |all| ensures id(all[i]) != id(all[j]) {
      if i >= |first| {
        assert all[i] == added[i - |first|];
      }
    }
  }

  // Every entry of either table is found in the appended one.
  lemma BothFound<T>(first: seq<T>, added: seq<T>, id: T -> u64)
    requires UniqueIds(first + added, id)
    ensures Index(first + added, id).Keys == Ids(first + added, id)
    ensures forall i :: 0 <= i < |first| ==>
      id(first[i]) in Index(first + added, id) && Index(first + added, id)[id(first[i])] == first[i]
    ensures forall i :: 0 <= i < |added| ==>
      id(added[i]) in Index(first + added, id) && Index(first + added, id)[id(added[i])] == added[i]
  {
    var all := first + added;
    IndexFinds(all, id);
    hide Index, UniqueIds, Ids;
    forall i | 0 <= i < |first| ensures id(first[i]) in Index(all, id) && Index(all, id)[id(first[i])] == first[i] {
      assert all[i] == first[i];
    }
    forall i | 0 <= i < |added| ensures id(added[i]) in Index(all, id) && Index(all, id)[id(added[i])] == added[i] {
      assert all[|first| + i] == added[i];
    }
  }

  lemma RenumberingCovers<T>(items: seq<T>, id: T -> u64, start: u64, initial: map<u64, u64>)
    requires start + |items| < U64_SIZE && UniqueIds(items, id)
    requires initial.Keys <= {0}
    ensures var r := Renumbering(items, id, |items|, start, initial);
      && r.Keys == initial.Keys + Ids(items, id)
      && (0 in initial ==> r[0] == initial[0])
      && (forall k :: 0 <= k < |items| ==> id(items[k]) in r && r[id(items[k])] == start + k + 1)
  {
    assert 0 !in Ids(items, id);
    RenumberingFinds(items, id, |items|, start, initial);
    assert items[..|items|] == items;
  }

  // Where the i-th carried entry is found.
  lemma Placed<T>(first: seq<T>, items: seq<T>, added: seq<T>, id: T -> u64, initial: map<u64, u64>, i: nat)
    requires MaxId(first, id) + |items| < U64_SIZE && i < |items| == |added|
    requires UniqueIds(items, id) && UniqueIds(first + added, id) && initial.Keys <= {0}
    requires id(added[i]) == MaxId(first, id) + i + 1
    ensures var ids := Renumbering(items, id, |items|, MaxId(first, id), initial);
      && id(items[i]) in ids && ids[id(items[i])] == MaxId(first, id) + i + 1
      && ids[id(items[i])] in Index(first + added, id) && Index(first + added, id)[ids[id(items[i])]] == added[i]
  {
    hide Renumbering, Index, MaxId, UniqueIds, Ids;
    var ids := Renumbering(items, id, |items|, MaxId(first, id), initial);
    assert id(items[i]) in ids && ids[id(items[i])] == MaxId(first, id) + i + 1 by {
      RenumberingCovers(items, id, MaxId(first, id), initial);
    }
    BothFound(first, added, id);
  }

  /** `out` has the tables of `c`, and after them those of `b`; `t` says where. */
  ghost predicate Merged(b: Profile, c: Profile, out: Profile, t: NewIds) {
    && IdsFit(b, c)
    && c.strings.strings <= out.strings.strings && StringsCarried(b.strings, out.strings, t)
    && t.mappings == Renumbering(b.mappings, MappingId, |b.mappings|, MaxId(c.mappings, MappingId), NO_ID)
    && t.functions == Renumbering(b.functions, FunctionId, |b.functions|, MaxId(c.functions, FunctionId), NO_ID)
    && t.locations == Renumbering(b.locations, LocationId, |b.locations|, MaxId(c.locations, LocationId), NO_IDS)
    && (forall k :: 0 <= k < |b.mappings| ==> MappingStrings(b.mappings[k], |t.strings|))
    && (forall k :: 0 <= k < |b.functions| ==> FunctionStrings(b.functions[k], |t.strings|))
    && (forall k :: 0 <= k < |b.locations| ==> LocationCarries(b.locations[k], t.mappings, t.functions))
    && out.mappings == c.mappings + CarriedMappings(b.mappings, |b.mappings|, MaxId(c.mappings, MappingId), t.strings)
    && out.functions == c.functions
      + CarriedFunctions(b.functions, |b.functions|, MaxId(c.functions, FunctionId), t.strings)
    && out.locations == c.locations
       + CarriedLocations(b.locations, |b.locations|, MaxId(c.locations, LocationId), t.mappings, t.functions)
  }

  // What the merge adds, and its ids.
  lemma AddedMappings(b: Profile, c: Profile, out: Profile, t: NewIds)
    requires Merged(b, c, out, t)
    ensures var added := CarriedMappings(b.mappings, |b.mappings|, MaxId(c.mappings, MappingId), t.strings);
      && out.mappings == c.mappings + added
      && t.mappings == Renumbering(b.mappings, MappingId, |b.mappings|, MaxId(c.mappings, MappingId), NO_ID)
      && forall k :: 0 <= k < |added| ==> MappingId(added[k]) == MaxId(c.mappings, MappingId) + k + 1
  {
    hide Renumbering, MaxId, StringsCarried;
  }

  lemma MappingPlaced(b: Profile, c: Profile, out: Profile, t: NewIds, i: nat)
    requires Merged(b, c, out, t) && i < |b.mappings|
    requires UniqueIds(b.mappings, MappingId) && UniqueIds(out.mappings, MappingId)
    ensures MappingCarried(TablesOf(out), t, b.mappings[i])
  {
    hide Renumbering, MaxId, UniqueIds, Ids, Index, StringsCarried, IdsFit, CarryMapping;
    AddedMappings(b, c, out, t);
    Placed(c.mappings, b.mappings, CarriedMappings(b.mappings, |b.mappings|, MaxId(c.mappings, MappingId), t.strings),
           MappingId, NO_ID, i);
    assert b.mappings[i].id == MappingId(b.mappings[i]);
    hide Merged, CarriedMappings;
  }

  // What the merge adds, and its ids.
  lemma AddedFunctions(b: Profile, c: Profile, out: Profile, t: NewIds)
    requires Merged(b, c, out, t)
    ensures var added := CarriedFunctions(b.functions, |b.functions|, MaxId(c.functions, FunctionId), t.strings);
      && out.functions == c.functions + added
      && t.functions == Renumbering(b.functions, FunctionId, |b.functions|, MaxId(c.functions, FunctionId), NO_ID)
      && forall k :: 0 <= k < |added| ==> FunctionId(added[k]) == MaxId(c.functions, FunctionId) + k + 1
  {
    hide Renumbering, MaxId, StringsCarried;
  }

  lemma FunctionPlaced(b: Profile, c: Profile, out: Profile, t: NewIds, i: nat)
    requires Merged(b, c, out, t) && i < |b.functions|
    requires UniqueIds(b.functions, FunctionId) && UniqueIds(out.functions, FunctionId)
    ensures FunctionCarried(TablesOf(out), t, b.functions[i])
  {
    hide Renumbering, MaxId, UniqueIds, Ids, Index, StringsCarried, IdsFit, CarryFunction;
    AddedFunctions(b, c, out, t);
    Placed(c.functions, b.functions,
           CarriedFunctions(b.functions, |b.functions|, MaxId(c.functions, FunctionId), t.strings),
           FunctionId, NO_ID, i);
    assert b.functions[i].id == FunctionId(b.functions[i]);
    hide Merged, CarriedFunctions;
  }

  // What the merge adds, and its ids.
  lemma AddedLocations(b: Profile, c: Profile, out: Profile, t: NewIds)
    requires Merged(b, c, out, t)
    ensures var added := CarriedLocations(b.locations, |b.locations|, MaxId(c.locations, LocationId), t.mappings,
                                          t.functions);
      && out.locations == c.locations + added
      && t.locations == Renumbering(b.locations, LocationId, |b.locations|, MaxId(c.locations, LocationId), NO_IDS)
      && forall k :: 0 <= k < |added| ==> LocationId(added[k]) == MaxId(c.locations, LocationId) + k + 1
  {
    hide Renumbering, MaxId, StringsCarried;
  }

  lemma LocationPlaced(b: Profile, c: Profile, out: Profile, t: NewIds, i: nat)
    requires Merged(b, c, out, t) && i < |b.locations|
    requires UniqueIds(b.locations, LocationId) && UniqueIds(out.locations, LocationId)
    ensures LocationCarried(TablesOf(out), t, b.locations[i])
  {
    hide Renumbering, MaxId, UniqueIds, Ids, Index, StringsCarried, IdsFit, CarryLocation;
    AddedLocations(b, c, out, t);
    Placed(c.locations, b.locations,
           CarriedLocations(b.locations, |b.locations|, MaxId(c.locations, LocationId), t.mappings, t.functions),
           LocationId, NO_IDS, i);
    assert b.locations[i].id == LocationId(b.locations[i]);
    hide Merged, CarriedLocations;
  }

  lemma NoZeroMapping(p: Profile)
    requires UniqueIds(p.mappings, MappingId)
    ensures 0 !in TablesOf(p).mappings
  {
    IndexFinds(p.mappings, MappingId);
  }

  /** What the merge puts after the tables of `c` is all of `b`. */
  lemma AddedOver(b: Profile, c: Profile, out: Profile, t: NewIds)
    requires Merged(b, c, out, t) && TablesResolve(b) && TablesResolve(c)
    requires UniqueIds(out.mappings, MappingId) && UniqueIds(out.functions, FunctionId)
    requires UniqueIds(out.locations, LocationId)
    ensures CarriedOver(b, TablesOf(out), t)
  {
    hide TablesResolve, UniqueIds, Index, Renumbering, MaxId, Ids, MappingCarried, FunctionCarried, LocationCarried;
    TablesUnique(b);
    TablesUnique(c);
    NoZeroMapping(out);
    RenumberingCovers(b.mappings, MappingId, MaxId(c.mappings, MappingId), NO_ID);
    assert c.strings.strings[0] == out.strings.strings[0];
    forall i | 0 <= i < |b.mappings| ensures MappingCarried(TablesOf(out), t, b.mappings[i]) {
      MappingPlaced(b, c, out, t, i);
    }
    forall i | 0 <= i < |b.functions| ensures FunctionCarried(TablesOf(out), t, b.functions[i]) {
      FunctionPlaced(b, c, out, t, i);
    }
    forall i | 0 <= i < |b.locations| ensures LocationCarried(TablesOf(out), t, b.locations[i]) {
      LocationPlaced(b, c, out, t, i);
    }
  }

  lemma KeptFound<T>(first: seq<T>, all: seq<T>, id: T -> u64, i: nat)
    requires first <= all && UniqueIds(all, id) && i < |first|
    ensures id(first[i]) in Index(all, id) && Index(all, id)[id(first[i])] == first[i]
  {
    IndexFinds(all, id);
    hide Index, UniqueIds, Ids;
    assert all[i] == first[i];
  }

  lemma MappingKept(c: Profile, out: Profile, i: nat)
    requires TablesResolve(c) && |c.strings.strings| <= I64_MAX
    requires c.mappings <= out.mappings && UniqueIds(out.mappings, MappingId) && i < |c.mappings|
    ensures MappingCarried(TablesOf(out), Kept(c), c.mappings[i])
  {
    TablesUnique(c);
    KeptFound(c.mappings, out.mappings, MappingId, i);
    assert MappingId(c.mappings[i]) in Kept(c).mappings;
    hide TablesResolve, UniqueIds, Index, Ids;
  }

  lemma FunctionKept(c: Profile, out: Profile, i: nat)
    requires TablesResolve(c) && |c.strings.strings| <= I64_MAX
    requires c.functions <= out.functions && UniqueIds(out.functions, FunctionId) && i < |c.functions|
    ensures FunctionCarried(TablesOf(out), Kept(c), c.functions[i])
  {
    TablesUnique(c);
    KeptFound(c.functions, out.functions, FunctionId, i);
    assert FunctionId(c.functions[i]) in Kept(c).functions;
    hide TablesResolve, UniqueIds, Index, Ids;
  }

  lemma LocationKept(c: Profile, out: Profile, i: nat)
    requires TablesResolve(c) && |c.strings.strings| <= I64_MAX
    requires c.locations <= out.locations && UniqueIds(out.locations, LocationId) && i < |c.locations|
    ensures LocationCarried(TablesOf(out), Kept(c), c.locations[i])
  {
    TablesUnique(c);
    var l, t := c.locations[i], Kept(c);
    KeptFound(c.locations, out.locations, LocationId, i);
    assert LocationId(l) in t.locations;
    assert LocationResolves(l, Ids(c.mappings, MappingId), Ids(c.functions, FunctionId));
    hide TablesResolve, UniqueIds, Index, Ids;
    assert CarryLocation(l, l.id, t.mappings, t.functions).lines == l.lines;
  }

  lemma KeptStrings(c: Profile, out: Profile)
    requires c.strings.strings <= out.strings.strings && |c.strings.strings| <= I64_MAX
    ensures StringsCarried(c.strings, out.strings, Kept(c))
  {
  }

  /** The merge leaves the tables of `c` in place. */
  lemma KeptOver(c: Profile, out: Profile)
    requires TablesResolve(c) && |c.strings.strings| <= I64_MAX
    requires c.strings.strings <= out.strings.strings && out.strings.Get(0) == []
    requires c.mappings <= out.mappings && c.functions <= out.functions && c.locations <= out.locations
    requires UniqueIds(out.mappings, MappingId) && UniqueIds(out.functions, FunctionId)
    requires UniqueIds(out.locations, LocationId)
    ensures CarriedOver(c, TablesOf(out), Kept(c))
  {
    NoZeroMapping(out);
    KeptStrings(c, out);
    hide Index, UniqueIds, TablesResolve, MappingCarried, FunctionCarried, LocationCarried, StringsCarried, Ids;
    forall i | 0 <= i < |c.mappings| ensures MappingCarried(TablesOf(out), Kept(c), c.mappings[i]) {
      MappingKept(c, out, i);
    }
    forall i | 0 <= i < |c.functions| ensures FunctionCarried(TablesOf(out), Kept(c), c.functions[i]) {
      FunctionKept(c, out, i);
    }
    forall i | 0 <= i < |c.locations| ensures LocationCarried(TablesOf(out), Kept(c), c.locations[i]) {
      LocationKept(c, out, i);
    }
  }

  lemma MergedUnique(b: Profile, c: Profile, out: Profile, t: NewIds)
    requires Merged(b, c, out, t)
    requires UniqueIds(c.mappings, MappingId) && UniqueIds(c.functions, FunctionId)
    requires UniqueIds(c.locations, LocationId)
    ensures UniqueIds(out.mappings, MappingId) && UniqueIds(out.functions, FunctionId)
    ensures UniqueIds(out.locations, LocationId)
  {
    hide UniqueIds, MaxId, Renumbering, StringsCarried;
    AppendedUnique(c.mappings, CarriedMappings(b.mappings, |b.mappings|, MaxId(c.mappings, MappingId), t.strings),
                   MappingId);
    AppendedUnique(c.functions, CarriedFunctions(b.functions, |b.functions|, MaxId(c.functions, FunctionId), t.strings),
                   FunctionId);
    AppendedUnique(c.locations,
      CarriedLocations(b.locations, |b.locations|, MaxId(c.locations, LocationId), t.mappings, t.functions),
        LocationId);
  }

  lemma CarriedMappingFound(p: Profile, y: Tables, t: NewIds, id: u64)
    requires CarriedOver(p, y, t) && id in Ids(p.mappings, MappingId)
    ensures id in t.mappings && t.mappings[id] in y.mappings
  {
    var i :| 0 <= i < |p.mappings| && MappingId(p.mappings[i]) == id;
    assert MappingCarried(y, t, p.mappings[i]);
  }

  lemma CarriedFunctionFound(p: Profile, y: Tables, t: NewIds, id: u64)
    requires CarriedOver(p, y, t) && id in Ids(p.functions, FunctionId)
    ensures id in t.functions && t.functions[id] in y.functions
  {
    var i :| 0 <= i < |p.functions| && FunctionId(p.functions[i]) == id;
    assert FunctionCarried(y, t, p.functions[i]);
  }

  /** The references of a carried location resolve where it goes. */
  lemma CarriedLocationResolves(p: Profile, y: Tables, t: NewIds, l: Location, id: u64)
    requires CarriedOver(p, y, t)
    requires LocationResolves(l, Ids(p.mappings, MappingId), Ids(p.functions, FunctionId))
    requires LocationCarries(l, t.mappings, t.functions)
    ensures LocationResolves(CarryLocation(l, id, t.mappings, t.functions), y.mappings.Keys, y.functions.Keys)
  {
    var k := CarryLocation(l, id, t.mappings, t.functions);
    if l.mappingId != 0 {
      CarriedMappingFound(p, y, t, l.mappingId);
    }
    hide Ids;
    forall i | 0 <= i < |k.lines| ensures k.lines[i].functionId in y.functions.Keys {
      assert l.lines[i] in l.lines;
      CarriedFunctionFound(p, y, t, l.lines[i].functionId);
    }
  }

  lemma AllResolve(p: Profile)
    requires p.strings.strings != [] && p.strings.strings[0] == []
    requires UniqueIds(p.mappings, MappingId) && UniqueIds(p.functions, FunctionId)
    requires UniqueIds(p.locations, LocationId)
    requires forall i :: 0 <= i < |p.mappings| ==> MappingStrings(p.mappings[i], |p.strings.strings|)
    requires forall i :: 0 <= i < |p.functions| ==> FunctionStrings(p.functions[i], |p.strings.strings|)
    requires forall i :: 0 <= i < |p.locations| ==>
      LocationResolves(p.locations[i], TablesOf(p).mappings.Keys, TablesOf(p).functions.Keys)
    requires forall i :: 0 <= i < |p.samples| ==>
      SampleResolves(p.samples[i], TablesOf(p).locations.Keys, |p.strings.strings|)
    ensures TablesResolve(p)
  {
    IndexFinds(p.mappings, MappingId);
    IndexFinds(p.functions, FunctionId);
    IndexFinds(p.locations, LocationId);
    hide Index, Ids, UniqueIds, LocationResolves, SampleResolves, MappingStrings, FunctionStrings;
  }

  /** The merged tables resolve, with any samples that do. */
  lemma MergedResolve(b: Profile, c: Profile, out: Profile, t: NewIds)
    requires Merged(b, c, out, t) && TablesResolve(b) && TablesResolve(c) && |c.strings.strings| <= I64_MAX
    requires UniqueIds(out.mappings, MappingId) && UniqueIds(out.functions, FunctionId)
    requires UniqueIds(out.locations, LocationId)
    requires CarriedOver(b, TablesOf(out), t) && CarriedOver(c, TablesOf(out), Kept(c))
    requires forall i :: 0 <= i < |out.samples| ==>
      SampleResolves(out.samples[i], TablesOf(out).locations.Keys, |out.strings.strings|)
    ensures TablesResolve(out)
  {
    assert out.strings.strings != [] && out.strings.strings[0] == [];
    hide TablesResolve, UniqueIds, Ids, Index, Merged, CarriedOver, MappingStrings, FunctionStrings, LocationResolves,
         SampleResolves, TablesOf;
    forall i | 0 <= i < |out.mappings| ensures MappingStrings(out.mappings[i], |out.strings.strings|) {
      MergedMappingStrings(b, c, out, t, i);
    }
    forall i | 0 <= i < |out.functions| ensures FunctionStrings(out.functions[i], |out.strings.strings|) {
      MergedFunctionStrings(b, c, out, t, i);
    }
    forall i | 0 <= i < |out.locations|
      ensures LocationResolves(out.locations[i], TablesOf(out).mappings.Keys, TablesOf(out).functions.Keys)
    {
      MergedLocationResolves(b, c, out, t, i);
    }
    AllResolve(out);
  }

  lemma MergedMappingStrings(b: Profile, c: Profile, out: Profile, t: NewIds, i: nat)
    requires Merged(b, c, out, t) && TablesResolve(c) && i < |out.mappings|
    ensures MappingStrings(out.mappings[i], |out.strings.strings|)
  {
    TablesUnique(c);
    hide MaxId, Renumbering, TablesResolve, UniqueIds, Ids;
    if i >= |c.mappings| {
      assert MappingStrings(b.mappings[i - |c.mappings|], |t.strings|);
    }
  }

  lemma MergedFunctionStrings(b: Profile, c: Profile, out: Profile, t: NewIds, i: nat)
    requires Merged(b, c, out, t) && TablesResolve(c) && i < |out.functions|
    ensures FunctionStrings(out.functions[i], |out.strings.strings|)
  {
    TablesUnique(c);
    hide MaxId, Renumbering, TablesResolve, UniqueIds, Ids;
    if i >= |c.functions| {
      assert FunctionStrings(b.functions[i - |c.functions|], |t.strings|);
    }
  }

  lemma KeptLocationResolves(c: Profile, y: Tables, i: nat)
    requires TablesResolve(c) && |c.strings.strings| <= I64_MAX && CarriedOver(c, y, Kept(c)) && i < |c.locations|
    ensures LocationResolves(c.locations[i], y.mappings.Keys, y.functions.Keys)
  {
    TablesUnique(c);
    var l := c.locations[i];
    assert LocationCarried(y, Kept(c), l);
    hide TablesResolve, CarriedOver, UniqueIds, Ids;
    CarriedLocationResolves(c, y, Kept(c), l, l.id);
    assert CarryLocation(l, l.id, Kept(c).mappings, Kept(c).functions).lines == l.lines;
  }

  lemma AddedLocationResolves(b: Profile, y: Tables, t: NewIds, i: nat, id: u64)
    requires TablesResolve(b) && CarriedOver(b, y, t) && i < |b.locations|
    requires LocationCarries(b.locations[i], t.mappings, t.functions)
    ensures LocationResolves(CarryLocation(b.locations[i], id, t.mappings, t.functions), y.mappings.Keys,
                             y.functions.Keys)
  {
    TablesUnique(b);
    hide TablesResolve, CarriedOver, UniqueIds, Ids, CarryLocation, LocationCarries;
    CarriedLocationResolves(b, y, t, b.locations[i], id);
  }

  lemma MergedLocationAt(b: Profile, c: Profile, out: Profile, t: NewIds, i: nat)
    requires Merged(b, c, out, t) && i < |out.locations|
    ensures i < |c.locations| ==> out.locations[i] == c.locations[i]
    ensures i >= |c.locations| ==>
      && i - |c.locations| < |b.locations|
      && LocationCarries(b.locations[i - |c.locations|], t.mappings, t.functions)
      && out.locations[i] == CarryLocation(b.locations[i - |c.locations|], out.locations[i].id, t.mappings, t.functions)
  {
    hide MaxId, Renumbering, StringsCarried;
  }

  lemma MergedLocationResolves(b: Profile, c: Profile, out: Profile, t: NewIds, i: nat)
    requires Merged(b, c, out, t) && TablesResolve(b) && TablesResolve(c) && |c.strings.strings| <= I64_MAX
    requires CarriedOver(b, TablesOf(out), t) && CarriedOver(c, TablesOf(out), Kept(c))
    requires i < |out.locations|
    ensures LocationResolves(out.locations[i], TablesOf(out).mappings.Keys, TablesOf(out).functions.Keys)
  {
    hide *;
    MergedLocationAt(b, c, out, t, i);
    if i < |c.locations| {
      KeptLocationResolves(c, TablesOf(out), i);
    } else {
      AddedLocationResolves(b, TablesOf(out), t, i - |c.locations|, out.locations[i].id);
    }
  }

  /** Every location of accepted tables can be carried over. */
  lemma AllLocationsCarry(items: seq<Location>, mappings: seq<Mapping>, functions: seq<Function>, firstMapping: u64,
                          firstFunction: u64)
    requires UniqueIds(mappings, MappingId) && UniqueIds(functions, FunctionId)
    requires firstMapping + |mappings| < U64_SIZE && firstFunction + |functions| < U64_SIZE
    requires forall k :: 0 <= k < |items| ==>
      LocationResolves(items[k], Ids(mappings, MappingId), Ids(functions, FunctionId))
    ensures forall k :: 0 <= k < |items| ==> LocationCarries(items[k],
      Renumbering(mappings, MappingId, |mappings|, firstMapping, NO_ID),
      Renumbering(functions, FunctionId, |functions|, firstFunction, NO_ID))
  {
    hide Ids, UniqueIds, Renumbering;
    RenumberingCovers(mappings, MappingId, firstMapping, NO_ID);
    RenumberingCovers(functions, FunctionId, firstFunction, NO_ID);
  }

  // ----- The tables of the output, entry by entry -----

  /** `n` is `m` under another id, with the same texts. */
  ghost predicate SameMapping(p: Profile, m: Mapping, q: Profile, n: Mapping) {
    && n == m.(id := n.id, filename := n.filename, buildId := n.buildId)
    && m.filename < |p.strings.strings| && n.filename < |q.strings.strings|
    && q.strings.strings[n.filename] == p.strings.strings[m.filename]
    && m.buildId < |p.strings.strings| && n.buildId < |q.strings.strings|
    && q.strings.strings[n.buildId] == p.strings.strings[m.buildId]
  }

  ghost predicate SameNames(p: Profile, f: Function, q: Profile, g: Function) {
    && g == f.(id := g.id, name := g.name, systemName := g.systemName, filename := g.filename)
    && f.name < |p.strings.strings| && g.name < |q.strings.strings|
    && q.strings.strings[g.name] == p.strings.strings[f.name]
    && f.systemName < |p.strings.strings| && g.systemName < |q.strings.strings|
    && q.strings.strings[g.systemName] == p.strings.strings[f.systemName]
    && f.filename < |p.strings.strings| && g.filename < |q.strings.strings|
    && q.strings.strings[g.filename] == p.strings.strings[f.filename]
  }

  /** `k` is the location `l` of `b`, whose image and functions are found behind those of `c`. */
  ghost predicate SameLocation(b: Profile, l: Location, c: Profile, out: Profile, k: Location)
    requires |out.mappings| == |c.mappings| + |b.mappings| && |out.functions| == |c.functions| + |b.functions|
  {
    && k == l.(id := k.id, mappingId := k.mappingId, lines := k.lines) && |k.lines| == |l.lines|
    && (l.mappingId == 0 ==> k.mappingId == 0)
    && (forall j :: 0 <= j < |b.mappings| && b.mappings[j].id == l.mappingId ==>
          k.mappingId == out.mappings[|c.mappings| + j].id)
    && (forall i :: 0 <= i < |l.lines| ==> k.lines[i] == l.lines[i].(functionId := k.lines[i].functionId))
    && (forall i, j :: 0 <= i < |l.lines| && 0 <= j < |b.functions| && b.functions[j].id == l.lines[i].functionId ==>
          k.lines[i].functionId == out.functions[|c.functions| + j].id)
  }

  // The largest ids in use; zero if there are none.
  function LargestMapping(p: Profile): (id: nat)
    ensures forall i :: 0 <= i < |p.mappings| ==> p.mappings[i].id <= id
    ensures id == 0 || exists i :: 0 <= i < |p.mappings| && p.mappings[i].id == id
  {
    MaxId(p.mappings, MappingId)
  }

  function LargestFunction(p: Profile): (id: nat)
    ensures forall i :: 0 <= i < |p.functions| ==> p.functions[i].id <= id
    ensures id == 0 || exists i :: 0 <= i < |p.functions| && p.functions[i].id == id
  {
    MaxId(p.functions, FunctionId)
  }

  function LargestLocation(p: Profile): (id: nat)
    ensures forall i :: 0 <= i < |p.locations| ==> p.locations[i].id <= id
    ensures id == 0 || exists i :: 0 <= i < |p.locations| && p.locations[i].id == id
  {
    MaxId(p.locations, LocationId)
  }

  ghost predicate MappingsJoined(b: Profile, c: Profile, out: Profile)
    requires |out.mappings| == |c.mappings| + |b.mappings|
  {
    forall i :: 0 <= i < |b.mappings| ==>
      && SameMapping(b, b.mappings[i], out, out.mappings[|c.mappings| + i])
      && out.mappings[|c.mappings| + i].id == LargestMapping(c) + i + 1
  }

  ghost predicate FunctionsJoined(b: Profile, c: Profile, out: Profile)
    requires |out.functions| == |c.functions| + |b.functions|
  {
    forall i :: 0 <= i < |b.functions| ==>
      && SameNames(b, b.functions[i], out, out.functions[|c.functions| + i])
      && out.functions[|c.functions| + i].id == LargestFunction(c) + i + 1
  }

  ghost predicate LocationsJoined(b: Profile, c: Profile, out: Profile)
    requires |out.mappings| == |c.mappings| + |b.mappings| && |out.functions| == |c.functions| + |b.functions|
    requires |out.locations| == |c.locations| + |b.locations|
  {
    forall i :: 0 <= i < |b.locations| ==>
      && SameLocation(b, b.locations[i], c, out, out.locations[|c.locations| + i])
      && out.locations[|c.locations| + i].id == LargestLocation(c) + i + 1
  }

  /** `out` has the entries of `c`, and after them those of `b` in their order, numbered on from the largest id. */
  ghost predicate Joined(b: Profile, c: Profile, out: Profile) {
    && c.strings.strings <= out.strings.strings
    && c.mappings <= out.mappings && |out.mappings| == |c.mappings| + |b.mappings|
    && c.functions <= out.functions && |out.functions| == |c.functions| + |b.functions|
    && c.locations <= out.locations && |out.locations| == |c.locations| + |b.locations|
    && MappingsJoined(b, c, out) && FunctionsJoined(b, c, out) && LocationsJoined(b, c, out)
  }

  lemma MappingJoins(b: Profile, c: Profile, out: Profile, t: NewIds, i: nat)
    requires Merged(b, c, out, t) && i < |b.mappings|
    ensures |out.mappings| == |c.mappings| + |b.mappings| && c.mappings <= out.mappings
    ensures SameMapping(b, b.mappings[i], out, out.mappings[|c.mappings| + i])
    ensures out.mappings[|c.mappings| + i].id == LargestMapping(c) + i + 1
  {
    hide Renumbering, MaxId, CarriedFunctions, CarriedLocations, LocationCarries;
    var added := CarriedMappings(b.mappings, |b.mappings|, MaxId(c.mappings, MappingId), t.strings);
    assert out.mappings[|c.mappings| + i] == added[i];
  }

  lemma FunctionJoins(b: Profile, c: Profile, out: Profile, t: NewIds, i: nat)
    requires Merged(b, c, out, t) && i < |b.functions|
    ensures |out.functions| == |c.functions| + |b.functions| && c.functions <= out.functions
    ensures SameNames(b, b.functions[i], out, out.functions[|c.functions| + i])
    ensures out.functions[|c.functions| + i].id == LargestFunction(c) + i + 1
  {
    hide Renumbering, MaxId, CarriedMappings, CarriedLocations, LocationCarries;
    var added := CarriedFunctions(b.functions, |b.functions|, MaxId(c.functions, FunctionId), t.strings);
    assert out.functions[|c.functions| + i] == added[i];
  }

  // Where the merge puts the ids of `b`.
  lemma MappingIdsPlaced(b: Profile, c: Profile, out: Profile, t: NewIds, j: nat)
    requires Merged(b, c, out, t) && UniqueIds(b.mappings, MappingId) && j < |b.mappings|
    ensures |out.mappings| == |c.mappings| + |b.mappings|
    ensures b.mappings[j].id in t.mappings && t.mappings[b.mappings[j].id] == out.mappings[|c.mappings| + j].id
  {
    hide Renumbering, MaxId, UniqueIds, CarriedMappings, CarriedFunctions, CarriedLocations, LocationCarries,
         StringsCarried;
    RenumberingCovers(b.mappings, MappingId, MaxId(c.mappings, MappingId), NO_ID);
    AddedMappings(b, c, out, t);
    assert MappingId(b.mappings[j]) == b.mappings[j].id;
    assert MappingId(out.mappings[|c.mappings| + j]) == out.mappings[|c.mappings| + j].id;
  }

  lemma FunctionIdsPlaced(b: Profile, c: Profile, out: Profile, t: NewIds, j: nat)
    requires Merged(b, c, out, t) && UniqueIds(b.functions, FunctionId) && j < |b.functions|
    ensures |out.functions| == |c.functions| + |b.functions|
    ensures b.functions[j].id in t.functions && t.functions[b.functions[j].id] == out.functions[|c.functions| + j].id
  {
    hide Renumbering, MaxId, UniqueIds, CarriedMappings, CarriedFunctions, CarriedLocations, LocationCarries,
         StringsCarried;
    RenumberingCovers(b.functions, FunctionId, MaxId(c.functions, FunctionId), NO_ID);
    AddedFunctions(b, c, out, t);
    assert FunctionId(b.functions[j]) == b.functions[j].id;
    assert FunctionId(out.functions[|c.functions| + j]) == out.functions[|c.functions| + j].id;
  }

  lemma NoIdPlaced(b: Profile, c: Profile, out: Profile, t: NewIds)
    requires Merged(b, c, out, t) && UniqueIds(b.mappings, MappingId)
    ensures 0 in t.mappings && t.mappings[0] == 0
  {
    hide Renumbering, MaxId, UniqueIds, CarriedMappings, CarriedFunctions, CarriedLocations, LocationCarries,
         StringsCarried;
    RenumberingCovers(b.mappings, MappingId, MaxId(c.mappings, MappingId), NO_ID);
  }

  lemma IdsPlaced(b: Profile, c: Profile, out: Profile, t: NewIds)
    requires Merged(b, c, out, t) && UniqueIds(b.mappings, MappingId) && UniqueIds(b.functions, FunctionId)
    ensures |out.mappings| == |c.mappings| + |b.mappings| && |out.functions| == |c.functions| + |b.functions|
    ensures 0 in t.mappings && t.mappings[0] == 0
    ensures forall j :: 0 <= j < |b.mappings| ==>
      b.mappings[j].id in t.mappings && t.mappings[b.mappings[j].id] == out.mappings[|c.mappings| + j].id
    ensures forall j :: 0 <= j < |b.functions| ==>
      b.functions[j].id in t.functions && t.functions[b.functions[j].id] == out.functions[|c.functions| + j].id
  {
    MergedLengths(b, c, out, t);
    NoIdPlaced(b, c, out, t);
    hide Merged, UniqueIds;
    forall j | 0 <= j < |b.mappings|
      ensures b.mappings[j].id in t.mappings && t.mappings[b.mappings[j].id] == out.mappings[|c.mappings| + j].id
    {
      MappingIdsPlaced(b, c, out, t, j);
    }
    forall j | 0 <= j < |b.functions|
      ensures b.functions[j].id in t.functions && t.functions[b.functions[j].id] == out.functions[|c.functions| + j].id
    {
      FunctionIdsPlaced(b, c, out, t, j);
    }
  }

  lemma LocationJoins(b: Profile, c: Profile, out: Profile, t: NewIds, i: nat)
    requires Merged(b, c, out, t) && UniqueIds(b.mappings, MappingId) && UniqueIds(b.functions, FunctionId)
    requires i < |b.locations|
    ensures |out.mappings| == |c.mappings| + |b.mappings| && |out.functions| == |c.functions| + |b.functions|
    ensures |out.locations| == |c.locations| + |b.locations| && c.locations <= out.locations
    ensures SameLocation(b, b.locations[i], c, out, out.locations[|c.locations| + i])
    ensures out.locations[|c.locations| + i].id == LargestLocation(c) + i + 1
  {
    hide Renumbering, MaxId, UniqueIds, CarriedMappings, CarriedFunctions, StringsCarried;
    IdsPlaced(b, c, out, t);
    var added := CarriedLocations(b.locations, |b.locations|, MaxId(c.locations, LocationId), t.mappings, t.functions);
    assert out.locations[|c.locations| + i] == added[i];
    assert LocationCarries(b.locations[i], t.mappings, t.functions);
    hide CarriedLocations, Merged;
  }

  lemma MergedJoins(b: Profile, c: Profile, out: Profile, t: NewIds)
    requires Merged(b, c, out, t) && TablesResolve(b)
    ensures Joined(b, c, out)
  {
    hide Merged, TablesResolve, MappingsJoined, FunctionsJoined, LocationsJoined;
    TablesUnique(b);
    MergedLengths(b, c, out, t);
    MappingsJoin(b, c, out, t);
    FunctionsJoin(b, c, out, t);
    LocationsJoin(b, c, out, t);
  }

  lemma MappingsJoin(b: Profile, c: Profile, out: Profile, t: NewIds)
    requires Merged(b, c, out, t)
    ensures |out.mappings| == |c.mappings| + |b.mappings| && MappingsJoined(b, c, out)
  {
    hide Merged, LargestMapping, LargestFunction, LargestLocation, SameMapping;
    MergedLengths(b, c, out, t);
    forall i | 0 <= i < |b.mappings|
      ensures SameMapping(b, b.mappings[i], out, out.mappings[|c.mappings| + i])
      ensures out.mappings[|c.mappings| + i].id == LargestMapping(c) + i + 1
    {
      MappingJoins(b, c, out, t, i);
    }
  }

  lemma FunctionsJoin(b: Profile, c: Profile, out: Profile, t: NewIds)
    requires Merged(b, c, out, t)
    ensures |out.functions| == |c.functions| + |b.functions| && FunctionsJoined(b, c, out)
  {
    hide Merged, LargestMapping, LargestFunction, LargestLocation, SameNames;
    MergedLengths(b, c, out, t);
    forall i | 0 <= i < |b.functions|
      ensures SameNames(b, b.functions[i], out, out.functions[|c.functions| + i])
      ensures out.functions[|c.functions| + i].id == LargestFunction(c) + i + 1
    {
      FunctionJoins(b, c, out, t, i);
    }
  }

  lemma LocationsJoin(b: Profile, c: Profile, out: Profile, t: NewIds)
    requires Merged(b, c, out, t) && UniqueIds(b.mappings, MappingId) && UniqueIds(b.functions, FunctionId)
    ensures |out.mappings| == |c.mappings| + |b.mappings| && |out.functions| == |c.functions| + |b.functions|
    ensures |out.locations| == |c.locations| + |b.locations| && LocationsJoined(b, c, out)
  {
    hide Merged, LargestMapping, LargestFunction, LargestLocation, UniqueIds, SameLocation;
    MergedLengths(b, c, out, t);
    forall i | 0 <= i < |b.locations|
      ensures SameLocation(b, b.locations[i], c, out, out.locations[|c.locations| + i])
      ensures out.locations[|c.locations| + i].id == LargestLocation(c) + i + 1
    {
      LocationJoins(b, c, out, t, i);
    }
  }

  lemma MergedLengths(b: Profile, c: Profile, out: Profile, t: NewIds)
    requires Merged(b, c, out, t)
    ensures c.strings.strings <= out.strings.strings
    ensures c.mappings <= out.mappings && |out.mappings| == |c.mappings| + |b.mappings|
    ensures c.functions <= out.functions && |out.functions| == |c.functions| + |b.functions|
    ensures c.locations <= out.locations && |out.locations| == |c.locations| + |b.locations|
  {
    hide Renumbering, MaxId, StringsCarried, LocationCarries, CarryLocation, CarryMapping, CarryFunction;
  }
}
