/** What a profile means to `LiveProfileAccumulator.swift`, entry by entry: which table entry an id leads to, which
    lines and locations are skipped, and where every text stands.  This is one description for incoming profiles and
    for the accumulated one, and it leaves a sample exactly one meaning. */
module LiveMeaning {
  import opened Prelude
  import opened LiveAccumulator

  // ----- Which entry an id leads to -----

  // The last mapping and the last location with an id, the first function.
  ghost predicate LastMapping(d: DecodedProfile, id: nat, i: nat) {
    i < |d.mappings| && d.mappings[i].id == id && forall j :: i < j < |d.mappings| ==> d.mappings[j].id != id
  }

  ghost predicate LastLocation(d: DecodedProfile, id: nat, i: nat) {
    i < |d.locations| && d.locations[i].id == id && forall j :: i < j < |d.locations| ==> d.locations[j].id != id
  }

  ghost predicate FirstFunction(d: DecodedProfile, id: nat, i: nat) {
    i < |d.functions| && d.functions[i].id == id && forall j :: 0 <= j < i ==> d.functions[j].id != id
  }

  ghost predicate HasMapping(d: DecodedProfile, id: nat) {
    exists i: nat :: LastMapping(d, id, i)
  }

  ghost predicate HasLocation(d: DecodedProfile, id: nat) {
    exists i: nat :: LastLocation(d, id, i)
  }

  ghost predicate HasFunction(d: DecodedProfile, id: nat) {
    exists i: nat :: FirstFunction(d, id, i)
  }

  // ----- Meanings -----

  // A position past the end reads as no text.
  ghost predicate TextIs(d: DecodedProfile, id: nat, t: Text) {
    if id < |d.stringTable| then t == d.stringTable[id] else t == []
  }

  // Of a label, position zero means no text, whatever stands there.
  ghost predicate OptionalIs(d: DecodedProfile, id: nat, t: Text) {
    if id == 0 then t == [] else TextIs(d, id, t)
  }

  ghost predicate MappingMeans(d: DecodedProfile, m: ProfMapping, k: MappingKey) {
    && TextIs(d, m.buildId, k.buildId) && TextIs(d, m.filename, k.filename)
    && k.memoryStart == m.memoryStart && k.memoryLimit == m.memoryLimit && k.fileOffset == m.fileOffset
  }

  ghost predicate FunctionMeans(d: DecodedProfile, f: ProfFunction, k: FunctionKey) {
    && TextIs(d, f.name, k.name) && TextIs(d, f.systemName, k.systemName) && TextIs(d, f.filename, k.filename)
    && k.startLine == f.startLine
  }

  ghost predicate LineMeans(d: DecodedProfile, l: ProfLine, m: LineMeaning) {
    && m.line == l.line && m.column == l.column
    && exists i: nat :: FirstFunction(d, l.functionId, i) && FunctionMeans(d, d.functions[i], m.symbol)
  }

  ghost predicate Rises(at: seq<nat>) {
    forall k, m :: 0 <= k < m < |at| ==> at[k] < at[m]
  }

  // The lines that have a function, in their order.
  ghost predicate LinesMean(d: DecodedProfile, lines: seq<ProfLine>, meanings: seq<LineMeaning>, at: seq<nat>) {
    && Rises(at) && |at| == |meanings|
    && (forall j: nat :: j in at <==> j < |lines| && HasFunction(d, lines[j].functionId))
    && (forall k :: 0 <= k < |at| ==> at[k] < |lines| && LineMeans(d, lines[at[k]], meanings[k]))
  }

  ghost predicate ImageMeans(d: DecodedProfile, id: nat, m: Option<MappingKey>) {
    match m
    case None => !HasMapping(d, id)
    case Some(k) => exists i: nat :: LastMapping(d, id, i) && MappingMeans(d, d.mappings[i], k)
  }

  ghost predicate LocationMeans(d: DecodedProfile, l: ProfLocation, m: LocationMeaning) {
    && m.address == l.address && m.isFolded == l.isFolded && ImageMeans(d, l.mappingId, m.mapping)
    && exists at :: LinesMean(d, l.lines, m.lines, at)
  }

  ghost predicate IdMeans(d: DecodedProfile, id: nat, m: LocationMeaning) {
    exists i: nat :: LastLocation(d, id, i) && LocationMeans(d, d.locations[i], m)
  }

  // The locations that are there, in their order.
  ghost predicate StackMeans(d: DecodedProfile, ids: seq<nat>, stack: seq<LocationMeaning>, at: seq<nat>) {
    && Rises(at) && |at| == |stack|
    && (forall j: nat :: j in at <==> j < |ids| && HasLocation(d, ids[j]))
    && (forall k :: 0 <= k < |at| ==> at[k] < |ids| && IdMeans(d, ids[at[k]], stack[k]))
  }

  ghost predicate LabelMeans(d: DecodedProfile, l: ProfLabel, m: LabelMeaning) {
    TextIs(d, l.key, m.key) && OptionalIs(d, l.str, m.str) && m.num == l.num && OptionalIs(d, l.numUnit, m.numUnit)
  }

  /** What a sample means. */
  ghost predicate SampleMeans(d: DecodedProfile, s: ProfSample, m: SampleMeaning) {
    && (exists at :: StackMeans(d, s.locationIds, m.stack, at))
    && |m.labels| == |s.labels| && forall i :: 0 <= i < |s.labels| ==> LabelMeans(d, s.labels[i], m.labels[i])
  }

  // ----- Incoming profiles -----

  lemma {:induction false} MappingFound(d: DecodedProfile, n: nat, id: nat)
    requires n <= |d.mappings|
    ensures var table := IncomingMappings(d, n);
      if id in table then
        exists i: nat :: i < n && d.mappings[i].id == id && (forall j :: i < j < n ==> d.mappings[j].id != id)
                    && table[id] == MappingKeyOf(d.stringTable, d.mappings[i])
      else forall i :: 0 <= i < n ==> d.mappings[i].id != id
    decreases n
  {
    hide MappingKeyOf;
    if n > 0 {
      MappingFound(d, n - 1, id);
      if d.mappings[n - 1].id == id {
        assert IncomingMappings(d, n)[id] == MappingKeyOf(d.stringTable, d.mappings[n - 1]);
      }
    }
  }

  lemma {:induction false} FunctionFound(d: DecodedProfile, n: nat, id: nat)
    requires n <= |d.functions|
    ensures var table := IncomingFunctions(d, n);
      if id in table then
        exists i: nat :: i < n && FirstFunction(d, id, i) && table[id] == d.functions[i]
      else forall i :: 0 <= i < n ==> d.functions[i].id != id
    decreases n
  {
    if n > 0 {
      FunctionFound(d, n - 1, id);
      var before := IncomingFunctions(d, n - 1);
      if id in before {
        var i: nat :| i < n - 1 && FirstFunction(d, id, i) && before[id] == d.functions[i];
        assert IncomingFunctions(d, n)[id] == d.functions[i];
      } else if d.functions[n - 1].id == id {
        assert FirstFunction(d, id, n - 1) && IncomingFunctions(d, n)[id] == d.functions[n - 1];
      }
    }
  }

  lemma {:induction false} LocationFound(d: DecodedProfile, n: nat, id: nat)
    requires n <= |d.locations|
    ensures var table := IncomingLocations(d, n);
      if id in table then
        exists i: nat :: i < n && d.locations[i].id == id && (forall j :: i < j < n ==> d.locations[j].id != id)
                    && table[id] == IncomingLocation(d, d.locations[i])
      else forall i :: 0 <= i < n ==> d.locations[i].id != id
    decreases n
  {
    hide IncomingLocation;
    if n > 0 {
      LocationFound(d, n - 1, id);
      if d.locations[n - 1].id == id {
        assert IncomingLocations(d, n)[id] == IncomingLocation(d, d.locations[n - 1]);
      }
    }
  }

  lemma ImageIsMeant(d: DecodedProfile, l: ProfLocation)
    ensures ImageMeans(d, l.mappingId, IncomingLocation(d, l).mapping)
  {
    MappingFound(d, |d.mappings|, l.mappingId);
    hide IncomingMappings, IncomingFunctions, LineMeanings;
    var table := IncomingMappings(d, |d.mappings|);
    if l.mappingId in table {
      var i: nat :| i < |d.mappings| && d.mappings[i].id == l.mappingId
        && (forall j :: i < j < |d.mappings| ==> d.mappings[j].id != l.mappingId)
        && table[l.mappingId] == MappingKeyOf(d.stringTable, d.mappings[i]);
      assert LastMapping(d, l.mappingId, i) && MappingMeans(d, d.mappings[i], table[l.mappingId]);
    }
  }

  lemma LineIsMeant(d: DecodedProfile, l: ProfLine)
    ensures l.functionId in IncomingFunctions(d, |d.functions|) <==> HasFunction(d, l.functionId)
    ensures l.functionId in IncomingFunctions(d, |d.functions|) ==>
      LineMeans(d, l, LineMeaning(FunctionKeyOf(d.stringTable, IncomingFunctions(d, |d.functions|)[l.functionId]),
                                  l.line, l.column))
  {
    FunctionFound(d, |d.functions|, l.functionId);
    hide IncomingFunctions;
    var table := IncomingFunctions(d, |d.functions|);
    if l.functionId in table {
      var i: nat :| i < |d.functions| && FirstFunction(d, l.functionId, i) && table[l.functionId] == d.functions[i];
      assert FunctionMeans(d, d.functions[i], FunctionKeyOf(d.stringTable, d.functions[i]));
    }
  }

  lemma {:induction false} LinesAreMeant(d: DecodedProfile, lines: seq<ProfLine>, n: nat) returns (at: seq<nat>)
    requires n <= |lines|
    ensures LinesMean(d, lines[..n], LineMeanings(d, lines, n), at)
    decreases n
  {
    hide LineMeans, HasFunction, IncomingFunctions, FunctionKeyOf;
    if n == 0 {
      at := [];
    } else {
      var before := LinesAreMeant(d, lines, n - 1);
      LineIsMeant(d, lines[n - 1]);
      var here: seq<nat> := if HasFunction(d, lines[n - 1].functionId) then [n - 1] else [];
      at := before + here;
      forall k | 0 <= k < |before|
        ensures at[k] < n && LineMeans(d, lines[..n][at[k]], LineMeanings(d, lines, n)[k])
      {
        assert lines[..n - 1][before[k]] == lines[..n][before[k]];
      }
      forall j: nat ensures j in at <==> j < n && HasFunction(d, lines[..n][j].functionId) {
        assert j in at <==> j in before || j in here;
        assert j < n - 1 ==> lines[..n - 1][j] == lines[..n][j];
      }
    }
  }

  lemma LocationIsMeant(d: DecodedProfile, l: ProfLocation)
    ensures LocationMeans(d, l, IncomingLocation(d, l))
  {
    hide ImageMeans, LinesMean, IncomingMappings, IncomingFunctions, LineMeanings;
    ImageIsMeant(d, l);
    var at := LinesAreMeant(d, l.lines, |l.lines|);
    assert l.lines[..|l.lines|] == l.lines;
  }

  lemma IdIsMeant(d: DecodedProfile, id: nat)
    ensures id in IncomingLocations(d, |d.locations|) <==> HasLocation(d, id)
    ensures id in IncomingLocations(d, |d.locations|) ==> IdMeans(d, id, IncomingLocations(d, |d.locations|)[id])
  {
    hide LocationMeans, IncomingLocation;
    LocationFound(d, |d.locations|, id);
    hide IncomingLocations;
    var table := IncomingLocations(d, |d.locations|);
    if id in table {
      var i: nat :| i < |d.locations| && d.locations[i].id == id
        && (forall j :: i < j < |d.locations| ==> d.locations[j].id != id)
        && table[id] == IncomingLocation(d, d.locations[i]);
      assert LastLocation(d, id, i);
      LocationIsMeant(d, d.locations[i]);
    }
  }

  lemma StackMeansNext(d: DecodedProfile, ids: seq<nat>, n: nat, stack: seq<LocationMeaning>, at: seq<nat>,
                       next: seq<LocationMeaning>)
    requires n < |ids| && StackMeans(d, ids[..n], stack, at)
    requires if HasLocation(d, ids[n]) then |next| == 1 && IdMeans(d, ids[n], next[0]) else next == []
    ensures StackMeans(d, ids[..n + 1], stack + next, at + if HasLocation(d, ids[n]) then [n] else [])
  {
    hide IdMeans, HasLocation;
    var here: seq<nat> := if HasLocation(d, ids[n]) then [n] else [];
    forall k | 0 <= k < |at| ensures at[k] < n && IdMeans(d, ids[..n + 1][at[k]], stack[k]) {
      assert ids[..n][at[k]] == ids[..n + 1][at[k]];
    }
    forall j: nat ensures j in at + here <==> j < n + 1 && HasLocation(d, ids[..n + 1][j]) {
      assert j in at + here <==> j in at || j in here;
      assert j < n ==> ids[..n][j] == ids[..n + 1][j];
    }
  }

  lemma {:induction false} StackIsMeant(d: DecodedProfile, ids: seq<nat>, n: nat) returns (at: seq<nat>)
    requires n <= |ids|
    ensures StackMeans(d, ids[..n], Known(ids, IncomingLocations(d, |d.locations|), n), at)
    decreases n
  {
    hide IdMeans, HasLocation, IncomingLocations;
    if n == 0 {
      at := [];
    } else {
      var before := StackIsMeant(d, ids, n - 1);
      IdIsMeant(d, ids[n - 1]);
      hide StackMeans;
      var table := IncomingLocations(d, |d.locations|);
      var next := if ids[n - 1] in table then [table[ids[n - 1]]] else [];
      StackMeansNext(d, ids, n - 1, Known(ids, table, n - 1), before, next);
      at := before + if HasLocation(d, ids[n - 1]) then [n - 1] else [];
      assert Known(ids, table, n) == Known(ids, table, n - 1) + next;
    }
  }

  lemma LabelIsMeant(d: DecodedProfile, l: ProfLabel)
    ensures LabelMeans(d, l, LabelMeaningOf(d.stringTable, l))
  {
  }

  /** What the merge takes an incoming sample for, is what it means. */
  lemma IncomingMeans(d: DecodedProfile, s: ProfSample)
    ensures SampleMeans(d, s, IncomingSample(d, s))
  {
    hide StackMeans, LabelMeans, LabelMeaningOf, Known, IncomingLocations;
    var at := StackIsMeant(d, s.locationIds, |s.locationIds|);
    assert s.locationIds[..|s.locationIds|] == s.locationIds;
    forall i | 0 <= i < |s.labels| ensures LabelMeans(d, s.labels[i], IncomingSample(d, s).labels[i]) {
      LabelIsMeant(d, s.labels[i]);
    }
  }

  // ----- The accumulated profile -----

  function Upto(n: nat): (at: seq<nat>)
    ensures |at| == n && forall i :: 0 <= i < n ==> at[i] == i
  {
    seq(n, i => i)
  }

  lemma LineStands(t: Tables, l: ProfLine)
    requires FunctionsValid(t) && 1 <= l.functionId <= |t.profile.functions|
    ensures HasFunction(t.profile, l.functionId)
    ensures LineMeans(t.profile, l, LineMeaning(FunctionMeaning(t.profile, l.functionId), l.line, l.column))
  {
    hide Inverse;
    var p, i := t.profile, l.functionId - 1;
    assert FunctionOk(p, i);
    forall j | 0 <= j < i ensures p.functions[j].id != l.functionId {
      assert FunctionOk(p, j);
    }
    assert FirstFunction(p, l.functionId, i);
    assert FunctionMeans(p, p.functions[i], FunctionKeyOf(p.stringTable, p.functions[i]));
  }

  lemma ImageStands(t: Tables, id: nat)
    requires MappingsValid(t) && id <= |t.profile.mappings|
    ensures ImageMeans(t.profile, id, MappingMeaning(t.profile, id))
  {
    hide Inverse;
    var p := t.profile;
    forall j | 0 <= j < |p.mappings| ensures p.mappings[j].id == j + 1 {
      assert MappingOk(p, j);
    }
    if id > 0 {
      assert LastMapping(p, id, id - 1);
      assert MappingMeans(p, p.mappings[id - 1], MappingKeyOf(p.stringTable, p.mappings[id - 1]));
    }
  }

  lemma LocationStands(t: Tables, id: nat)
    requires MappingsValid(t) && FunctionsValid(t) && LocationsValid(t) && 1 <= id <= |t.profile.locations|
    ensures HasLocation(t.profile, id) && IdMeans(t.profile, id, LocationMeaningAt(t.profile, id))
  {
    hide Inverse, MappingsValid, FunctionsValid, FunctionMeaning, MappingMeaning, LineMeans, HasFunction, ImageMeans;
    var p := t.profile;
    var l := p.locations[id - 1];
    forall j | 0 <= j < |p.locations| ensures p.locations[j].id == j + 1 {
      assert LocationOk(p, j);
    }
    assert LocationOk(p, id - 1);
    ImageStands(t, l.mappingId);
    var lines := LinesMeaning(p, l.lines);
    forall k | 0 <= k < |l.lines| ensures HasFunction(p, l.lines[k].functionId) && LineMeans(p, l.lines[k], lines[k]) {
      LineStands(t, l.lines[k]);
    }
    var at := Upto(|l.lines|);
    forall j: nat ensures j in at <==> j < |l.lines| && HasFunction(p, l.lines[j].functionId) {
      assert j < |l.lines| ==> at[j] == j;
    }
    assert LinesMean(p, l.lines, lines, at);
    hide LinesMean;
    assert LocationMeans(p, l, LocationMeaningAt(p, id));
    assert LastLocation(p, id, id - 1);
  }

  /** What an accumulated sample stands for, is what it means when the accumulated profile is read. */
  lemma AccumulatedMeans(t: Tables, i: nat)
    requires Valid(t) && i < |t.profile.samples|
    ensures SampleMeans(t.profile, t.profile.samples[i], SampleMeaningOf(t.profile, SampleKeyOf(t.profile.samples[i])))
  {
    hide StringsSound, MappingsValid, FunctionsValid, LocationsValid, Inverse, LabelOk, LocationMeaningAt, HasLocation,
         IdMeans, LabelMeans, LabelMeaningOf;
    var p, s := t.profile, t.profile.samples[i];
    var m := SampleMeaningOf(p, SampleKeyOf(s));
    assert SampleKeyOk(p, SampleKeyOf(s));
    forall k | 0 <= k < |s.locationIds|
      ensures HasLocation(p, s.locationIds[k]) && IdMeans(p, s.locationIds[k], m.stack[k])
    {
      LocationStands(t, s.locationIds[k]);
    }
    var at := Upto(|s.locationIds|);
    forall j: nat ensures j in at <==> j < |s.locationIds| && HasLocation(p, s.locationIds[j]) {
      assert j < |s.locationIds| ==> at[j] == j;
    }
    assert StackMeans(p, s.locationIds, m.stack, at);
    hide StackMeans;
    forall k | 0 <= k < |s.labels| ensures LabelMeans(p, s.labels[k], m.labels[k]) {
      LabelIsMeant(p, s.labels[k]);
    }
  }

  // ----- One meaning -----

  lemma {:induction false} SameRise(a: seq<nat>, b: seq<nat>)
    requires Rises(a) && Rises(b) && forall i :: i in a <==> i in b
    ensures a == b
    decreases |a|
  {
    var last := if b == [] then 0 else b[|b| - 1];
    assert b != [] ==> last in b;
    if a != [] {
      var n := |a| - 1;
      assert a[n] in a;
      AtMostLast(a, last);
      AtMostLast(b, a[n]);
      assert a[n] == last;
      forall i ensures i in a[..n] <==> i in b[..|b| - 1] {
        WithoutLast(a, i);
        WithoutLast(b, i);
      }
      SameRise(a[..n], b[..|b| - 1]);
      assert a == a[..n] + [a[n]] && b == b[..|b| - 1] + [last];
    }
  }

  lemma AtMostLast(a: seq<nat>, i: nat)
    requires Rises(a) && i in a
    ensures a != [] && i <= a[|a| - 1]
  {
    var k :| 0 <= k < |a| && a[k] == i;
  }

  lemma WithoutLast(a: seq<nat>, i: nat)
    requires Rises(a) && a != []
    ensures i in a[..|a| - 1] <==> i in a && i != a[|a| - 1]
  {
    if i in a && i != a[|a| - 1] {
      var k :| 0 <= k < |a| && a[k] == i;
      assert a[..|a| - 1][k] == i;
    }
  }

  lemma SameLine(d: DecodedProfile, l: ProfLine, m: LineMeaning, n: LineMeaning)
    requires LineMeans(d, l, m) && LineMeans(d, l, n)
    ensures m == n
  {
  }

  lemma SameImage(d: DecodedProfile, id: nat, m: Option<MappingKey>, n: Option<MappingKey>)
    requires ImageMeans(d, id, m) && ImageMeans(d, id, n)
    ensures m == n
  {
  }

  lemma SameLines(d: DecodedProfile, lines: seq<ProfLine>, m: seq<LineMeaning>, at: seq<nat>, n: seq<LineMeaning>,
                  where: seq<nat>)
    requires LinesMean(d, lines, m, at) && LinesMean(d, lines, n, where)
    ensures m == n
  {
    hide LineMeans, HasFunction;
    SameRise(at, where);
    forall k | 0 <= k < |at| ensures m[k] == n[k] {
      SameLine(d, lines[at[k]], m[k], n[k]);
    }
  }

  lemma SameLocation(d: DecodedProfile, l: ProfLocation, m: LocationMeaning, n: LocationMeaning)
    requires LocationMeans(d, l, m) && LocationMeans(d, l, n)
    ensures m == n
  {
    hide ImageMeans, LinesMean;
    SameImage(d, l.mappingId, m.mapping, n.mapping);
    var at :| LinesMean(d, l.lines, m.lines, at);
    var where :| LinesMean(d, l.lines, n.lines, where);
    SameLines(d, l.lines, m.lines, at, n.lines, where);
  }

  lemma SameId(d: DecodedProfile, id: nat, m: LocationMeaning, n: LocationMeaning)
    requires IdMeans(d, id, m) && IdMeans(d, id, n)
    ensures m == n
  {
    hide LocationMeans;
    var i: nat :| LastLocation(d, id, i) && LocationMeans(d, d.locations[i], m);
    var j: nat :| LastLocation(d, id, j) && LocationMeans(d, d.locations[j], n);
    assert i == j;
    SameLocation(d, d.locations[i], m, n);
  }

  /** A sample has one meaning, so that these tables decide which samples are merged into one. */
  lemma MeaningIsUnique(d: DecodedProfile, s: ProfSample, m: SampleMeaning, n: SampleMeaning)
    requires SampleMeans(d, s, m) && SampleMeans(d, s, n)
    ensures m == n
  {
    hide IdMeans, HasLocation;
    var at :| StackMeans(d, s.locationIds, m.stack, at);
    var where :| StackMeans(d, s.locationIds, n.stack, where);
    SameRise(at, where);
    forall k | 0 <= k < |at| ensures m.stack[k] == n.stack[k] {
      SameId(d, s.locationIds[at[k]], m.stack[k], n.stack[k]);
    }
    forall i | 0 <= i < |s.labels| ensures m.labels[i] == n.labels[i] {
      assert LabelMeans(d, s.labels[i], m.labels[i]) && LabelMeans(d, s.labels[i], n.labels[i]);
    }
  }

  // ----- The merge in these terms -----

  ghost predicate MeantAt(d: DecodedProfile, j: nat, m: SampleMeaning) {
    j < |d.samples| && SampleMeans(d, d.samples[j], m)
  }

  /** What the first `n` samples of a profile add up to in the `i`-th value, counting those that mean `m`. */
  ghost function MeantSum(d: DecodedProfile, m: SampleMeaning, i: nat, n: nat): int
    requires n <= |d.samples|
  {
    if n == 0 then 0
    else
      var s := d.samples[n - 1];
      MeantSum(d, m, i, n - 1) + if SampleMeans(d, s, m) && i < |s.values| then s.values[i] else 0
  }

  lemma {:induction false} IncomingSum(d: DecodedProfile, m: SampleMeaning, i: nat, n: nat)
    requires n <= |d.samples|
    ensures SumOf(IncomingEntries(d)[..n], m, i) == MeantSum(d, m, i, n)
    decreases n
  {
    hide SampleMeans, IncomingSample;
    if n > 0 {
      IncomingSum(d, m, i, n - 1);
      assert IncomingEntries(d)[..n] == IncomingEntries(d)[..n - 1] + [IncomingEntries(d)[n - 1]];
      SumAppend(IncomingEntries(d)[..n - 1], IncomingEntries(d)[n - 1], m, i);
      var s := d.samples[n - 1];
      IncomingMeans(d, s);
      if SampleMeans(d, s, m) {
        MeaningIsUnique(d, s, m, IncomingSample(d, s));
      }
    }
  }

  lemma {:induction false} AccumulatedSum(t: Tables, m: SampleMeaning, i: nat, n: nat)
    requires Valid(t) && n <= |t.profile.samples|
    ensures SumOf(EntriesOf(t.profile)[..n], m, i) == MeantSum(t.profile, m, i, n)
    decreases n
  {
    hide SampleMeans, SampleMeaningOf, Valid;
    if n > 0 {
      AccumulatedSum(t, m, i, n - 1);
      var entries := EntriesOf(t.profile);
      assert entries[..n] == entries[..n - 1] + [entries[n - 1]];
      SumAppend(entries[..n - 1], entries[n - 1], m, i);
      var s := t.profile.samples[n - 1];
      AccumulatedMeans(t, n - 1);
      if SampleMeans(t.profile, s, m) {
        MeaningIsUnique(t.profile, s, m, entries[n - 1].0);
      }
    }
  }

  /** A merge by the tables alone: for every meaning, the accumulated profile has what it had and what the incoming
      profile has of it; and no two of its samples mean the same. */
  lemma MergeByMeaning(t: Tables, u: Tables, d: DecodedProfile, m: SampleMeaning, i: nat)
    requires Valid(t) && Valid(u)
    requires AddsAll(EntriesOf(t.profile), EntriesOf(u.profile), IncomingEntries(d))
    ensures MeantSum(u.profile, m, i, |u.profile.samples|)
         == MeantSum(t.profile, m, i, |t.profile.samples|) + MeantSum(d, m, i, |d.samples|)
    ensures forall j, k :: MeantAt(u.profile, j, m) && MeantAt(u.profile, k, m) ==> j == k
  {
    hide Valid, SampleMeans, SampleMeaningOf, IncomingEntries, EntriesOf, SumOf, MeantSum;
    AccumulatedSum(t, m, i, |t.profile.samples|);
    AccumulatedSum(u, m, i, |u.profile.samples|);
    IncomingSum(d, m, i, |d.samples|);
    assert EntriesOf(t.profile)[..|t.profile.samples|] == EntriesOf(t.profile);
    assert EntriesOf(u.profile)[..|u.profile.samples|] == EntriesOf(u.profile);
    assert IncomingEntries(d)[..|d.samples|] == IncomingEntries(d);
    forall j, k | MeantAt(u.profile, j, m) && MeantAt(u.profile, k, m) ensures j == k {
      NotTwice(u, j, k, m);
    }
  }

  lemma NotTwice(u: Tables, j: nat, k: nat, m: SampleMeaning)
    requires Valid(u) && MeantAt(u.profile, j, m) && MeantAt(u.profile, k, m)
    ensures j == k
  {
    hide Valid, SampleMeans, SampleMeaningOf;
    AccumulatedMeans(u, j);
    AccumulatedMeans(u, k);
    MeaningIsUnique(u.profile, u.profile.samples[j], m, SampleMeaningOf(u.profile, SampleKeyOf(u.profile.samples[j])));
    MeaningIsUnique(u.profile, u.profile.samples[k], m, SampleMeaningOf(u.profile, SampleKeyOf(u.profile.samples[k])));
    SamplesDiffer(u, j, k);
  }

  // ----- The header -----

  ghost predicate TypeIs(d: DecodedProfile, t: ProfType, m: (Text, Text)) {
    TextIs(d, t.typ, m.0) && TextIs(d, t.unit, m.1)
  }

  /** What a header says, field by field. */
  ghost predicate HeaderMeans(d: DecodedProfile, h: HeaderMeaning) {
    && |h.sampleTypes| == |d.sampleTypes|
    && (forall i :: 0 <= i < |d.sampleTypes| ==> TypeIs(d, d.sampleTypes[i], h.sampleTypes[i]))
    && (match d.periodType
        case None => h.periodType == None
        case Some(t) => h.periodType.Some? && TypeIs(d, t, h.periodType.value))
    && OptionalIs(d, d.defaultSampleType, h.defaultSampleType)
    && |h.comments| == |d.comments| && (forall i :: 0 <= i < |d.comments| ==> TextIs(d, d.comments[i], h.comments[i]))
    && OptionalIs(d, d.dropFrames, h.dropFrames) && OptionalIs(d, d.keepFrames, h.keepFrames)
    && OptionalIs(d, d.docUrl, h.docUrl)
    && h.period == d.period && h.timeNanos == d.timeNanos && h.durationNanos == d.durationNanos
  }

  lemma HeaderIsMeant(d: DecodedProfile)
    ensures HeaderMeans(d, HeaderOf(d))
  {
  }

  // The header after some merges into a new accumulator.
  function MergedHeader(headers: seq<HeaderMeaning>): HeaderMeaning {
    if headers == [] then EMPTY_HEADER
    else HeaderAfter(MergedHeader(headers[..|headers| - 1]), headers[|headers| - 1])
  }

  /** Over any merges: the header is that of the first profile that has sample types, the duration the largest of
      all that are not negative. */
  lemma {:induction false} FirstHeaderStays(headers: seq<HeaderMeaning>, i: nat)
    requires i < |headers| && headers[i].sampleTypes != []
    requires forall j :: 0 <= j < i ==> headers[j].sampleTypes == []
    ensures var h, m := headers[i], MergedHeader(headers);
      && m.sampleTypes == h.sampleTypes && m.defaultSampleType == h.defaultSampleType && m.comments == h.comments
      && m.dropFrames == h.dropFrames && m.keepFrames == h.keepFrames && m.docUrl == h.docUrl
      && m.period == h.period && m.timeNanos == h.timeNanos
      && (h.periodType.Some? ==> m.periodType == h.periodType)
    decreases |headers|
  {
    var n := |headers| - 1;
    if i < n {
      FirstHeaderStays(headers[..n], i);
    } else {
      NoTypes(headers[..n]);
    }
  }

  lemma {:induction false} NoTypes(headers: seq<HeaderMeaning>)
    requires forall j :: 0 <= j < |headers| ==> headers[j].sampleTypes == []
    ensures MergedHeader(headers).sampleTypes == []
    decreases |headers|
  {
    if headers != [] {
      NoTypes(headers[..|headers| - 1]);
    }
  }

  lemma {:induction false} LongestDuration(headers: seq<HeaderMeaning>)
    ensures var longest := MergedHeader(headers).durationNanos;
      && longest >= 0 && (forall i :: 0 <= i < |headers| ==> headers[i].durationNanos <= longest)
      && (longest == 0 || exists i :: 0 <= i < |headers| && headers[i].durationNanos == longest)
    decreases |headers|
  {
    if headers != [] {
      LongestDuration(headers[..|headers| - 1]);
    }
  }
}
