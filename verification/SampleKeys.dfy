/** The structural sample key of `src/heap/compare.rs`: what makes two samples of two profiles the same
    call path with the same labels, whatever their ids, string positions and load addresses.

    The source serialises the key to JSON text; here it is the serialised value itself.  The sorted list
    of labels is the multiset of its elements. */
module SampleKeys {
  import opened Prelude
  import opened Pprof
  import opened HeapValidation

  datatype LineKey = LineKey(name: Text, systemName: Text, filename: Text, startLine: i64, line: i64, column: i64)

  datatype FrameKey = FrameKey(binary: Text, address: u64, lines: seq<LineKey>)

  datatype LabelKey = LabelKey(key: Text, value: Text, num: i64, unit: Text)

  datatype SampleKey = SampleKey(stack: seq<FrameKey>, labels: multiset<LabelKey>)

  // ----- Lookup tables -----

  /** A `HashMap` collected from a table: the last entry with an id wins. */
  function Index<T>(items: seq<T>, id: T -> u64): map<u64, T> {
    if items == [] then map[]
    else Index(items[..|items| - 1], id)[id(items[|items| - 1]) := items[|items| - 1]]
  }

  lemma {:induction false} IndexFinds<T>(items: seq<T>, id: T -> u64)
    requires UniqueIds(items, id)
    ensures Index(items, id).Keys == Ids(items, id)
    ensures forall i :: 0 <= i < |items| ==>
      id(items[i]) in Index(items, id) && Index(items, id)[id(items[i])] == items[i]
  {
    if items != [] {
      var before, last := items[..|items| - 1], items[|items| - 1];
      IndexFinds(before, id);
      assert forall i :: 0 <= i < |before| ==> items[i] == before[i];
      assert Ids(items, id) == Ids(before, id) + {id(last)};
    }
  }

  // ----- Keys -----

  datatype Tables = Tables(strings: StringTable, locations: map<u64, Location>, functions: map<u64, Function>,
                           mappings: map<u64, Mapping>)

  function TablesOf(p: Profile): Tables {
    Tables(p.strings, Index(p.locations, LocationId), Index(p.functions, FunctionId), Index(p.mappings, MappingId))
  }

  const NO_FUNCTION: Function := Function(0, 0, 0, 0, 0)
  const NO_LOCATION: Location := Location(0, 0, 0, [], false)
  const UNKNOWN: Text := Ascii("[unknown]")

  predicate IsHex(name: Text) {
    |name| >= 2 && name[0] == 48 && name[1] == 120
  }

  // Names that are only an address do not tell frames apart.
  function Symbolic(name: Text): Text {
    if IsHex(name) then UNKNOWN else name
  }

  function FunctionAt(x: Tables, id: u64): Function {
    if id in x.functions then x.functions[id] else NO_FUNCTION
  }

  function LineKeyOf(x: Tables, line: Line): LineKey {
    var f := FunctionAt(x, line.functionId);
    LineKey(Symbolic(x.strings.Get(f.name)), Symbolic(x.strings.Get(f.systemName)), x.strings.Get(f.filename),
            f.startLine, line.line, line.column)
  }

  function Binary(x: Tables, l: Location): Text {
    if l.mappingId !in x.mappings then []
    else
      var m := x.mappings[l.mappingId];
      if m.buildId != 0 && x.strings.Get(m.buildId) != [] then x.strings.Get(m.buildId) else x.strings.Get(m.filename)
  }

  /** The location has no name of its own: only its address can identify it. */
  predicate Unsymbolicated(x: Tables, l: Location) {
    forall line :: line in l.lines ==> IsHex(x.strings.Get(FunctionAt(x, line.functionId).name))
  }

  // An address within its file: `saturating_sub`, then `saturating_add`.
  function FileAddress(address: u64, memoryStart: u64, fileOffset: u64): u64 {
    Min(Max(address - memoryStart, 0) + fileOffset, U64_SIZE - 1)
  }

  function AddressKey(x: Tables, l: Location): u64 {
    if !Unsymbolicated(x, l) then 0
    else if l.mappingId !in x.mappings then l.address
    else FileAddress(l.address, x.mappings[l.mappingId].memoryStart, x.mappings[l.mappingId].fileOffset)
  }

  function FrameKeyOf(x: Tables, l: Location): (k: FrameKey)
    ensures |k.lines| == |l.lines|
  {
    FrameKey(Binary(x, l), AddressKey(x, l),
             seq(|l.lines|, i requires 0 <= i < |l.lines| => LineKeyOf(x, l.lines[i])))
  }

  function LocationAt(x: Tables, id: u64): Location {
    if id in x.locations then x.locations[id] else NO_LOCATION
  }

  function FrameAt(x: Tables, id: u64): FrameKey {
    FrameKeyOf(x, LocationAt(x, id))
  }

  function LabelKeyOf(strings: StringTable, l: Label): LabelKey {
    LabelKey(strings.Get(l.key), strings.Get(l.strIndex), l.num, strings.Get(l.numUnit))
  }

  function StackKey(x: Tables, ids: seq<u64>): (stack: seq<FrameKey>)
    ensures |stack| == |ids|
  {
    seq(|ids|, i requires 0 <= i < |ids| => FrameAt(x, ids[i]))
  }

  function LabelKeys(strings: StringTable, labels: seq<Label>): (keys: seq<LabelKey>)
    ensures |keys| == |labels|
  {
    seq(|labels|, i requires 0 <= i < |labels| => LabelKeyOf(strings, labels[i]))
  }

  function Key(x: Tables, s: Sample): SampleKey {
    SampleKey(StackKey(x, s.locationIds), multiset(LabelKeys(x.strings, s.labels)))
  }

  // ----- Building a key -----

  predicate LineResolves(x: Tables, line: Line) {
    line.functionId in x.functions && FunctionStrings(x.functions[line.functionId], |x.strings.strings|)
  }

  predicate BinaryResolves(x: Tables, m: Mapping) {
    if m.buildId != 0 then m.buildId < |x.strings.strings|
      && (x.strings.Get(m.buildId) == [] ==> m.filename < |x.strings.strings|)
    else m.filename < |x.strings.strings|
  }

  predicate FrameResolves(x: Tables, id: u64) {
    && id in x.locations
    && (forall line :: line in x.locations[id].lines ==> LineResolves(x, line))
    && (x.locations[id].mappingId in x.mappings ==> BinaryResolves(x, x.mappings[x.locations[id].mappingId]))
  }

  predicate KeyResolves(x: Tables, s: Sample) {
    && (forall id :: id in s.locationIds ==> FrameResolves(x, id))
    && (forall l :: l in s.labels ==> LabelStrings(l, |x.strings.strings|))
  }

  // One frame: the lines are read, then the binary and address chosen, then the names of lines made symbolic.
  method FrameKeyFor(x: Tables, id: u64) returns (r: Option<FrameKey>)
    ensures r == if FrameResolves(x, id) then Some(FrameAt(x, id)) else None
  {
    if id !in x.locations {
      return None;
    }
    var l := x.locations[id];
    var lines: seq<LineKey> := [];
    var unsymbolicated := true;
    for i := 0 to |l.lines|
      invariant |lines| == i
      invariant forall j :: 0 <= j < i ==> LineResolves(x, l.lines[j])
      invariant forall j :: 0 <= j < i ==>
        var f := x.functions[l.lines[j].functionId];
        lines[j] == LineKey(x.strings.Get(f.name), x.strings.Get(f.systemName), x.strings.Get(f.filename), f.startLine,
                            l.lines[j].line, l.lines[j].column)
      invariant unsymbolicated <==> forall j :: 0 <= j < i ==> IsHex(lines[j].name)
    {
      var line := l.lines[i];
      if line.functionId !in x.functions {
        assert line in l.lines && !LineResolves(x, line);
        return None;
      }
      var f := x.functions[line.functionId];
      if !(f.name < |x.strings.strings| && f.systemName < |x.strings.strings| && f.filename < |x.strings.strings|) {
        assert line in l.lines && !LineResolves(x, line);
        return None;
      }
      var entry := LineKey(x.strings.Get(f.name), x.strings.Get(f.systemName), x.strings.Get(f.filename), f.startLine,
                           line.line, line.column);
      unsymbolicated := unsymbolicated && IsHex(entry.name);
      lines := lines + [entry];
    }
    var binary: Text, address: u64 := [], l.address;
    if l.mappingId in x.mappings {
      var m := x.mappings[l.mappingId];
      if !BinaryResolves(x, m) {
        return None;
      }
      binary := if m.buildId != 0 && x.strings.Get(m.buildId) != [] then x.strings.Get(m.buildId)
                else x.strings.Get(m.filename);
      address := FileAddress(l.address, m.memoryStart, m.fileOffset);
    }
    assert unsymbolicated <==> Unsymbolicated(x, l) by {
      assert forall j :: 0 <= j < |lines| ==>
        FunctionAt(x, l.lines[j].functionId) == x.functions[l.lines[j].functionId];
    }
    if !unsymbolicated {
      address := 0;
    }
    var symbolic := seq(|lines|, j requires 0 <= j < |lines| =>
      lines[j].(name := Symbolic(lines[j].name), systemName := Symbolic(lines[j].systemName)));
    assert symbolic == FrameKeyOf(x, l).lines;
    r := Some(FrameKey(binary, address, symbolic));
  }

  /** `sample_key`: fails exactly when a reference does not resolve. */
  method SampleKeyFor(x: Tables, s: Sample) returns (r: Option<SampleKey>)
    ensures r == if KeyResolves(x, s) then Some(Key(x, s)) else None
  {
    var stack: seq<FrameKey> := [];
    for i := 0 to |s.locationIds|
      invariant |stack| == i
      invariant forall j :: 0 <= j < i ==>
        FrameResolves(x, s.locationIds[j]) && stack[j] == FrameAt(x, s.locationIds[j])
    {
      var frame := FrameKeyFor(x, s.locationIds[i]);
      if frame.None? {
        return None;
      }
      stack := stack + [frame.value];
    }
    assert stack == StackKey(x, s.locationIds);
    var labels: multiset<LabelKey> := multiset{};
    for i := 0 to |s.labels|
      invariant forall j :: 0 <= j < i ==> LabelStrings(s.labels[j], |x.strings.strings|)
      invariant labels == multiset(LabelKeys(x.strings, s.labels)[..i])
    {
      if !LabelStrings(s.labels[i], |x.strings.strings|) {
        return None;
      }
      var keys := LabelKeys(x.strings, s.labels);
      assert keys[..i + 1] == keys[..i] + [keys[i]];
      labels := labels + multiset{LabelKeyOf(x.strings, s.labels[i])};
    }
    assert LabelKeys(x.strings, s.labels)[..|s.labels|] == LabelKeys(x.strings, s.labels);
    r := Some(SampleKey(stack, labels));
  }

  /** In an accepted profile every sample has a key. */
  lemma AcceptedKeysResolve(p: Profile, s: Sample)
    requires TablesResolve(p) && s in p.samples
    ensures KeyResolves(TablesOf(p), s)
  {
    IndexFinds(p.locations, LocationId);
    IndexFinds(p.functions, FunctionId);
    IndexFinds(p.mappings, MappingId);
    var x := TablesOf(p);
    assert SampleResolves(s, Ids(p.locations, LocationId), |p.strings.strings|);
    forall id | id in s.locationIds ensures FrameResolves(x, id) {
      AcceptedFrameResolves(p, id);
    }
  }

  lemma AcceptedFrameResolves(p: Profile, id: u64)
    requires TablesResolve(p) && id in Ids(p.locations, LocationId)
    ensures FrameResolves(TablesOf(p), id)
  {
    IndexFinds(p.locations, LocationId);
    IndexFinds(p.functions, FunctionId);
    IndexFinds(p.mappings, MappingId);
    var x := TablesOf(p);
    var l :| l in p.locations && l.id == id;
    assert LocationResolves(l, Ids(p.mappings, MappingId), Ids(p.functions, FunctionId));
    forall line | line in l.lines ensures LineResolves(x, line) {
      var f :| f in p.functions && f.id == line.functionId;
      assert FunctionStrings(f, |p.strings.strings|);
    }
    if l.mappingId in x.mappings {
      var m :| m in p.mappings && m.id == l.mappingId;
      assert MappingStrings(m, |p.strings.strings|);
    }
  }

  // ----- When two samples have one key, from the tables alone -----

  /** The name is only an address. */
  ghost predicate AddressName(name: Text) {
    Ascii("0x") <= name
  }

  // A frame without a symbol also meets one that is really called so.
  ghost predicate NamesMeet(a: Text, b: Text) {
    || a == b
    || (AddressName(a) && (AddressName(b) || b == Ascii("[unknown]")))
    || (AddressName(b) && a == Ascii("[unknown]"))
  }

  ghost predicate LinesMeet(x: Tables, a: Line, y: Tables, b: Line)
    requires LineResolves(x, a) && LineResolves(y, b)
  {
    var f, g := x.functions[a.functionId], y.functions[b.functionId];
    && NamesMeet(x.strings.strings[f.name], y.strings.strings[g.name])
    && NamesMeet(x.strings.strings[f.systemName], y.strings.strings[g.systemName])
    && x.strings.strings[f.filename] == y.strings.strings[g.filename]
    && f.startLine == g.startLine && a.line == b.line && a.column == b.column
  }

  ghost predicate HasBuildId(x: Tables, m: Mapping)
    requires BinaryResolves(x, m)
  {
    m.buildId != 0 && x.strings.strings[m.buildId] != []
  }

  /** Two images are one exactly if their build ids are equal, or, where neither has one, their file names; a
      build id also meets an image without one that is named like it. */
  ghost predicate ImagesMeet(x: Tables, m: Mapping, y: Tables, n: Mapping)
    requires BinaryResolves(x, m) && BinaryResolves(y, n)
  {
    if HasBuildId(x, m) && HasBuildId(y, n) then x.strings.strings[m.buildId] == y.strings.strings[n.buildId]
    else if HasBuildId(x, m) then x.strings.strings[m.buildId] == y.strings.strings[n.filename]
    else if HasBuildId(y, n) then x.strings.strings[m.filename] == y.strings.strings[n.buildId]
    else x.strings.strings[m.filename] == y.strings.strings[n.filename]
  }

  // An image that a frame without one meets: it has no build id and no name.
  ghost predicate Anonymous(x: Tables, m: Mapping)
    requires BinaryResolves(x, m)
  {
    !HasBuildId(x, m) && x.strings.strings[m.filename] == []
  }

  ghost predicate BinariesMeet(x: Tables, l: Location, y: Tables, k: Location)
    requires LocationReads(x, l) && LocationReads(y, k)
  {
    if l.mappingId in x.mappings && k.mappingId in y.mappings then
      ImagesMeet(x, x.mappings[l.mappingId], y, y.mappings[k.mappingId])
    else if l.mappingId in x.mappings then Anonymous(x, x.mappings[l.mappingId])
    else k.mappingId in y.mappings ==> Anonymous(y, y.mappings[k.mappingId])
  }

  /** None of the location's lines has a name that is more than an address. */
  ghost predicate Nameless(x: Tables, l: Location)
    requires LocationReads(x, l)
  {
    forall i :: 0 <= i < |l.lines| ==> AddressName(x.strings.strings[x.functions[l.lines[i].functionId].name])
  }

  // Where in its file an address lies, in unbounded numbers; below its image it is taken for the image's start.
  ghost function Place(x: Tables, l: Location): int {
    if l.mappingId !in x.mappings then l.address
    else
      var m := x.mappings[l.mappingId];
      if l.address < m.memoryStart then m.fileOffset else l.address - m.memoryStart + m.fileOffset
  }

  /** Only frames without any symbol are told apart by their place in the file, as far as it fits 64 bits; the
      place of any other frame counts as zero. */
  ghost predicate PlacesMeet(x: Tables, l: Location, y: Tables, k: Location)
    requires LocationReads(x, l) && LocationReads(y, k)
  {
    if Nameless(x, l) && Nameless(y, k) then
      Place(x, l) == Place(y, k) || (Place(x, l) >= U64_SIZE - 1 && Place(y, k) >= U64_SIZE - 1)
    else if Nameless(x, l) then Place(x, l) == 0
    else Nameless(y, k) ==> Place(y, k) == 0
  }

  // Every reference that a frame's key reads can be followed.
  ghost predicate LocationReads(x: Tables, l: Location) {
    && (forall i :: 0 <= i < |l.lines| ==> LineResolves(x, l.lines[i]))
    && (l.mappingId in x.mappings ==> BinaryResolves(x, x.mappings[l.mappingId]))
  }

  ghost predicate LocationsMeet(x: Tables, l: Location, y: Tables, k: Location)
    requires LocationReads(x, l) && LocationReads(y, k)
  {
    && BinariesMeet(x, l, y, k) && PlacesMeet(x, l, y, k) && |l.lines| == |k.lines|
    && (forall i :: 0 <= i < |l.lines| ==> LinesMeet(x, l.lines[i], y, k.lines[i]))
  }

  // Key, value, number and unit of each label.
  ghost function LabelTexts(x: Tables, labels: seq<Label>): (texts: seq<(Text, Text, i64, Text)>)
    requires forall i :: 0 <= i < |labels| ==> LabelStrings(labels[i], |x.strings.strings|)
    ensures |texts| == |labels|
  {
    var strings := x.strings.strings;
    seq(|labels|, i requires 0 <= i < |labels| && LabelStrings(labels[i], |strings|) =>
      (strings[labels[i].key], strings[labels[i].strIndex], labels[i].num, strings[labels[i].numUnit]))
  }

  /** Frame by frame the same binary, the same lines up to names that are only addresses, and for a frame without
      any symbol the same place in the file; and the same labels in any order. */
  ghost predicate SamplesMeet(x: Tables, s: Sample, y: Tables, t: Sample)
    requires KeyResolves(x, s) && KeyResolves(y, t)
  {
    && |s.locationIds| == |t.locationIds|
    && (forall i :: 0 <= i < |s.locationIds| ==>
          (assert s.locationIds[i] in s.locationIds && t.locationIds[i] in t.locationIds;
           LocationsMeet(x, x.locations[s.locationIds[i]], y, y.locations[t.locationIds[i]])))
    && multiset(LabelTexts(x, s.labels)) == multiset(LabelTexts(y, t.labels))
  }

  lemma HexNames(name: Text)
    ensures IsHex(name) <==> AddressName(name)
  {
    var prefix := Ascii("0x");
    if AddressName(name) {
      assert name[0] == prefix[0] && name[1] == prefix[1];
    }
    if IsHex(name) {
      assert name[..2] == prefix;
    }
  }

  lemma SymbolsMeet(a: Text, b: Text)
    ensures Symbolic(a) == Symbolic(b) <==> NamesMeet(a, b)
  {
    hide AddressName;
    HexNames(a);
    HexNames(b);
    assert UNKNOWN[0] == 91;
  }

  lemma LineKeysMeet(x: Tables, a: Line, y: Tables, b: Line)
    requires LineResolves(x, a) && LineResolves(y, b)
    ensures LineKeyOf(x, a) == LineKeyOf(y, b) <==> LinesMeet(x, a, y, b)
  {
    hide Symbolic, NamesMeet;
    var f, g := x.functions[a.functionId], y.functions[b.functionId];
    SymbolsMeet(x.strings.strings[f.name], y.strings.strings[g.name]);
    SymbolsMeet(x.strings.strings[f.systemName], y.strings.strings[g.systemName]);
  }

  lemma BinaryKeysMeet(x: Tables, l: Location, y: Tables, k: Location)
    requires LocationReads(x, l) && LocationReads(y, k)
    ensures Binary(x, l) == Binary(y, k) <==> BinariesMeet(x, l, y, k)
  {
    hide LineResolves;
  }

  lemma NamelessFrames(x: Tables, l: Location)
    requires LocationReads(x, l)
    ensures Unsymbolicated(x, l) <==> Nameless(x, l)
  {
    hide IsHex, AddressName, BinaryResolves;
    forall i | 0 <= i < |l.lines|
      ensures LineResolves(x, l.lines[i])
      ensures var name := x.strings.strings[x.functions[l.lines[i].functionId].name];
        && x.strings.Get(FunctionAt(x, l.lines[i].functionId).name) == name
        && (IsHex(name) <==> AddressName(name))
    {
      assert LineResolves(x, l.lines[i]);
      HexNames(x.strings.strings[x.functions[l.lines[i].functionId].name]);
    }
  }

  lemma AddressKeysMeet(x: Tables, l: Location, y: Tables, k: Location)
    requires LocationReads(x, l) && LocationReads(y, k)
    ensures AddressKey(x, l) == AddressKey(y, k) <==> PlacesMeet(x, l, y, k)
  {
    hide Unsymbolicated, Nameless, LocationReads;
    NamelessFrames(x, l);
    NamelessFrames(y, k);
  }

  lemma FrameKeysMeet(x: Tables, l: Location, y: Tables, k: Location)
    requires LocationReads(x, l) && LocationReads(y, k)
    ensures FrameKeyOf(x, l) == FrameKeyOf(y, k) <==> LocationsMeet(x, l, y, k)
  {
    hide LineKeyOf, LinesMeet, LineResolves, Binary, BinaryResolves, BinariesMeet, AddressKey, PlacesMeet;
    BinaryKeysMeet(x, l, y, k);
    AddressKeysMeet(x, l, y, k);
    forall i | 0 <= i < |l.lines| && i < |k.lines|
      ensures FrameKeyOf(x, l).lines[i] == FrameKeyOf(y, k).lines[i] <==> LinesMeet(x, l.lines[i], y, k.lines[i])
    {
      LineKeysMeet(x, l.lines[i], y, k.lines[i]);
    }
    if LocationsMeet(x, l, y, k) {
      assert FrameKeyOf(x, l).lines == FrameKeyOf(y, k).lines;
    }
  }

  lemma FrameKeysAt(x: Tables, a: u64, y: Tables, b: u64)
    requires FrameResolves(x, a) && FrameResolves(y, b)
    ensures LocationReads(x, x.locations[a]) && LocationReads(y, y.locations[b])
    ensures FrameAt(x, a) == FrameAt(y, b) <==> LocationsMeet(x, x.locations[a], y, y.locations[b])
  {
    hide LineResolves, BinaryResolves, LocationsMeet, FrameKeyOf;
    FrameKeysMeet(x, x.locations[a], y, y.locations[b]);
  }

  lemma StackKeysMeet(x: Tables, s: seq<u64>, y: Tables, t: seq<u64>)
    requires forall id :: id in s ==> FrameResolves(x, id)
    requires forall id :: id in t ==> FrameResolves(y, id)
    ensures StackKey(x, s) == StackKey(y, t) <==>
      && |s| == |t|
      && forall i :: 0 <= i < |s| ==>
           FrameResolves(x, s[i]) && FrameResolves(y, t[i])
           && LocationsMeet(x, x.locations[s[i]], y, y.locations[t[i]])
  {
    hide FrameAt, LocationsMeet;
    var a, b := StackKey(x, s), StackKey(y, t);
    forall i | 0 <= i < |a| && i < |b|
      ensures FrameResolves(x, s[i]) && FrameResolves(y, t[i])
      ensures a[i] == b[i] <==> LocationsMeet(x, x.locations[s[i]], y, y.locations[t[i]])
    {
      FrameKeysAt(x, s[i], y, t[i]);
    }
    if |a| == |b| && forall i :: 0 <= i < |a| ==> a[i] == b[i] {
      assert a == b;
    }
  }

  // The label keys are the texts, one by one, so they are equal as multisets exactly if the texts are.
  lemma {:induction false} LabelCounts(x: Tables, labels: seq<Label>, k: LabelKey)
    requires forall l :: l in labels ==> LabelStrings(l, |x.strings.strings|)
    ensures multiset(LabelKeys(x.strings, labels))[k]
         == multiset(LabelTexts(x, labels))[(k.key, k.value, k.num, k.unit)]
    decreases |labels|
  {
    var keys, texts := LabelKeys(x.strings, labels), LabelTexts(x, labels);
    if labels == [] {
      assert keys == [] && texts == [];
    } else {
      var n := |labels| - 1;
      var before, last := labels[..n], labels[n];
      LabelCounts(x, before, k);
      assert last in labels && LabelStrings(last, |x.strings.strings|);
      assert keys == LabelKeys(x.strings, before) + [LabelKeyOf(x.strings, last)];
      assert texts == LabelTexts(x, before) + [texts[n]];
    }
  }

  lemma LabelsMeet(x: Tables, a: seq<Label>, y: Tables, b: seq<Label>)
    requires forall l :: l in a ==> LabelStrings(l, |x.strings.strings|)
    requires forall l :: l in b ==> LabelStrings(l, |y.strings.strings|)
    ensures multiset(LabelKeys(x.strings, a)) == multiset(LabelKeys(y.strings, b)) <==>
      multiset(LabelTexts(x, a)) == multiset(LabelTexts(y, b))
  {
    hide LabelStrings, LabelKeys, LabelTexts;
    var ka, kb := multiset(LabelKeys(x.strings, a)), multiset(LabelKeys(y.strings, b));
    var ta, tb := multiset(LabelTexts(x, a)), multiset(LabelTexts(y, b));
    if ta == tb {
      forall k ensures ka[k] == kb[k] {
        LabelCounts(x, a, k);
        LabelCounts(y, b, k);
      }
    }
    if ka == kb {
      forall t: (Text, Text, i64, Text) ensures ta[t] == tb[t] {
        LabelCounts(x, a, LabelKey(t.0, t.1, t.2, t.3));
        LabelCounts(y, b, LabelKey(t.0, t.1, t.2, t.3));
      }
    }
  }

  /** Two samples that have keys have one key exactly if they meet. */
  lemma KeysMeet(x: Tables, s: Sample, y: Tables, t: Sample)
    requires KeyResolves(x, s) && KeyResolves(y, t)
    ensures Key(x, s) == Key(y, t) <==> SamplesMeet(x, s, y, t)
  {
    hide FrameResolves, LocationsMeet, LabelKeys, LabelTexts, StackKey, LabelStrings;
    StackKeysMeet(x, s.locationIds, y, t.locationIds);
    LabelsMeet(x, s.labels, y, t.labels);
  }

  // ----- Relocation -----

  ghost predicate SameName(a: Text, b: Text) {
    a == b || (IsHex(a) && IsHex(b))
  }

  ghost predicate SameFunction(x: Tables, y: Tables, f: Function, g: Function) {
    && SameName(x.strings.Get(f.name), y.strings.Get(g.name))
    && SameName(x.strings.Get(f.systemName), y.strings.Get(g.systemName))
    && x.strings.Get(f.filename) == y.strings.Get(g.filename)
    && f.startLine == g.startLine
  }

  // The same image, loaded `delta` further up.
  ghost predicate MovedMapping(x: Tables, y: Tables, m: Mapping, n: Mapping, delta: int) {
    && n.memoryStart == m.memoryStart + delta && n.fileOffset == m.fileOffset
    && x.strings.Get(m.filename) == y.strings.Get(n.filename)
    && (m.buildId == 0 <==> n.buildId == 0) && x.strings.Get(m.buildId) == y.strings.Get(n.buildId)
  }

  ghost predicate MovedLocation(x: Tables, y: Tables, l: Location, k: Location, delta: map<u64, int>) {
    && k.lines == l.lines && k.mappingId == l.mappingId
    && (forall line :: line in l.lines ==> line.functionId in x.functions)
    && (if l.mappingId in delta then k.address == l.address + delta[l.mappingId]
        else Unsymbolicated(x, l) ==> k.address == l.address)
  }

  /** `y` is `x` from another run: each image at another address, its locations moved along, and frames
      without a symbol named after their new addresses. */
  ghost predicate Relocated(x: Tables, y: Tables, delta: map<u64, int>) {
    && x.locations.Keys == y.locations.Keys
    && x.functions.Keys == y.functions.Keys
    && x.mappings.Keys == y.mappings.Keys == delta.Keys
    && (forall id :: id in x.functions ==> SameFunction(x, y, x.functions[id], y.functions[id]))
    && (forall id :: id in x.mappings ==> MovedMapping(x, y, x.mappings[id], y.mappings[id], delta[id]))
    && (forall id :: id in x.locations ==> MovedLocation(x, y, x.locations[id], y.locations[id], delta))
  }

  lemma RelocatedLine(x: Tables, y: Tables, line: Line)
    requires line.functionId in x.functions && line.functionId in y.functions
    requires SameFunction(x, y, x.functions[line.functionId], y.functions[line.functionId])
    ensures LineKeyOf(x, line) == LineKeyOf(y, line)
    ensures IsHex(x.strings.Get(FunctionAt(x, line.functionId).name)) <==>
      IsHex(y.strings.Get(FunctionAt(y, line.functionId).name))
  {
  }

  lemma RelocatedAddress(x: Tables, y: Tables, l: Location, k: Location, delta: map<u64, int>)
    requires x.mappings.Keys == y.mappings.Keys == delta.Keys
    requires l.mappingId in x.mappings ==>
      MovedMapping(x, y, x.mappings[l.mappingId], y.mappings[l.mappingId], delta[l.mappingId])
    requires MovedLocation(x, y, l, k, delta)
    requires Unsymbolicated(x, l) <==> Unsymbolicated(y, k)
    ensures AddressKey(x, l) == AddressKey(y, k) && Binary(x, l) == Binary(y, k)
  {
    hide Unsymbolicated;
  }

  lemma RelocatedFrame(x: Tables, y: Tables, delta: map<u64, int>, id: u64)
    requires Relocated(x, y, delta) && id in x.locations
    ensures FrameAt(x, id) == FrameAt(y, id)
  {
    hide LineKeyOf, FunctionAt, AddressKey, Binary, SameFunction, MovedMapping;
    var l, k := x.locations[id], y.locations[id];
    assert MovedLocation(x, y, l, k, delta);
    forall line | line in l.lines
      ensures LineKeyOf(x, line) == LineKeyOf(y, line)
      ensures IsHex(x.strings.Get(FunctionAt(x, line.functionId).name)) <==>
        IsHex(y.strings.Get(FunctionAt(y, line.functionId).name))
    {
      RelocatedLine(x, y, line);
    }
    RelocatedAddress(x, y, l, k, delta);
    assert FrameKeyOf(x, l).lines == FrameKeyOf(y, k).lines;
  }

  /** Relocation leaves every key unchanged. */
  lemma RelocationKeepsKeys(x: Tables, y: Tables, delta: map<u64, int>, s: Sample, t: Sample)
    requires Relocated(x, y, delta)
    requires t.locationIds == s.locationIds && forall id :: id in s.locationIds ==> id in x.locations
    requires LabelKeys(x.strings, s.labels) == LabelKeys(y.strings, t.labels)
    ensures Key(x, s) == Key(y, t)
  {
    forall i | 0 <= i < |s.locationIds| ensures StackKey(x, s.locationIds)[i] == StackKey(y, t.locationIds)[i] {
      RelocatedFrame(x, y, delta, s.locationIds[i]);
    }
  }
}
