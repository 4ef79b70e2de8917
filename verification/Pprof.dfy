/** The canonical pprof model of `src/pprof.rs`: the profile's messages and its string table. */
module Pprof {
  import opened Prelude

  datatype ValueType = ValueType(typ: u64, unit: u64)

  datatype Line = Line(functionId: u64, line: i64, column: i64)

  datatype Location = Location(id: u64, mappingId: u64, address: u64, lines: seq<Line>, isFolded: bool)

  datatype Mapping = Mapping(id: u64, memoryStart: u64, memoryLimit: u64, fileOffset: u64, filename: u64,
                             buildId: u64, hasFunctions: bool, hasFilenames: bool, hasLineNumbers: bool,
                             hasInlineFrames: bool)

  datatype Function = Function(id: u64, name: u64, systemName: u64, filename: u64, startLine: i64)

  datatype Label = Label(key: u64, strIndex: u64, num: i64, numUnit: u64)

  datatype Sample = Sample(locationIds: seq<u64>, values: seq<i64>, labels: seq<Label>)

  datatype Profile = Profile(
    strings: StringTable,
    valueTypes: seq<ValueType>,
    samples: seq<Sample>,
    mappings: seq<Mapping>,
    locations: seq<Location>,
    functions: seq<Function>,
    timeNanos: i64,
    durationNanos: i64,
    periodType: ValueType,
    period: i64,
    dropFrames: u64,
    keepFrames: u64,
    comments: seq<u64>,
    defaultSampleType: u64,
    docUrl: u64)

  const NO_STRINGS: StringTable := StringTable([], map[])
  const NO_TYPE: ValueType := ValueType(0, 0)
  const EMPTY_PROFILE: Profile :=
    Profile(NO_STRINGS, [], [], [], [], [], 0, 0, NO_TYPE, 0, 0, 0, [], 0, 0)

  /** Strings and a lookup cache.  A profile is cloned and compared as a value, so the table is one too.
      The source holds the positions as `u64`; a `Vec` is too short for that to lose anything. */
  datatype StringTable = StringTable(strings: seq<Text>, indices: map<Text, nat>) {

    // The cache never points at a wrong string.
    ghost predicate Sound() {
      forall s :: s in indices ==> indices[s] < |strings| && strings[indices[s]] == s
    }

    function Get(id: u64): Text {
      if id < |strings| then strings[id] else []
    }

    /** `intern`: the index of `s`, which is appended if the cache does not know it. */
    function Intern(s: Text): (r: (StringTable, nat))
      ensures strings <= r.0.strings && |r.0.strings| <= |strings| + 1
      ensures Sound() ==> r.0.Sound() && r.1 < |r.0.strings| && r.0.strings[r.1] == s
    {
      if s in indices then (this, indices[s])
      else
        (StringTable(strings + [s], indices[s := |strings|]), |strings|)
    }

    /** A cache that knows every string by its first occurrence stays one. */
    lemma InternKeepsFirst(s: Text)
      ensures indices == FirstIndices(strings) ==> Intern(s).0.indices == FirstIndices(Intern(s).0.strings)
    {
      FirstIndicesAppend(strings, s);
    }
  }

  /** `StringTable::new`. */
  const NEW_STRINGS: StringTable := StringTable([[]], map[[] := 0])

  /** The cache that knows every string by its first occurrence. */
  function FirstIndices(strings: seq<Text>): (m: map<Text, nat>)
    ensures forall s :: s in m <==> s in strings
    ensures forall s :: s in m ==>
      m[s] < |strings| && strings[m[s]] == s && forall j :: 0 <= j < m[s] ==> strings[j] != s
  {
    if strings == [] then map[]
    else
      var n := |strings| - 1;
      var m := FirstIndices(strings[..n]);
      assert strings == strings[..n] + [strings[n]];
      if strings[n] in m then m else m[strings[n] := n]
  }

  lemma FirstIndicesAppend(strings: seq<Text>, s: Text)
    ensures s !in strings ==> FirstIndices(strings + [s]) == FirstIndices(strings)[s := |strings|]
  {
    assert (strings + [s])[..|strings|] == strings;
  }

  /** `from_strings`: position 0 must hold the empty string. */
  method FromStrings(strings: seq<Text>) returns (r: Option<StringTable>)
    ensures r == if strings != [] && strings[0] == [] then Some(StringTable(strings, FirstIndices(strings))) else None
  {
    if strings == [] || strings[0] != [] {
      return None;
    }
    var indices: map<Text, nat> := map[];
    for index := 0 to |strings|
      invariant indices == FirstIndices(strings[..index])
    {
      assert strings[..index + 1][..index] == strings[..index];
      if strings[index] !in indices {
        indices := indices[strings[index] := index];
      }
    }
    assert strings[..|strings|] == strings;
    r := Some(StringTable(strings, indices));
  }
}
