/** `convertProfile` of `ProfileConverter.swift` as a whole: which samples count and for how much, what
    their frames are, the trie they build, and the flat list that is drawn.

    Sums do not saturate here: the app stops when one leaves int64, and `TrieFits` says when that is. */
module FlameGraph {
  import opened Prelude
  import opened CallTree
  import opened TreeViews
  import Live = LiveAccumulator
  import Meaning = LiveMeaning

  // ----- Selection -----

  datatype Selection = Selection(index: int, negative: bool, keeps: Live.ProfSample -> bool)

  /** The sample has a value of the wanted sign, and the filters keep it. */
  predicate Selects(pick: Selection, s: Live.ProfSample) {
    && 0 <= pick.index < |s.values|
    && (if pick.negative then s.values[pick.index] < 0 else s.values[pick.index] > 0)
    && pick.keeps(s)
  }

  // The least int64 has no positive counterpart; it counts for the greatest.
  function Magnitude(v: i64): (m: i64)
    ensures m >= 0 && (v != I64_MIN ==> m == Abs(v))
  {
    if v == I64_MIN then I64_MAX else Abs(v)
  }

  // ----- Frames -----

  // The first location with an id counts.
  function LocationsById(d: Live.DecodedProfile, n: nat): map<nat, Live.ProfLocation>
    requires n <= |d.locations|
  {
    if n == 0 then map[]
    else
      var before, l := LocationsById(d, n - 1), d.locations[n - 1];
      if l.id in before then before else before[l.id := l]
  }

  // The names of a location's lines, in their order; a line without a function is skipped.
  function LineNames(d: Live.DecodedProfile, lines: seq<Live.ProfLine>): seq<Text> {
    if lines == [] then []
    else
      var functions, last := Live.IncomingFunctions(d, |d.functions|), lines[|lines| - 1];
      LineNames(d, lines[..|lines| - 1])
      + if last.functionId in functions then [Live.StringAt(d.stringTable, functions[last.functionId].name)] else []
  }

  /** The path of a sample: its locations from the last to the first. */
  function PathOf(d: Live.DecodedProfile, ids: seq<nat>): seq<Text> {
    if ids == [] then []
    else
      var locations := LocationsById(d, |d.locations|);
      PathOf(d, ids[1..]) + if ids[0] in locations then LineNames(d, locations[ids[0]].lines) else []
  }

  /** The stacks of the selected samples, in order. */
  function SelectedStacks(d: Live.DecodedProfile, pick: Selection, n: nat): seq<Stack<Text>>
    requires n <= |d.samples|
  {
    if n == 0 then []
    else
      var before, s := SelectedStacks(d, pick, n - 1), d.samples[n - 1];
      if Selects(pick, s) then before + [Stack(PathOf(d, s.locationIds), Magnitude(s.values[pick.index]))] else before
  }

  method IndexTables(d: Live.DecodedProfile)
      returns (functions: map<nat, Live.ProfFunction>, locations: map<nat, Live.ProfLocation>)
    ensures functions == Live.IncomingFunctions(d, |d.functions|) && locations == LocationsById(d, |d.locations|)
  {
    functions, locations := map[], map[];
    for i := 0 to |d.functions|
      invariant functions == Live.IncomingFunctions(d, i)
    {
      if d.functions[i].id !in functions {
        functions := functions[d.functions[i].id := d.functions[i]];
      }
    }
    for i := 0 to |d.locations|
      invariant locations == LocationsById(d, i)
    {
      if d.locations[i].id !in locations {
        locations := locations[d.locations[i].id := d.locations[i]];
      }
    }
  }

  method AppendLines(d: Live.DecodedProfile, functions: map<nat, Live.ProfFunction>, lines: seq<Live.ProfLine>,
                     before: seq<Text>)
      returns (frames: seq<Text>)
    requires functions == Live.IncomingFunctions(d, |d.functions|)
    ensures frames == before + LineNames(d, lines)
  {
    frames := before;
    for i := 0 to |lines|
      invariant frames == before + LineNames(d, lines[..i])
    {
      assert lines[..i + 1][..i] == lines[..i];
      if lines[i].functionId in functions {
        frames := frames + [Live.StringAt(d.stringTable, functions[lines[i].functionId].name)];
      }
    }
    assert lines[..|lines|] == lines;
  }

  method ResolvePath(d: Live.DecodedProfile, functions: map<nat, Live.ProfFunction>,
                     locations: map<nat, Live.ProfLocation>,
                     ids: seq<nat>) returns (frames: seq<Text>)
    requires functions == Live.IncomingFunctions(d, |d.functions|) && locations == LocationsById(d, |d.locations|)
    ensures frames == PathOf(d, ids) && IsPathOf(d, ids, frames)
  {
    PathIsPath(d, ids);
    hide IsPathOf;
    frames := [];
    for i := |ids| downto 0
      invariant frames == PathOf(d, ids[i..])
    {
      assert ids[i..][1..] == ids[i + 1..];
      if ids[i] in locations {
        frames := AppendLines(d, functions, locations[ids[i]].lines, frames);
      }
    }
    assert ids[0..] == ids;
  }

  method SelectStacks(d: Live.DecodedProfile, pick: Selection) returns (stacks: seq<Stack<Text>>)
    ensures stacks == SelectedStacks(d, pick, |d.samples|)
    ensures exists from :: Chosen(d, pick, |d.samples|, stacks, from)
  {
    ghost var from := StacksAreChosen(d, pick, |d.samples|);
    hide Chosen;
    var functions, locations := IndexTables(d);
    stacks := [];
    for i := 0 to |d.samples|
      invariant stacks == SelectedStacks(d, pick, i)
    {
      var s := d.samples[i];
      if 0 <= pick.index < |s.values| && (if pick.negative then s.values[pick.index] < 0 else s.values[pick.index] > 0)
        && pick.keeps(s) {
        var frames := ResolvePath(d, functions, locations, s.locationIds);
        stacks := stacks + [Stack(frames, Magnitude(s.values[pick.index]))];
      }
    }
  }

  // ----- Paths and stacks by position -----

  // A line of a location of a sample, by their indices.
  datatype Position = Position(location: nat, line: nat)

  ghost predicate FirstLocation(d: Live.DecodedProfile, id: nat, i: nat) {
    i < |d.locations| && d.locations[i].id == id && forall j :: 0 <= j < i ==> d.locations[j].id != id
  }

  /** The name of a line's function; of repeated ids the first counts. */
  ghost predicate LineIs(d: Live.DecodedProfile, lines: seq<Live.ProfLine>, j: nat, name: Text) {
    && j < |lines|
    && exists f: nat :: Meaning.FirstFunction(d, lines[j].functionId, f)
                        && Meaning.TextIs(d, d.functions[f].name, name)
  }

  ghost predicate NameIs(d: Live.DecodedProfile, ids: seq<nat>, a: Position, name: Text) {
    && a.location < |ids|
    && exists l: nat :: FirstLocation(d, ids[a.location], l) && LineIs(d, d.locations[l].lines, a.line, name)
  }

  // Locations from the last to the first, the lines of each in their order.
  predicate Precedes(a: Position, b: Position) {
    a.location > b.location || (a.location == b.location && a.line < b.line)
  }

  ghost predicate InOrder(at: seq<Position>) {
    forall k, m :: 0 <= k < m < |at| ==> Precedes(at[k], at[m])
  }

  /** A name for every position that resolves, and no other. */
  ghost predicate Named(d: Live.DecodedProfile, ids: seq<nat>, frames: seq<Text>, at: seq<Position>) {
    && |at| == |frames| && InOrder(at)
    && (forall k :: 0 <= k < |at| ==> NameIs(d, ids, at[k], frames[k]))
    && (forall a, name :: NameIs(d, ids, a, name) ==> a in at)
  }

  ghost predicate IsPathOf(d: Live.DecodedProfile, ids: seq<nat>, frames: seq<Text>) {
    exists at :: Named(d, ids, frames, at)
  }

  // The same of one location's first `n` lines, whose index is `i`.
  ghost predicate LinesNamed(d: Live.DecodedProfile, lines: seq<Live.ProfLine>, i: nat, n: nat, names: seq<Text>,
                             at: seq<Position>) {
    && |at| == |names| && InOrder(at)
    && (forall k :: 0 <= k < |at| ==> at[k].location == i && at[k].line < n && LineIs(d, lines, at[k].line, names[k]))
    && (forall j: nat, name :: j < n && LineIs(d, lines, j, name) ==> Position(i, j) in at)
  }

  lemma LineName(d: Live.DecodedProfile, lines: seq<Live.ProfLine>, j: nat)
    requires j < |lines|
    ensures var functions := Live.IncomingFunctions(d, |d.functions|);
      if lines[j].functionId in functions
        then LineIs(d, lines, j, Live.StringAt(d.stringTable, functions[lines[j].functionId].name))
      else forall name :: !LineIs(d, lines, j, name)
  {
    Meaning.FunctionFound(d, |d.functions|, lines[j].functionId);
    hide Live.IncomingFunctions;
  }

  lemma NoLinesNamed(d: Live.DecodedProfile, lines: seq<Live.ProfLine>, i: nat)
    ensures LinesNamed(d, lines, i, 0, LineNames(d, lines[..0]), [])
  {
  }

  lemma {:induction false} LinesAreNamed(d: Live.DecodedProfile, lines: seq<Live.ProfLine>, i: nat, n: nat)
      returns (at: seq<Position>)
    requires n <= |lines|
    ensures LinesNamed(d, lines, i, n, LineNames(d, lines[..n]), at)
    decreases n
  {
    hide LineIs, Live.IncomingFunctions, LinesNamed;
    if n == 0 {
      at := [];
      NoLinesNamed(d, lines, i);
    } else {
      var before := LinesAreNamed(d, lines, i, n - 1);
      assert lines[..n][..n - 1] == lines[..n - 1];
      LineName(d, lines, n - 1);
      var functions := Live.IncomingFunctions(d, |d.functions|);
      var names := LineNames(d, lines[..n - 1]);
      if lines[n - 1].functionId in functions {
        at := before + [Position(i, n - 1)];
        LinesNamedNext(d, lines, i, n - 1, names, before,
                       Live.StringAt(d.stringTable, functions[lines[n - 1].functionId].name));
      } else {
        at := before + [];
        LinesNamedSkip(d, lines, i, n - 1, names, before);
      }
    }
  }

  lemma LinesNamedNext(d: Live.DecodedProfile, lines: seq<Live.ProfLine>, i: nat, n: nat, names: seq<Text>,
                       at: seq<Position>, name: Text)
    requires LinesNamed(d, lines, i, n, names, at) && LineIs(d, lines, n, name)
    ensures LinesNamed(d, lines, i, n + 1, names + [name], at + [Position(i, n)])
  {
    hide LineIs;
    var all := at + [Position(i, n)];
    forall j: nat, other | j < n + 1 && LineIs(d, lines, j, other) ensures Position(i, j) in all {
      if j < n {
        LinesFind(d, lines, i, n, names, at, j, other);
      } else {
        assert all[|at|] == Position(i, j);
      }
    }
  }

  lemma LinesNamedSkip(d: Live.DecodedProfile, lines: seq<Live.ProfLine>, i: nat, n: nat, names: seq<Text>,
                       at: seq<Position>)
    requires LinesNamed(d, lines, i, n, names, at) && forall name :: !LineIs(d, lines, n, name)
    ensures LinesNamed(d, lines, i, n + 1, names + [], at + [])
  {
    hide LineIs;
    assert names + [] == names && at + [] == at;
  }

  lemma LinesFind(d: Live.DecodedProfile, lines: seq<Live.ProfLine>, i: nat, n: nat, names: seq<Text>,
                  at: seq<Position>, j: nat, name: Text)
    requires LinesNamed(d, lines, i, n, names, at) && j < n && LineIs(d, lines, j, name)
    ensures Position(i, j) in at
  {
    hide LineIs, InOrder;
  }

  lemma {:induction false} LocationFound(d: Live.DecodedProfile, n: nat, id: nat)
    requires n <= |d.locations|
    ensures var table := LocationsById(d, n);
      if id in table then exists i: nat :: i < n && FirstLocation(d, id, i) && table[id] == d.locations[i]
      else forall i :: 0 <= i < n ==> d.locations[i].id != id
    decreases n
  {
    if n > 0 {
      LocationFound(d, n - 1, id);
      var before := LocationsById(d, n - 1);
      if id in before {
        var i: nat :| i < n - 1 && FirstLocation(d, id, i) && before[id] == d.locations[i];
        assert LocationsById(d, n)[id] == d.locations[i];
      } else if d.locations[n - 1].id == id {
        assert FirstLocation(d, id, n - 1) && LocationsById(d, n)[id] == d.locations[n - 1];
      }
    }
  }

  // The names of the location at `i`: its lines', if it is there.
  lemma NamesOf(d: Live.DecodedProfile, ids: seq<nat>, i: nat, j: nat, name: Text)
    requires i < |ids|
    ensures var locations := LocationsById(d, |d.locations|);
      NameIs(d, ids, Position(i, j), name) <==> ids[i] in locations && LineIs(d, locations[ids[i]].lines, j, name)
  {
    hide LineIs;
    LocationFound(d, |d.locations|, ids[i]);
    hide LocationsById;
  }

  // A path is built from its last location on: the names of the locations from `i` on.
  ghost predicate NamedFrom(d: Live.DecodedProfile, ids: seq<nat>, i: nat, frames: seq<Text>, at: seq<Position>) {
    && |at| == |frames| && InOrder(at)
    && (forall k :: 0 <= k < |at| ==> at[k].location >= i && NameIs(d, ids, at[k], frames[k]))
    && (forall a: Position, name :: a.location >= i && NameIs(d, ids, a, name) ==> a in at)
  }

  lemma NoneNamed(d: Live.DecodedProfile, ids: seq<nat>)
    ensures NamedFrom(d, ids, |ids|, PathOf(d, ids[|ids|..]), [])
  {
    hide LineIs;
  }

  lemma NamedBy(d: Live.DecodedProfile, ids: seq<nat>, i: nat, frames: seq<Text>, at: seq<Position>)
    requires |at| == |frames| && InOrder(at)
    requires forall k :: 0 <= k < |at| ==> at[k].location >= i && NameIs(d, ids, at[k], frames[k])
    requires forall a: Position, name :: a.location >= i && NameIs(d, ids, a, name) ==> a in at
    ensures NamedFrom(d, ids, i, frames, at)
  {
    hide NameIs, InOrder;
  }

  lemma {:induction false} PathIsNamed(d: Live.DecodedProfile, ids: seq<nat>, i: nat) returns (at: seq<Position>)
    requires i <= |ids|
    ensures NamedFrom(d, ids, i, PathOf(d, ids[i..]), at)
    decreases |ids| - i
  {
    hide NamedFrom, LineNames;
    if i == |ids| {
      at := [];
      NoneNamed(d, ids);
    } else {
      var before := PathIsNamed(d, ids, i + 1);
      assert ids[i..][1..] == ids[i + 1..];
      var frames := PathOf(d, ids[i + 1..]);
      var locations := LocationsById(d, |d.locations|);
      if ids[i] in locations {
        var lines := locations[ids[i]].lines;
        var here := LinesAreNamed(d, lines, i, |lines|);
        assert lines[..|lines|] == lines;
        at := before + here;
        NamedNext(d, ids, i, frames, before, LineNames(d, lines), here);
      } else {
        at := before + [];
        NamedSkip(d, ids, i, frames, before);
      }
    }
  }

  // What `NamedFrom` says, piece by piece.
  lemma NamedAt(d: Live.DecodedProfile, ids: seq<nat>, i: nat, frames: seq<Text>, at: seq<Position>, k: nat)
    requires NamedFrom(d, ids, i, frames, at) && k < |at|
    ensures |frames| == |at| && at[k].location >= i && NameIs(d, ids, at[k], frames[k])
  {
    hide NameIs, InOrder;
  }

  lemma NamedHas(d: Live.DecodedProfile, ids: seq<nat>, i: nat, frames: seq<Text>, at: seq<Position>, a: Position,
                 name: Text)
    requires NamedFrom(d, ids, i, frames, at) && a.location >= i && NameIs(d, ids, a, name)
    ensures a in at
  {
    hide NameIs, InOrder;
  }

  lemma NamedInOrder(d: Live.DecodedProfile, ids: seq<nat>, i: nat, frames: seq<Text>, at: seq<Position>)
    requires NamedFrom(d, ids, i, frames, at)
    ensures |at| == |frames| && InOrder(at)
  {
    hide NameIs, InOrder;
  }

  lemma NamedNext(d: Live.DecodedProfile, ids: seq<nat>, i: nat, frames: seq<Text>, before: seq<Position>,
                  names: seq<Text>, here: seq<Position>)
    requires i < |ids| && NamedFrom(d, ids, i + 1, frames, before)
    requires ids[i] in LocationsById(d, |d.locations|)
    requires var lines := LocationsById(d, |d.locations|)[ids[i]].lines;
      LinesNamed(d, lines, i, |lines|, names, here)
    ensures NamedFrom(d, ids, i, frames + names, before + here)
  {
    hide LineIs, LocationsById, NamedFrom, NameIs, InOrder;
    var lines := LocationsById(d, |d.locations|)[ids[i]].lines;
    var at, all := before + here, frames + names;
    NamedInOrder(d, ids, i + 1, frames, before);
    forall k | 0 <= k < |at| ensures at[k].location >= i && NameIs(d, ids, at[k], all[k]) {
      if k < |before| {
        NamedAt(d, ids, i + 1, frames, before, k);
      } else {
        var a := here[k - |before|];
        NamesOf(d, ids, i, a.line, names[k - |before|]);
        assert a == Position(i, a.line);
      }
    }
    forall a: Position, name | a.location >= i && NameIs(d, ids, a, name) ensures a in at {
      if a.location == i {
        NamesOf(d, ids, i, a.line, name);
        assert a == Position(i, a.line);
        LineIsThere(d, lines, a.line, name);
        LinesFind(d, lines, i, |lines|, names, here, a.line, name);
      } else {
        NamedHas(d, ids, i + 1, frames, before, a, name);
      }
    }
    forall k | 0 <= k < |before| ensures before[k].location >= i + 1 {
      NamedAt(d, ids, i + 1, frames, before, k);
    }
    InOrderOn(before, here, i);
    NamedBy(d, ids, i, all, at);
  }

  lemma LineIsThere(d: Live.DecodedProfile, lines: seq<Live.ProfLine>, j: nat, name: Text)
    requires LineIs(d, lines, j, name)
    ensures j < |lines|
  {
  }

  lemma InOrderOn(before: seq<Position>, here: seq<Position>, i: nat)
    requires InOrder(before) && InOrder(here)
    requires forall k :: 0 <= k < |before| ==> before[k].location >= i + 1
    requires forall k :: 0 <= k < |here| ==> here[k].location == i
    ensures InOrder(before + here)
  {
  }

  lemma NamedSkip(d: Live.DecodedProfile, ids: seq<nat>, i: nat, frames: seq<Text>, before: seq<Position>)
    requires i < |ids| && NamedFrom(d, ids, i + 1, frames, before)
    requires ids[i] !in LocationsById(d, |d.locations|)
    ensures NamedFrom(d, ids, i, frames + [], before + [])
  {
    hide LineIs, LocationsById, NameIs, InOrder;
    assert frames + [] == frames && before + [] == before;
    forall a: Position, name | a.location == i ensures !NameIs(d, ids, a, name) {
      NamesOf(d, ids, i, a.line, name);
      assert a == Position(i, a.line);
    }
  }

  lemma PathIsPath(d: Live.DecodedProfile, ids: seq<nat>)
    ensures IsPathOf(d, ids, PathOf(d, ids))
  {
    hide NameIs, InOrder, PathOf;
    var at := PathIsNamed(d, ids, 0);
    assert ids[0..] == ids;
    assert Named(d, ids, PathOf(d, ids), at);
  }

  /** The sample has a value at the index, of the wanted sign, and the filters keep it. */
  ghost predicate Wanted(pick: Selection, s: Live.ProfSample) {
    && 0 <= pick.index < |s.values| && pick.keeps(s)
    && (if pick.negative then s.values[pick.index] < 0 else s.values[pick.index] > 0)
  }

  // The wanted sample at `i`, with its path and its value without the sign, as far as there is such an int64.
  ghost predicate IsChosen(d: Live.DecodedProfile, pick: Selection, i: nat, s: Stack<Text>) {
    && i < |d.samples| && Wanted(pick, d.samples[i])
    && IsPathOf(d, d.samples[i].locationIds, s.frames)
    && var v: int := d.samples[i].values[pick.index];
      s.value == if v == -0x8000_0000_0000_0000 then 0x7FFF_FFFF_FFFF_FFFF else if v < 0 then -v else v
  }

  /** A stack for every wanted sample, in the samples' order. */
  ghost predicate Chosen(d: Live.DecodedProfile, pick: Selection, n: nat, stacks: seq<Stack<Text>>, from: seq<nat>)
    requires n <= |d.samples|
  {
    && |from| == |stacks| && Meaning.Rises(from)
    && (forall i: nat :: i in from <==> i < n && Wanted(pick, d.samples[i]))
    && (forall k :: 0 <= k < |from| ==> IsChosen(d, pick, from[k], stacks[k]))
  }

  lemma NoneChosen(d: Live.DecodedProfile, pick: Selection)
    ensures Chosen(d, pick, 0, SelectedStacks(d, pick, 0), [])
  {
  }

  lemma {:induction false} StacksAreChosen(d: Live.DecodedProfile, pick: Selection, n: nat) returns (from: seq<nat>)
    requires n <= |d.samples|
    ensures Chosen(d, pick, n, SelectedStacks(d, pick, n), from)
    decreases n
  {
    hide IsChosen, PathOf, Chosen;
    if n == 0 {
      from := [];
      NoneChosen(d, pick);
    } else {
      var before := StacksAreChosen(d, pick, n - 1);
      var s := d.samples[n - 1];
      if Selects(pick, s) {
        from := before + [n - 1];
        SampleIsChosen(d, pick, n - 1);
        ChosenNext(d, pick, n - 1, SelectedStacks(d, pick, n - 1), before,
                   Stack(PathOf(d, s.locationIds), Magnitude(s.values[pick.index])));
      } else {
        from := before;
        ChosenSkip(d, pick, n - 1, SelectedStacks(d, pick, n - 1), before);
      }
    }
  }

  lemma SampleIsChosen(d: Live.DecodedProfile, pick: Selection, i: nat)
    requires i < |d.samples| && Selects(pick, d.samples[i])
    ensures var s := d.samples[i];
      IsChosen(d, pick, i, Stack(PathOf(d, s.locationIds), Magnitude(s.values[pick.index])))
  {
    hide PathOf, IsPathOf;
    PathIsPath(d, d.samples[i].locationIds);
  }

  lemma ChosenNext(d: Live.DecodedProfile, pick: Selection, n: nat, stacks: seq<Stack<Text>>, from: seq<nat>,
                   s: Stack<Text>)
    requires n < |d.samples| && Chosen(d, pick, n, stacks, from) && IsChosen(d, pick, n, s)
    ensures Chosen(d, pick, n + 1, stacks + [s], from + [n])
  {
    assert Wanted(pick, d.samples[n]);
    hide IsChosen, Wanted;
    forall k | 0 <= k < |from| ensures from[k] < n {
      assert from[k] in from;
    }
    forall i: nat ensures i in from + [n] <==> i < n + 1 && Wanted(pick, d.samples[i]) {
      assert i in from + [n] <==> i in from || i == n;
    }
  }

  lemma ChosenSkip(d: Live.DecodedProfile, pick: Selection, n: nat, stacks: seq<Stack<Text>>, from: seq<nat>)
    requires n < |d.samples| && Chosen(d, pick, n, stacks, from) && !Wanted(pick, d.samples[n])
    ensures Chosen(d, pick, n + 1, stacks, from)
  {
    hide IsChosen, Wanted, Meaning.Rises;
  }

  // ----- The whole conversion -----

  /** What the selected samples weigh together. */
  function SelectedTotal(d: Live.DecodedProfile, pick: Selection, n: nat): nat
    requires n <= |d.samples|
  {
    if n == 0 then 0
    else
      SelectedTotal(d, pick, n - 1)
      + if Selects(pick, d.samples[n - 1]) then Magnitude(d.samples[n - 1].values[pick.index]) else 0
  }

  lemma {:induction false} SelectedSums(d: Live.DecodedProfile, pick: Selection, n: nat)
    requires n <= |d.samples|
    ensures var stacks := SelectedStacks(d, pick, n);
      && (forall s :: s in stacks ==> s.value > 0)
      && AbsSum(stacks) == SelectedTotal(d, pick, n) == SumUnder(stacks, [], false)
      && (stacks == [] <==> SelectedTotal(d, pick, n) == 0)
  {
    hide PathOf, Selects, Magnitude, AbsSum, SumUnder;
    NoStacks();
    if n > 0 {
      var before, s := SelectedStacks(d, pick, n - 1), d.samples[n - 1];
      SelectedSums(d, pick, n - 1);
      if Selects(pick, s) {
        SelectedWeighs(pick, s);
        OneMoreStack(before, Stack(PathOf(d, s.locationIds), Magnitude(s.values[pick.index])));
      }
    }
  }

  lemma NoStacks()
    ensures AbsSum<Text>([]) == 0 && SumUnder<Text>([], [], false) == 0
  {
  }

  lemma SelectedWeighs(pick: Selection, s: Live.ProfSample)
    requires Selects(pick, s)
    ensures 0 <= pick.index < |s.values| && Magnitude(s.values[pick.index]) > 0
  {
  }

  lemma OneMoreStack(before: seq<Stack<Text>>, s: Stack<Text>)
    requires s.value > 0
    ensures AbsSum(before + [s]) == AbsSum(before) + s.value
    ensures SumUnder(before + [s], [], false) == SumUnder(before, [], false) + s.value
  {
    assert (before + [s])[..|before|] == before;
  }

  /** No sum of the trie leaves int64, at its end or on the way there, exactly if the selected samples
      together fit. */
  lemma TrieFits(d: Live.DecodedProfile, pick: Selection)
    ensures Within(Built(SelectedStacks(d, pick, |d.samples|), false), I64_MAX) <==>
      SelectedTotal(d, pick, |d.samples|) <= I64_MAX
    ensures forall n :: 0 <= n <= |d.samples| ==> SelectedTotal(d, pick, n) <= SelectedTotal(d, pick, |d.samples|)
  {
    hide Built, Within, SelectedStacks;
    var stacks := SelectedStacks(d, pick, |d.samples|);
    SelectedSums(d, pick, |d.samples|);
    NodeValues(stacks, false, []);
    if AbsSum(stacks) <= I64_MAX {
      NothingSaturates(stacks);
      WithinMore(Built(stacks, false), AbsSum(stacks), I64_MAX);
    }
    RootWithin(Built(stacks, false));
    forall n | 0 <= n <= |d.samples| ensures SelectedTotal(d, pick, n) <= SelectedTotal(d, pick, |d.samples|) {
      TotalGrows(d, pick, n, |d.samples|);
    }
  }

  lemma RootWithin(t: Tree<Text>)
    requires t.value >= 0
    ensures Within(t, I64_MAX) ==> t.value <= I64_MAX
    ensures ValueAt(t, []) == t.value
  {
  }

  lemma {:induction false} TotalGrows(d: Live.DecodedProfile, pick: Selection, n: nat, m: nat)
    requires n <= m <= |d.samples|
    ensures SelectedTotal(d, pick, n) <= SelectedTotal(d, pick, m)
    decreases m
  {
    if n < m {
      TotalGrows(d, pick, n, m - 1);
    }
  }

  // The node of a path, with what the stacks below it and on it add up to.
  ghost predicate Accounts(node: FlatNode, path: seq<Text>, stacks: seq<Stack<Text>>) {
    && node.id == PathId(path) && node.depth == |path|
    && node.totalValue == SumUnder(stacks, path, false)
    && node.selfValue == SumOf(stacks, path, false)
    && node.parentId == (if path == [] then None else Some(PathId(path[..|path| - 1])))
    && node.name == (if path == [] then Ascii("root") else path[|path| - 1])
    && exists frames :: Appear(stacks, path, frames) && ChildrenAre(node, path, frames)
  }

  ghost predicate ChildrenAre(node: FlatNode, path: seq<Text>, frames: seq<Text>) {
    |node.childIds| == |frames| && forall i :: 0 <= i < |frames| ==> node.childIds[i] == PathId(path + [frames[i]])
  }

  /** Breadth first: the nodes behind the root are the children of each node in their order, node by node. */
  ghost predicate Breadthwise(nodes: seq<FlatNode>, paths: seq<seq<Text>>, places: seq<Place>) {
    && |places| == |nodes| == |paths| && nodes != [] && paths[0] == []
    && (forall k :: 1 <= k < |nodes| ==>
          && places[k].parent < |nodes| && paths[k] != []
          && paths[k][..|paths[k]| - 1] == paths[places[k].parent]
          && places[k].child < |nodes[places[k].parent].childIds|
          && nodes[places[k].parent].childIds[places[k].child] == nodes[k].id)
    && (forall k, m :: 1 <= k < m < |nodes| ==> Sooner(places[k], places[m]))
  }

  datatype Conversion = Conversion(nodes: seq<FlatNode>, index: map<Text, nat>, rootId: Option<Text>, total: int)

  /** A node for every path that a stack runs through, and for the root, and no other; parents before their
      children, breadth first; each with the sums of its stacks. */
  ghost predicate Lists(stacks: seq<Stack<Text>>, nodes: seq<FlatNode>, index: map<Text, nat>, paths: seq<seq<Text>>) {
    && |nodes| == |paths| && Distinct(paths) && Indexes(index, nodes)
    && (forall path :: path in paths <==> path == [] || exists i :: 0 <= i < |stacks| && path <= stacks[i].frames)
    && (forall i :: 0 <= i < |paths| ==> Accounts(nodes[i], paths[i], stacks))
    && (forall i :: 0 <= i < |paths| && paths[i] != [] ==>
        exists j :: 0 <= j < i && paths[j] == paths[i][..|paths[i]| - 1])
    && (exists places :: Breadthwise(nodes, paths, places))
  }

  /** The result: the nodes of the selected samples' stacks, and what these weigh together. */
  ghost predicate Converts(d: Live.DecodedProfile, pick: Selection, c: Conversion, paths: seq<seq<Text>>) {
    && Lists(SelectedStacks(d, pick, |d.samples|), c.nodes, c.index, paths)
    && c.total == SelectedTotal(d, pick, |d.samples|)
    && (c.rootId == if exists i :: 0 <= i < |d.samples| && Selects(pick, d.samples[i]) then Some(ROOT) else None)
  }

  /** `convertProfile`. */
  method Convert(d: Live.DecodedProfile, pick: Selection) returns (c: Conversion, ghost paths: seq<seq<Text>>)
    ensures d.samples == [] ==> c == Conversion([], map[], None, 0)
    ensures d.samples != [] ==> Converts(d, pick, c, paths)
  {
    hide SelectedStacks, Built, Proper, Balanced, Accounts, Indexes, Distinct, NodeOf, BreadthFirst, Breadthwise;
    if d.samples == [] {
      return Conversion([], map[], None, 0), [];
    }
    var stacks := SelectStacks(d, pick);
    var root := FromStacks(stacks, false);
    BuiltBalances(stacks);
    BalancedIsProper(root);
    var nodes: seq<FlatNode>, index: map<Text, nat>;
    nodes, index, paths := TreeViews.Flatten(root);
    c := Conversion(nodes, index, if root.value > 0 then Some(ROOT) else None, root.value);
    forall path ensures NodeAt(root, path).Some? <==>
      path == [] || exists i :: 0 <= i < |stacks| && path <= stacks[i].frames {
      NodeValues(stacks, false, path);
    }
    forall i | 0 <= i < |paths| ensures Accounts(nodes[i], paths[i], stacks) {
      NodeAccounts(stacks, paths[i]);
    }
    RootTotal(d, pick);
    ghost var places :| BreadthFirst(root, paths, |paths|, places);
    NodesBreadthwise(root, nodes, paths, places);
  }

  lemma NodesBreadthwise(root: Tree<Text>, nodes: seq<FlatNode>, paths: seq<seq<Text>>, places: seq<Place>)
    requires BreadthFirst(root, paths, |paths|, places) && |nodes| == |paths|
    requires forall i :: 0 <= i < |nodes| ==> NodeAt(root, paths[i]).Some? && nodes[i] == NodeOf(root, paths[i])
    ensures Breadthwise(nodes, paths, places)
  {
    hide NodeAt, PathId;
    forall k | 1 <= k < |nodes|
      ensures places[k].parent < |nodes| && paths[k] != []
      ensures paths[k][..|paths[k]| - 1] == paths[places[k].parent]
      ensures places[k].child < |nodes[places[k].parent].childIds|
      ensures nodes[places[k].parent].childIds[places[k].child] == nodes[k].id
    {
      assert ComesFrom(root, paths, places[k], |paths|, paths[k]);
      IdOfChild(root, paths[places[k].parent], places[k].child);
    }
  }

  lemma IdOfChild(root: Tree<Text>, path: seq<Text>, i: nat)
    requires NodeAt(root, path).Some? && i < |NodeAt(root, path).value.children|
    ensures var children := NodeAt(root, path).value.children;
      && |NodeOf(root, path).childIds| == |children|
      && NodeOf(root, path).childIds[i] == PathId(path + [children[i].frame])
  {
    hide NodeAt;
    var frame := NodeAt(root, path).value.children[i].frame;
    assert (path + [frame])[..|path|] == path;
  }

  lemma NodeAccounts(stacks: seq<Stack<Text>>, path: seq<Text>)
    requires NodeAt(Built(stacks, false), path).Some?
    ensures Accounts(NodeOf(Built(stacks, false), path), path, stacks)
  {
    NodeValues(stacks, false, path);
    NodeChildren(stacks, path);
    hide Appear, ChildrenAre, Built;
  }

  lemma NodeChildren(stacks: seq<Stack<Text>>, path: seq<Text>)
    requires NodeAt(Built(stacks, false), path).Some?
    ensures exists frames ::
      Appear(stacks, path, frames) && ChildrenAre(NodeOf(Built(stacks, false), path), path, frames)
  {
    hide NodeAt, NodeOf, AppearAt, Built, PathId;
    var root := Built(stacks, false);
    var first := ChildrenAppear(stacks, false, path);
    var frames := FramesAt(root, path);
    NoChildIds(root, path);
    forall i | 0 <= i < |frames| ensures NodeOf(root, path).childIds[i] == PathId(path + [frames[i]]) {
      IdOfChild(root, path, i);
    }
    assert ChildrenAre(NodeOf(root, path), path, frames);
  }

  lemma NoChildIds(root: Tree<Text>, path: seq<Text>)
    requires NodeAt(root, path).Some?
    ensures |NodeOf(root, path).childIds| == |FramesAt(root, path)|
  {
    hide NodeAt;
  }

  lemma RootTotal(d: Live.DecodedProfile, pick: Selection)
    ensures Built(SelectedStacks(d, pick, |d.samples|), false).value == SelectedTotal(d, pick, |d.samples|)
    ensures SelectedTotal(d, pick, |d.samples|) > 0 <==> exists i :: 0 <= i < |d.samples| && Selects(pick, d.samples[i])
  {
    NodeValues(SelectedStacks(d, pick, |d.samples|), false, []);
    SelectedSums(d, pick, |d.samples|);
    SomeSelected(d, pick, |d.samples|);
  }

  lemma {:induction false} SomeSelected(d: Live.DecodedProfile, pick: Selection, n: nat)
    requires n <= |d.samples|
    ensures SelectedTotal(d, pick, n) > 0 <==> exists i :: 0 <= i < n && Selects(pick, d.samples[i])
  {
    if n > 0 {
      SomeSelected(d, pick, n - 1);
    }
  }

  // ----- The index -----

  /** A call path that some selected stack runs through, or the root's. */
  ghost predicate RunsThrough(stacks: seq<Stack<Text>>, path: seq<Text>) {
    path == [] || exists i :: 0 <= i < |stacks| && path <= stacks[i].frames
  }

  /** No two call paths have the same id. */
  ghost predicate IdsDiffer(stacks: seq<Stack<Text>>) {
    forall p, q :: RunsThrough(stacks, p) && RunsThrough(stacks, q) && PathId(p) == PathId(q) ==> p == q
  }

  ghost predicate Inverts(c: Conversion) {
    forall i :: 0 <= i < |c.nodes| ==> c.nodes[i].id in c.index && c.index[c.nodes[i].id] == i
  }

  /** The exact condition, on what is converted: the index leads back to every node exactly if any two call
      paths of the selected samples with the same id are equal. */
  lemma IndexInvertsExactly(d: Live.DecodedProfile, pick: Selection, c: Conversion, paths: seq<seq<Text>>)
    requires Converts(d, pick, c, paths)
    ensures Inverts(c) <==> IdsDiffer(SelectedStacks(d, pick, |d.samples|))
  {
    hide SelectedStacks, Converts, RunsThrough, IdsDiffer, Indexes, Distinct;
    ConvertsPaths(d, pick, c, paths);
    IndexInverts(c.index, c.nodes);
    IndexKnows(c.index, c.nodes);
    SomePathTwice(c.nodes, paths, SelectedStacks(d, pick, |d.samples|));
  }

  lemma ConvertsPaths(d: Live.DecodedProfile, pick: Selection, c: Conversion, paths: seq<seq<Text>>)
    requires Converts(d, pick, c, paths)
    ensures |c.nodes| == |paths| && Distinct(paths) && Indexes(c.index, c.nodes)
    ensures forall path :: path in paths <==> RunsThrough(SelectedStacks(d, pick, |d.samples|), path)
    ensures forall i :: 0 <= i < |paths| ==> c.nodes[i].id == PathId(paths[i])
  {
    hide SelectedStacks, PathId, Indexes, Distinct, SumUnder, SumOf, Breadthwise, Accounts;
    forall i | 0 <= i < |paths| ensures c.nodes[i].id == PathId(paths[i]) {
      AccountsId(c.nodes[i], paths[i], SelectedStacks(d, pick, |d.samples|));
    }
  }

  lemma AccountsId(node: FlatNode, path: seq<Text>, stacks: seq<Stack<Text>>)
    requires Accounts(node, path, stacks)
    ensures node.id == PathId(path)
  {
    hide PathId, SumUnder, SumOf, Appear, ChildrenAre;
  }

  lemma SomePathTwice(nodes: seq<FlatNode>, paths: seq<seq<Text>>, stacks: seq<Stack<Text>>)
    requires |nodes| == |paths| && Distinct(paths)
    requires forall path :: path in paths <==> RunsThrough(stacks, path)
    requires forall i :: 0 <= i < |paths| ==> nodes[i].id == PathId(paths[i])
    ensures (forall i, j :: 0 <= i < j < |nodes| ==> nodes[i].id != nodes[j].id) <==> IdsDiffer(stacks)
  {
    hide RunsThrough, PathId;
    if forall i, j :: 0 <= i < j < |nodes| ==> nodes[i].id != nodes[j].id {
      forall p, q | RunsThrough(stacks, p) && RunsThrough(stacks, q) && PathId(p) == PathId(q) ensures p == q {
        var i :| 0 <= i < |paths| && paths[i] == p;
        var j :| 0 <= j < |paths| && paths[j] == q;
        assert nodes[i].id == nodes[j].id;
      }
    }
    if IdsDiffer(stacks) {
      forall i, j | 0 <= i < j < |nodes| ensures nodes[i].id != nodes[j].id {
        assert paths[i] in paths && paths[j] in paths && paths[i] != paths[j];
        assert RunsThrough(stacks, paths[i]) && RunsThrough(stacks, paths[j]);
      }
    }
  }

  lemma IndexKnows(index: map<Text, nat>, nodes: seq<FlatNode>)
    requires Indexes(index, nodes)
    ensures forall i :: 0 <= i < |nodes| ==> nodes[i].id in index
  {
  }

  /** So it does when no function's name has a slash. */
  lemma PlainNamesInvert(d: Live.DecodedProfile, pick: Selection, c: Conversion, paths: seq<seq<Text>>)
    requires Converts(d, pick, c, paths)
    requires forall i :: 0 <= i < |d.functions| ==> SLASH !in Live.StringAt(d.stringTable, d.functions[i].name)
    ensures Inverts(c)
  {
    hide SelectedStacks, PathId, Converts;
    var stacks := SelectedStacks(d, pick, |d.samples|);
    PlainStacks(d, pick, |d.samples|);
    forall p, q | RunsThrough(stacks, p) && RunsThrough(stacks, q) && PathId(p) == PathId(q) ensures p == q {
      PlainPrefix(stacks, p);
      PlainPrefix(stacks, q);
      PlainIdsDiffer(p, q);
    }
    IndexInvertsExactly(d, pick, c, paths);
  }

  lemma PlainPrefix(stacks: seq<Stack<Text>>, path: seq<Text>)
    requires RunsThrough(stacks, path) && forall i :: 0 <= i < |stacks| ==> Plain(stacks[i].frames)
    ensures Plain(path)
  {
    if path != [] {
      var i :| 0 <= i < |stacks| && path <= stacks[i].frames;
      assert Plain(stacks[i].frames);
      assert forall k :: 0 <= k < |path| ==> path[k] == stacks[i].frames[k];
    }
  }

  lemma {:induction false} PlainStacks(d: Live.DecodedProfile, pick: Selection, n: nat)
    requires n <= |d.samples|
    requires forall i :: 0 <= i < |d.functions| ==> SLASH !in Live.StringAt(d.stringTable, d.functions[i].name)
    ensures forall i :: 0 <= i < |SelectedStacks(d, pick, n)| ==> Plain(SelectedStacks(d, pick, n)[i].frames)
  {
    hide Plain, PathOf, Selects, Magnitude;
    if n > 0 {
      PlainStacks(d, pick, n - 1);
      PlainPath(d, d.samples[n - 1].locationIds);
    }
  }

  lemma {:induction false} PlainPath(d: Live.DecodedProfile, ids: seq<nat>)
    requires forall i :: 0 <= i < |d.functions| ==> SLASH !in Live.StringAt(d.stringTable, d.functions[i].name)
    ensures Plain(PathOf(d, ids))
    decreases |ids|
  {
    hide LineNames;
    if ids != [] {
      PlainPath(d, ids[1..]);
      var locations := LocationsById(d, |d.locations|);
      if ids[0] in locations {
        PlainLines(d, locations[ids[0]].lines);
      }
    }
  }

  lemma {:induction false} PlainLines(d: Live.DecodedProfile, lines: seq<Live.ProfLine>)
    requires forall i :: 0 <= i < |d.functions| ==> SLASH !in Live.StringAt(d.stringTable, d.functions[i].name)
    ensures Plain(LineNames(d, lines))
  {
    if lines != [] {
      PlainLines(d, lines[..|lines| - 1]);
      FunctionsListed(d, |d.functions|);
    }
  }

  lemma {:induction false} FunctionsListed(d: Live.DecodedProfile, n: nat)
    requires n <= |d.functions|
    ensures forall id :: id in Live.IncomingFunctions(d, n) ==>
      exists i :: 0 <= i < n && d.functions[i] == Live.IncomingFunctions(d, n)[id]
  {
    if n > 0 {
      FunctionsListed(d, n - 1);
    }
  }

  // A function called `a/b`, and a function `b` called by a function `a`.
  const A: Text := [97]
  const B: Text := [98]
  const A_SLASH_B: Text := [97, SLASH, 98]

  const SLASHED: Live.DecodedProfile := Live.DecodedProfile(
    [], [Live.ProfSample([1], [1], []), Live.ProfSample([3, 2], [1], [])], [],
    [SlashedLocation(1), SlashedLocation(2), SlashedLocation(3)],
    [SlashedFunction(1), SlashedFunction(2), SlashedFunction(3)], [[], A_SLASH_B, A, B], 0, 0, None, 0, 0, [], 0, 0, 0)

  const EVERYTHING: Selection := Selection(0, false, _ => true)

  function SlashedLocation(id: nat): Live.ProfLocation {
    Live.ProfLocation(id, 0, 0, [Live.ProfLine(id, 0, 0)], false)
  }

  function SlashedFunction(id: nat): Live.ProfFunction {
    Live.ProfFunction(id, id, 0, 0, 0)
  }

  /** A profile whose conversion has two nodes with one id, so that its index does not lead back to both. */
  lemma SlashedProfileCollides(c: Conversion, paths: seq<seq<Text>>)
    requires Converts(SLASHED, EVERYTHING, c, paths)
    ensures !Inverts(c)
  {
    hide Converts, SelectedStacks, PathId;
    SlashedStacks();
    var stacks := SelectedStacks(SLASHED, EVERYTHING, |SLASHED.samples|);
    assert [A_SLASH_B] <= stacks[0].frames && [A, B] <= stacks[1].frames;
    assert RunsThrough(stacks, [A_SLASH_B]) && RunsThrough(stacks, [A, B]);
    SlashCollides(A, B);
    assert A + [SLASH] + B == A_SLASH_B;
    IndexInvertsExactly(SLASHED, EVERYTHING, c, paths);
  }

  lemma SlashedStacks()
    ensures SelectedStacks(SLASHED, EVERYTHING, |SLASHED.samples|) == [Stack([A_SLASH_B], 1), Stack([A, B], 1)]
  {
    SlashedTables();
    SlashedLines(1);
    SlashedLines(2);
    SlashedLines(3);
    hide LineNames, LocationsById, Live.IncomingFunctions;
    var none: seq<nat> := [];
    var d := SLASHED;
    assert [1][1..] == none && [3, 2][1..] == [2] && [2][1..] == none;
    assert PathOf(d, none) == [];
    assert PathOf(d, [1]) == [] + [A_SLASH_B];
    assert PathOf(d, [2]) == [] + [A];
    assert PathOf(d, [3, 2]) == [A] + [B];
    hide PathOf;
    assert [A] + [B] == [A, B] && d.samples[1].locationIds == [3, 2] && d.samples[1].values == [1];
    assert Selects(EVERYTHING, d.samples[0]) && Selects(EVERYTHING, d.samples[1]) && Magnitude(1) == 1;
    assert SelectedStacks(d, EVERYTHING, 0) == [];
    assert SelectedStacks(d, EVERYTHING, 1) == [] + [Stack([A_SLASH_B], 1)];
    assert SelectedStacks(d, EVERYTHING, 2) == [Stack([A_SLASH_B], 1)] + [Stack([A, B], 1)];
  }

  lemma SlashedTables()
    ensures LocationsById(SLASHED, 3) == map[1 := SlashedLocation(1), 2 := SlashedLocation(2), 3 := SlashedLocation(3)]
    ensures Live.IncomingFunctions(SLASHED, 3)
      == map[1 := SlashedFunction(1), 2 := SlashedFunction(2), 3 := SlashedFunction(3)]
  {
    var d := SLASHED;
    assert LocationsById(d, 1) == map[1 := SlashedLocation(1)];
    assert LocationsById(d, 2) == map[1 := SlashedLocation(1), 2 := SlashedLocation(2)];
    assert Live.IncomingFunctions(d, 1) == map[1 := SlashedFunction(1)];
    assert Live.IncomingFunctions(d, 2) == map[1 := SlashedFunction(1), 2 := SlashedFunction(2)];
  }

  lemma SlashedLines(id: nat)
    requires 1 <= id <= 3
    ensures LineNames(SLASHED, SlashedLocation(id).lines) == [SLASHED.stringTable[id]]
  {
    SlashedTables();
    hide Live.IncomingFunctions;
    var lines := SlashedLocation(id).lines;
    assert lines[..0] == [];
    assert LineNames(SLASHED, lines[..0]) == [];
  }
}
