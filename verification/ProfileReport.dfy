/** Cost attribution of `src/report.rs`: each sample's value goes to the frame it was taken in, to every
    frame on its stack once, and to its stack.  Sums saturate. */
module ProfileReport {
  import opened Prelude
  import opened Pprof
  import opened SampleKeys
  import opened CallTree

  // ----- Resolving a stack -----

  datatype FrameIdentity = FunctionFrame(id: u64) | AddressFrame(address: u64)

  // The frames of one location, caller first: its lines are leaf first.
  function LocationFrames(x: Tables, l: Location, n: nat): seq<FrameIdentity>
    requires n <= |l.lines|
  {
    if n == 0 then []
    else
      (if l.lines[n - 1].functionId in x.functions then [FunctionFrame(x.functions[l.lines[n - 1].functionId].id)]
       else [])
      + LocationFrames(x, l, n - 1)
  }

  function FramesOf(x: Tables, l: Location): seq<FrameIdentity> {
    if l.lines == [] then [AddressFrame(l.address)] else LocationFrames(x, l, |l.lines|)
  }

  /** The frames of a sample, root first; what does not resolve is skipped. */
  function Stacked(x: Tables, ids: seq<u64>): seq<FrameIdentity> {
    if ids == [] then []
    else
      var last := ids[|ids| - 1];
      (if last in x.locations then FramesOf(x, x.locations[last]) else []) + Stacked(x, ids[..|ids| - 1])
  }

  method ResolveLocation(x: Tables, l: Location) returns (frames: seq<FrameIdentity>)
    ensures frames == FramesOf(x, l)
  {
    if l.lines == [] {
      return [AddressFrame(l.address)];
    }
    frames := [];
    var j: nat := |l.lines|;
    assert [] + LocationFrames(x, l, j) == LocationFrames(x, l, j);
    while j > 0
      invariant j <= |l.lines| && frames + LocationFrames(x, l, j) == LocationFrames(x, l, |l.lines|)
    {
      ghost var rest := LocationFrames(x, l, j - 1);
      j := j - 1;
      if l.lines[j].functionId in x.functions {
        ghost var f := FunctionFrame(x.functions[l.lines[j].functionId].id);
        assert frames + ([f] + rest) == (frames + [f]) + rest;
        frames := frames + [FunctionFrame(x.functions[l.lines[j].functionId].id)];
      } else {
        assert [] + rest == rest;
      }
    }
    assert frames + [] == frames;
  }

  /** `resolve_stack`: locations and lines, both from their ends. */
  method ResolveStack(x: Tables, ids: seq<u64>) returns (frames: seq<FrameIdentity>)
    ensures frames == Stacked(x, ids) && IsStackOf(x, ids, frames)
  {
    hide FramesOf, Placed;
    ghost var at := StackedPlaced(x, ids);
    frames := [];
    var i: nat := |ids|;
    assert ids[..i] == ids && [] + Stacked(x, ids) == Stacked(x, ids);
    while i > 0
      invariant i <= |ids| && frames + Stacked(x, ids[..i]) == Stacked(x, ids)
    {
      i := i - 1;
      assert ids[..i + 1][..i] == ids[..i];
      ghost var rest := Stacked(x, ids[..i]);
      if ids[i] in x.locations {
        var some := ResolveLocation(x, x.locations[ids[i]]);
        assert frames + (some + rest) == (frames + some) + rest;
        frames := frames + some;
      } else {
        assert [] + rest == rest;
      }
    }
    assert frames + [] == frames;
  }

  // ----- The stack by position -----

  // A line of a location of a sample, by their indices; a location without lines counts as one.
  datatype Position = Position(location: nat, line: nat)

  /** The frame at a position: the function of the line, or the address of a location without lines. */
  ghost predicate FrameIs(x: Tables, ids: seq<u64>, a: Position, f: FrameIdentity) {
    a.location < |ids| && ids[a.location] in x.locations && LineIs(x, x.locations[ids[a.location]], a.line, f)
  }

  ghost predicate LineIs(x: Tables, l: Location, j: nat, f: FrameIdentity) {
    if l.lines == [] then j == 0 && f == AddressFrame(l.address)
    else
      && j < |l.lines| && l.lines[j].functionId in x.functions
      && f == FunctionFrame(x.functions[l.lines[j].functionId].id)
  }

  // Further from the leaf.
  predicate Outside(a: Position, b: Position) {
    a.location > b.location || (a.location == b.location && a.line > b.line)
  }

  ghost predicate Descends(at: seq<Position>) {
    forall k, m :: 0 <= k < m < |at| ==> Outside(at[k], at[m])
  }

  /** The frames of a sample, the outermost first: one for every position that resolves, in the reverse of the
      profile's order, which is leaf first in locations as well as in lines. */
  ghost predicate Placed(x: Tables, ids: seq<u64>, frames: seq<FrameIdentity>, at: seq<Position>) {
    && |at| == |frames| && Descends(at)
    && (forall k :: 0 <= k < |at| ==> FrameIs(x, ids, at[k], frames[k]))
    && (forall a, f :: FrameIs(x, ids, a, f) ==> a in at)
  }

  ghost predicate IsStackOf(x: Tables, ids: seq<u64>, frames: seq<FrameIdentity>) {
    exists at :: Placed(x, ids, frames, at)
  }

  // The same for the first `n` lines of one location, the `i`-th.
  ghost predicate LinesPlaced(x: Tables, l: Location, i: nat, n: nat, frames: seq<FrameIdentity>, at: seq<Position>) {
    && |at| == |frames| && Descends(at)
    && (forall k :: 0 <= k < |at| ==> at[k].location == i && at[k].line < n && LineIs(x, l, at[k].line, frames[k]))
    && (forall j: nat, f :: j < n && LineIs(x, l, j, f) ==> Position(i, j) in at)
  }

  lemma {:induction false} LinesArePlaced(x: Tables, l: Location, i: nat, n: nat) returns (at: seq<Position>)
    requires l.lines != [] && n <= |l.lines|
    ensures LinesPlaced(x, l, i, n, LocationFrames(x, l, n), at)
    decreases n
  {
    if n == 0 {
      at := [];
    } else {
      hide LinesPlaced;
      var rest := LinesArePlaced(x, l, i, n - 1);
      var here: seq<Position> := [];
      if l.lines[n - 1].functionId in x.functions {
        here := [Position(i, n - 1)];
        LinesNext(x, l, i, n - 1, LocationFrames(x, l, n - 1), rest);
      } else {
        LinesSkip(x, l, i, n - 1, LocationFrames(x, l, n - 1), rest);
      }
      at := here + rest;
    }
  }

  lemma LinesNext(x: Tables, l: Location, i: nat, n: nat, frames: seq<FrameIdentity>, at: seq<Position>)
    requires n < |l.lines| && l.lines[n].functionId in x.functions && LinesPlaced(x, l, i, n, frames, at)
    ensures LinesPlaced(x, l, i, n + 1, [FunctionFrame(x.functions[l.lines[n].functionId].id)] + frames,
                        [Position(i, n)] + at)
  {
    var all := [Position(i, n)] + at;
    assert LineIs(x, l, n, FunctionFrame(x.functions[l.lines[n].functionId].id));
    hide Descends, LineIs;
    DescendsFrom(i, n, at);
    forall j: nat, f | j < n + 1 && LineIs(x, l, j, f) ensures Position(i, j) in all {
      if j < n {
        LinesFind(x, l, i, n, frames, at, j, f);
      } else {
        assert all[0] == Position(i, j);
      }
    }
  }

  lemma DescendsFrom(i: nat, n: nat, at: seq<Position>)
    requires Descends(at) && forall k :: 0 <= k < |at| ==> at[k].location == i && at[k].line < n
    ensures Descends([Position(i, n)] + at)
  {
  }

  lemma LinesSkip(x: Tables, l: Location, i: nat, n: nat, frames: seq<FrameIdentity>, at: seq<Position>)
    requires n < |l.lines| && l.lines[n].functionId !in x.functions && LinesPlaced(x, l, i, n, frames, at)
    ensures LinesPlaced(x, l, i, n + 1, [] + frames, [] + at)
  {
    assert [] + frames == frames && [] + at == at;
  }

  lemma LinesFind(x: Tables, l: Location, i: nat, n: nat, frames: seq<FrameIdentity>, at: seq<Position>, j: nat,
                  f: FrameIdentity)
    requires LinesPlaced(x, l, i, n, frames, at) && j < n && LineIs(x, l, j, f)
    ensures Position(i, j) in at
  {
    hide Descends, LineIs;
  }

  lemma LocationPlaced(x: Tables, l: Location, i: nat) returns (at: seq<Position>)
    ensures LinesPlaced(x, l, i, if l.lines == [] then 1 else |l.lines|, FramesOf(x, l), at)
  {
    hide LocationFrames;
    if l.lines == [] {
      at := [Position(i, 0)];
    } else {
      at := LinesArePlaced(x, l, i, |l.lines|);
    }
  }

  lemma {:induction false} StackedPlaced(x: Tables, ids: seq<u64>) returns (at: seq<Position>)
    ensures Placed(x, ids, Stacked(x, ids), at)
    decreases |ids|
  {
    hide FramesOf;
    if ids == [] {
      at := [];
    } else {
      var i := |ids| - 1;
      var before := StackedPlaced(x, ids[..i]);
      var rest := Stacked(x, ids[..i]);
      if ids[i] in x.locations {
        var here := LocationPlaced(x, x.locations[ids[i]], i);
        at := here + before;
        assert Stacked(x, ids) == FramesOf(x, x.locations[ids[i]]) + rest;
        hide Stacked, Placed;
        PlacedNext(x, ids, FramesOf(x, x.locations[ids[i]]), here, rest, before);
      } else {
        at := before;
        assert Stacked(x, ids) == [] + rest == rest;
        hide Stacked, Placed;
        PlacedSkip(x, ids, rest, before);
      }
    }
  }

  lemma PositionsBefore(x: Tables, ids: seq<u64>, i: nat, a: Position, f: FrameIdentity)
    requires i <= |ids|
    ensures FrameIs(x, ids[..i], a, f) <==> a.location < i && FrameIs(x, ids, a, f)
  {
    hide LineIs;
  }

  lemma PlacedSkip(x: Tables, ids: seq<u64>, frames: seq<FrameIdentity>, at: seq<Position>)
    requires ids != [] && ids[|ids| - 1] !in x.locations && Placed(x, ids[..|ids| - 1], frames, at)
    ensures Placed(x, ids, frames, at)
  {
    hide LineIs, Descends;
    forall a, f ensures FrameIs(x, ids[..|ids| - 1], a, f) <==> FrameIs(x, ids, a, f) {
      PositionsBefore(x, ids, |ids| - 1, a, f);
    }
  }

  // The position resolves.
  ghost predicate Occupied(x: Tables, ids: seq<u64>, a: Position) {
    exists f :: FrameIs(x, ids, a, f)
  }

  lemma OccupiedBy(x: Tables, ids: seq<u64>, a: Position) returns (f: FrameIdentity)
    requires Occupied(x, ids, a)
    ensures FrameIs(x, ids, a, f)
  {
    hide FrameIs;
    f :| FrameIs(x, ids, a, f);
  }

  lemma IsOccupied(x: Tables, ids: seq<u64>, a: Position, f: FrameIdentity)
    requires FrameIs(x, ids, a, f)
    ensures Occupied(x, ids, a)
  {
    hide FrameIs;
  }

  // What `Placed` says, piece by piece.
  lemma PlacedAt(x: Tables, ids: seq<u64>, frames: seq<FrameIdentity>, at: seq<Position>, k: nat)
    requires Placed(x, ids, frames, at) && k < |at|
    ensures |frames| == |at| && FrameIs(x, ids, at[k], frames[k])
  {
    hide FrameIs, Descends;
  }

  lemma PlacedHas(x: Tables, ids: seq<u64>, frames: seq<FrameIdentity>, at: seq<Position>, a: Position,
                  f: FrameIdentity)
    requires Placed(x, ids, frames, at) && FrameIs(x, ids, a, f)
    ensures a in at
  {
    hide FrameIs, Descends;
  }

  lemma PlacedDescends(x: Tables, ids: seq<u64>, frames: seq<FrameIdentity>, at: seq<Position>)
    requires Placed(x, ids, frames, at)
    ensures |frames| == |at| && Descends(at)
  {
    hide FrameIs, Descends;
  }

  lemma LinesPlacedHere(x: Tables, ids: seq<u64>, some: seq<FrameIdentity>, here: seq<Position>)
    requires ids != [] && ids[|ids| - 1] in x.locations
    requires var l := x.locations[ids[|ids| - 1]];
      LinesPlaced(x, l, |ids| - 1, if l.lines == [] then 1 else |l.lines|, some, here)
    ensures |some| == |here| && Descends(here)
    ensures forall k :: 0 <= k < |here| ==> here[k].location == |ids| - 1 && FrameIs(x, ids, here[k], some[k])
  {
    hide LineIs, Descends;
  }

  lemma PlacedNext(x: Tables, ids: seq<u64>, some: seq<FrameIdentity>, here: seq<Position>, rest: seq<FrameIdentity>,
                   before: seq<Position>)
    requires ids != [] && ids[|ids| - 1] in x.locations
    requires var l := x.locations[ids[|ids| - 1]];
      LinesPlaced(x, l, |ids| - 1, if l.lines == [] then 1 else |l.lines|, some, here)
    requires Placed(x, ids[..|ids| - 1], rest, before)
    ensures Placed(x, ids, some + rest, here + before)
  {
    hide Placed, LinesPlaced, FrameIs, LineIs, Descends;
    var at, frames := here + before, some + rest;
    PlacedDescends(x, ids[..|ids| - 1], rest, before);
    LinesPlacedHere(x, ids, some, here);
    PlacedBefore(x, ids, rest, before);
    DescendsOn(here, before, |ids| - 1);
    forall k | 0 <= k < |at| ensures FrameIs(x, ids, at[k], frames[k]) {
      if k < |here| {
        assert at[k] == here[k] && frames[k] == some[k];
      } else {
        assert at[k] == before[k - |here|] && frames[k] == rest[k - |here|];
      }
    }
    forall a, f | FrameIs(x, ids, a, f) ensures a in at {
      PlacedEither(x, ids, some, here, rest, before, a, f);
    }
    PlacedBy(x, ids, frames, at);
  }

  lemma PlacedBy(x: Tables, ids: seq<u64>, frames: seq<FrameIdentity>, at: seq<Position>)
    requires |at| == |frames| && Descends(at)
    requires forall k :: 0 <= k < |at| ==> FrameIs(x, ids, at[k], frames[k])
    requires forall a, f :: FrameIs(x, ids, a, f) ==> a in at
    ensures Placed(x, ids, frames, at)
  {
    hide FrameIs, Descends;
  }

  lemma PlacedBefore(x: Tables, ids: seq<u64>, rest: seq<FrameIdentity>, before: seq<Position>)
    requires ids != [] && Placed(x, ids[..|ids| - 1], rest, before)
    ensures |rest| == |before|
    ensures forall k :: 0 <= k < |before| ==> before[k].location < |ids| - 1 && FrameIs(x, ids, before[k], rest[k])
  {
    hide Placed, FrameIs, Descends;
    PlacedDescends(x, ids[..|ids| - 1], rest, before);
    forall k | 0 <= k < |before| ensures before[k].location < |ids| - 1 && FrameIs(x, ids, before[k], rest[k]) {
      PlacedAt(x, ids[..|ids| - 1], rest, before, k);
      PositionsBefore(x, ids, |ids| - 1, before[k], rest[k]);
    }
  }

  lemma PlacedEither(x: Tables, ids: seq<u64>, some: seq<FrameIdentity>, here: seq<Position>,
                     rest: seq<FrameIdentity>, before: seq<Position>, a: Position, f: FrameIdentity)
    requires ids != [] && ids[|ids| - 1] in x.locations
    requires var l := x.locations[ids[|ids| - 1]];
      LinesPlaced(x, l, |ids| - 1, if l.lines == [] then 1 else |l.lines|, some, here)
    requires Placed(x, ids[..|ids| - 1], rest, before) && FrameIs(x, ids, a, f)
    ensures a in here || a in before
  {
    hide Placed, LinesPlaced, LineIs;
    var i := |ids| - 1;
    if a.location == i {
      LinesHave(x, x.locations[ids[i]], i, some, here, a.line, f);
      assert a == Position(i, a.line);
    } else {
      PositionsBefore(x, ids, i, a, f);
      PlacedHas(x, ids[..i], rest, before, a, f);
    }
  }

  lemma DescendsOn(here: seq<Position>, before: seq<Position>, i: nat)
    requires Descends(here) && Descends(before)
    requires forall k :: 0 <= k < |here| ==> here[k].location == i
    requires forall k :: 0 <= k < |before| ==> before[k].location < i
    ensures Descends(here + before)
  {
  }

  lemma LinesHave(x: Tables, l: Location, i: nat, frames: seq<FrameIdentity>, at: seq<Position>, j: nat,
                  f: FrameIdentity)
    requires LinesPlaced(x, l, i, if l.lines == [] then 1 else |l.lines|, frames, at) && LineIs(x, l, j, f)
    ensures Position(i, j) in at
  {
    hide Descends;
    assert j < if l.lines == [] then 1 else |l.lines|;
    hide LineIs;
  }

  /** The positions are these. */
  lemma PositionsAre(x: Tables, ids: seq<u64>, frames: seq<FrameIdentity>, at: seq<Position>, where: seq<Position>)
    requires Placed(x, ids, frames, at) && Descends(where)
    requires forall a, f :: FrameIs(x, ids, a, f) ==> a in where
    requires forall k :: 0 <= k < |where| ==> Occupied(x, ids, where[k])
    ensures at == where
  {
    hide FrameIs, Placed, Descends, Occupied;
    PlacedDescends(x, ids, frames, at);
    forall a ensures a in at <==> a in where {
      if a in at {
        var k :| 0 <= k < |at| && at[k] == a;
        PlacedAt(x, ids, frames, at, k);
      }
      if a in where {
        var k :| 0 <= k < |where| && where[k] == a;
        var f := OccupiedBy(x, ids, a);
        PlacedHas(x, ids, frames, at, a, f);
      }
    }
    SameOrder(at, where);
  }

  lemma OutermostFirst(a: seq<Position>, p: Position)
    requires Descends(a) && p in a
    ensures a != [] && (p == a[0] || (p in a[1..] && Outside(a[0], p)))
  {
    var i :| 0 <= i < |a| && a[i] == p;
    if i > 0 {
      assert a[1..][i - 1] == p;
    }
  }

  lemma {:induction false} SameOrder(a: seq<Position>, b: seq<Position>)
    requires Descends(a) && Descends(b) && forall p :: p in a <==> p in b
    ensures a == b
    decreases |a|
  {
    var first := if b == [] then Position(0, 0) else b[0];
    assert b != [] ==> first in b;
    if a != [] {
      assert a[0] in a;
      OutermostFirst(b, a[0]);
      assert b[0] in b;
      OutermostFirst(a, b[0]);
      assert a[0] == b[0];
      forall p ensures p in a[1..] <==> p in b[1..] {
        if p in a[1..] {
          assert p in a;
          TailOutside(a, p);
          OutermostFirst(b, p);
        }
        if p in b[1..] {
          assert p in b;
          TailOutside(b, p);
          OutermostFirst(a, p);
        }
      }
      SameOrder(a[1..], b[1..]);
      assert a == [a[0]] + a[1..] && b == [b[0]] + b[1..];
    }
  }

  lemma TailOutside(a: seq<Position>, p: Position)
    requires Descends(a) && a != [] && p in a[1..]
    ensures p != a[0]
  {
    var i :| 0 <= i < |a[1..]| && a[1..][i] == p;
    assert Outside(a[0], a[i + 1]);
  }

  /** The frame that is charged with a sample's own cost: that of the first line of its first location, or that
      location's address if it has no lines. */
  lemma LeafFrame(x: Tables, ids: seq<u64>, frames: seq<FrameIdentity>)
    requires IsStackOf(x, ids, frames) && ids != [] && ids[0] in x.locations
    requires var lines := x.locations[ids[0]].lines; lines == [] || lines[0].functionId in x.functions
    ensures frames != []
    ensures var l, leaf := x.locations[ids[0]], frames[|frames| - 1];
      leaf == if l.lines == [] then AddressFrame(l.address)
              else FunctionFrame(x.functions[l.lines[0].functionId].id)
  {
    hide Placed;
    var at :| Placed(x, ids, frames, at);
    var l := x.locations[ids[0]];
    var leaf := if l.lines == [] then AddressFrame(l.address) else FunctionFrame(x.functions[l.lines[0].functionId].id);
    PlacedHas(x, ids, frames, at, Position(0, 0), leaf);
    var k :| 0 <= k < |at| && at[k] == Position(0, 0);
    PlacedDescends(x, ids, frames, at);
    assert k < |at| - 1 ==> Outside(at[k], at[|at| - 1]);
    PlacedAt(x, ids, frames, at, k);
  }

  /** Where every location has one line, the k-th frame is that of the k-th location from the end. */
  lemma PlainStack(x: Tables, ids: seq<u64>, frames: seq<FrameIdentity>)
    requires IsStackOf(x, ids, frames)
    requires forall i :: 0 <= i < |ids| ==> ids[i] in x.locations && |x.locations[ids[i]].lines| == 1
                                            && x.locations[ids[i]].lines[0].functionId in x.functions
    ensures |frames| == |ids|
    ensures forall k :: 0 <= k < |ids| ==>
      frames[k] == FunctionFrame(x.functions[x.locations[ids[|ids| - 1 - k]].lines[0].functionId].id)
  {
    hide Placed;
    var at :| Placed(x, ids, frames, at);
    var where := seq(|ids|, k requires 0 <= k < |ids| => Position(|ids| - 1 - k, 0));
    forall a, f | FrameIs(x, ids, a, f) ensures a in where {
      assert where[|ids| - 1 - a.location] == a;
    }
    forall k | 0 <= k < |where| ensures Occupied(x, ids, where[k]) {
      IsOccupied(x, ids, where[k], FunctionFrame(x.functions[x.locations[ids[|ids| - 1 - k]].lines[0].functionId].id));
    }
    PositionsAre(x, ids, frames, at, where);
    PlacedDescends(x, ids, frames, at);
    forall k | 0 <= k < |ids|
      ensures frames[k] == FunctionFrame(x.functions[x.locations[ids[|ids| - 1 - k]].lines[0].functionId].id)
    {
      PlacedAt(x, ids, frames, at, k);
    }
  }

  /** Of a single location with resolved lines, the k-th frame is that of the k-th line from the end. */
  lemma InlinedFrames(x: Tables, id: u64, frames: seq<FrameIdentity>)
    requires IsStackOf(x, [id], frames) && id in x.locations && x.locations[id].lines != []
    requires forall j :: 0 <= j < |x.locations[id].lines| ==> x.locations[id].lines[j].functionId in x.functions
    ensures var lines := x.locations[id].lines;
      && |frames| == |lines|
      && forall k :: 0 <= k < |lines| ==>
           frames[k] == FunctionFrame(x.functions[lines[|lines| - 1 - k].functionId].id)
  {
    hide Placed;
    var lines := x.locations[id].lines;
    var at :| Placed(x, [id], frames, at);
    var where := seq(|lines|, k requires 0 <= k < |lines| => Position(0, |lines| - 1 - k));
    forall a, f | FrameIs(x, [id], a, f) ensures a in where {
      assert where[|lines| - 1 - a.line] == a;
    }
    forall k | 0 <= k < |where| ensures Occupied(x, [id], where[k]) {
      IsOccupied(x, [id], where[k], FunctionFrame(x.functions[lines[|lines| - 1 - k].functionId].id));
    }
    PositionsAre(x, [id], frames, at, where);
    PlacedDescends(x, [id], frames, at);
    forall k | 0 <= k < |lines|
      ensures frames[k] == FunctionFrame(x.functions[lines[|lines| - 1 - k].functionId].id)
    {
      PlacedAt(x, [id], frames, at, k);
    }
  }

  // ----- Attribution -----

  // A sample whose selected value is there, with its resolved stack.
  type Weighed = s: Stack<FrameIdentity> | InI64(s.value) witness Stack([], 0)

  datatype FrameStat = FrameStat(flat: int, cumulative: int)

  datatype Report = Report(total: int, frames: map<FrameIdentity, FrameStat>, stacks: map<seq<FrameIdentity>, int>)

  const NO_STAT: FrameStat := FrameStat(0, 0)
  const NO_REPORT: Report := Report(0, map[], map[])

  function StatOf(frames: map<FrameIdentity, FrameStat>, f: FrameIdentity): FrameStat {
    if f in frames then frames[f] else NO_STAT
  }

  function SaturatingAbs(v: i64): i64 {
    if v == I64_MIN then I64_MAX else if v < 0 then -v else v
  }

  /** The samples with a value at the selected index. */
  function Samples(x: Tables, samples: seq<Sample>, index: nat): seq<Weighed> {
    if samples == [] then []
    else
      var s := samples[|samples| - 1];
      Samples(x, samples[..|samples| - 1], index)
      + if index < |s.values| then [Stack(Stacked(x, s.locationIds), s.values[index])] else []
  }

  /** The profile's samples that have a value at the index, in their order, each with its stack. */
  ghost predicate Weighs(x: Tables, items: seq<Sample>, index: nat, samples: seq<Weighed>, from: seq<nat>) {
    && |from| == |samples|
    && (forall k, m :: 0 <= k < m < |from| ==> from[k] < from[m])
    && (forall i: nat :: i in from <==> i < |items| && index < |items[i].values|)
    && (forall k :: 0 <= k < |from| ==> IsWeighed(x, items, index, from[k], samples[k]))
  }

  ghost predicate IsWeighed(x: Tables, items: seq<Sample>, index: nat, i: nat, w: Weighed) {
    && i < |items| && index < |items[i].values|
    && w.value == items[i].values[index] && IsStackOf(x, items[i].locationIds, w.frames)
  }

  lemma {:induction false} SamplesWeigh(x: Tables, items: seq<Sample>, index: nat) returns (from: seq<nat>)
    ensures Weighs(x, items, index, Samples(x, items, index), from)
    decreases |items|
  {
    if items == [] {
      from := [];
    } else {
      hide Weighs, Stacked;
      var n := |items| - 1;
      var before := SamplesWeigh(x, items[..n], index);
      from := before + if index < |items[n].values| then [n] else [];
      StackIsStacked(x, items[n].locationIds);
      WeighsNext(x, items, index, Samples(x, items[..n], index), before, Stacked(x, items[n].locationIds));
    }
  }

  lemma WeighsNext(x: Tables, items: seq<Sample>, index: nat, samples: seq<Weighed>, from: seq<nat>,
                   frames: seq<FrameIdentity>)
    requires items != [] && Weighs(x, items[..|items| - 1], index, samples, from)
    requires IsStackOf(x, items[|items| - 1].locationIds, frames)
    ensures var last := items[|items| - 1];
      if index < |last.values|
        then Weighs(x, items, index, samples + [Stack(frames, last.values[index])], from + [|items| - 1])
      else Weighs(x, items, index, samples + [], from + [])
  {
    hide IsStackOf;
    var n := |items| - 1;
    forall k | 0 <= k < |from| ensures from[k] < n && IsWeighed(x, items, index, from[k], samples[k]) {
      assert IsWeighed(x, items[..n], index, from[k], samples[k]);
    }
    forall i: nat | i < n ensures i in from <==> index < |items[i].values| {
      assert items[..n][i] == items[i];
    }
    assert samples + [] == samples && from + [] == from;
  }

  lemma StackIsStacked(x: Tables, ids: seq<u64>)
    ensures IsStackOf(x, ids, Stacked(x, ids))
  {
    hide Placed;
    var at := StackedPlaced(x, ids);
  }

  // Flat: the samples whose leaf is `f`.  Cumulative: those that have it anywhere.  Sums as they come.
  function Flat(samples: seq<Weighed>, f: FrameIdentity, saturating: bool): int {
    if samples == [] then 0
    else
      var s := samples[|samples| - 1];
      var before := Flat(samples[..|samples| - 1], f, saturating);
      if s.frames != [] && s.frames[|s.frames| - 1] == f then Plus(saturating, before, s.value) else before
  }

  function Cumulative(samples: seq<Weighed>, f: FrameIdentity, saturating: bool): int {
    if samples == [] then 0
    else
      var s := samples[|samples| - 1];
      var before := Cumulative(samples[..|samples| - 1], f, saturating);
      if f in s.frames then Plus(saturating, before, s.value) else before
  }

  function StackValue(samples: seq<Weighed>, frames: seq<FrameIdentity>, saturating: bool): int {
    if samples == [] then 0
    else
      var s := samples[|samples| - 1];
      var before := StackValue(samples[..|samples| - 1], frames, saturating);
      if s.frames == frames then Plus(saturating, before, s.value) else before
  }

  function Total(samples: seq<Weighed>, saturating: bool): int {
    if samples == [] then 0
    else
      var v := samples[|samples| - 1].value;
      Plus(saturating, Total(samples[..|samples| - 1], saturating), if saturating then SaturatingAbs(v) else Abs(v))
  }

  /** The report attributes exactly this to every frame and stack, and lists no other. */
  ghost predicate Attributes(r: Report, samples: seq<Weighed>) {
    && r.total == Total(samples, true)
    && (forall f :: StatOf(r.frames, f) == FrameStat(Flat(samples, f, true), Cumulative(samples, f, true)))
    && (forall f :: f in r.frames <==> exists i :: 0 <= i < |samples| && f in samples[i].frames)
    && (forall frames ::
          (if frames in r.stacks then r.stacks[frames] else 0) ==
          if frames == [] then 0 else StackValue(samples, frames, true))
    && (forall frames ::
          frames in r.stacks <==>
          frames != [] && exists i :: 0 <= i < |samples| && samples[i].frames == frames)
  }

  // A frame's costs after one more sample, if it is on its stack.
  function Counted(stats: map<FrameIdentity, FrameStat>, f: FrameIdentity, onStack: bool, value: i64): FrameStat {
    var stat := StatOf(stats, f);
    if onStack then stat.(cumulative := Plus(true, stat.cumulative, value)) else stat
  }

  // One sample's frames, each counted once.
  method AddFrames(stats: map<FrameIdentity, FrameStat>, frames: seq<FrameIdentity>,
                   value: i64) returns (r: map<FrameIdentity, FrameStat>)
    ensures r.Keys == stats.Keys + (set i | 0 <= i < |frames| :: frames[i])
    ensures forall f :: StatOf(r, f) == Counted(stats, f, f in frames, value)
  {
    r := stats;
    var seen: set<FrameIdentity> := {};
    for i := 0 to |frames|
      invariant seen == set j | 0 <= j < i :: frames[j]
      invariant r.Keys == stats.Keys + seen
      invariant forall f :: StatOf(r, f) == Counted(stats, f, f in seen, value)
    {
      var f := frames[i];
      if f !in seen {
        seen := seen + {f};
        var stat := StatOf(r, f);
        r := r[f := stat.(cumulative := Plus(true, stat.cumulative, value))];
      }
    }
    assert forall f :: f in seen <==> f in frames;
  }

  lemma AttributesNext(r: Report, q: Report, samples: seq<Weighed>, s: Weighed)
    requires Attributes(r, samples)
    requires q.total == Plus(true, r.total, SaturatingAbs(s.value))
    requires q.stacks == if s.frames == [] then r.stacks
      else r.stacks[s.frames := Plus(true, if s.frames in r.stacks then r.stacks[s.frames] else 0, s.value)]
    requires q.frames.Keys == r.frames.Keys + set i | 0 <= i < |s.frames| :: s.frames[i]
    requires forall f :: StatOf(q.frames, f) == FrameStat(
      if s.frames != [] && s.frames[|s.frames| - 1] == f then Plus(true, StatOf(r.frames, f).flat, s.value)
        else StatOf(r.frames, f).flat,
      if f in s.frames then Plus(true, StatOf(r.frames, f).cumulative, s.value) else StatOf(r.frames, f).cumulative)
    ensures Attributes(q, samples + [s])
  {
    var all := samples + [s];
    SumsNext(samples, s);
    hide SaturatingAbs, Plus, Flat, Cumulative, StackValue, Total;
    forall f ensures f in q.frames <==> exists i :: 0 <= i < |all| && f in all[i].frames {
      KeysNext(r, q, samples, s, f);
    }
    forall frames ensures frames in q.stacks <==>
      frames != [] && exists i :: 0 <= i < |all| && all[i].frames == frames {
      StacksNext(r, q, samples, s, frames);
    }
    forall frames
      ensures (if frames in q.stacks then q.stacks[frames] else 0) ==
        if frames == [] then 0 else StackValue(all, frames, true)
    {
      assert (if frames in r.stacks then r.stacks[frames] else 0) ==
        if frames == [] then 0 else StackValue(samples, frames, true);
    }
  }

  // What one more sample brings.
  lemma SumsNext(samples: seq<Weighed>, s: Weighed)
    ensures Total(samples + [s], true) == Plus(true, Total(samples, true), SaturatingAbs(s.value))
    ensures forall f ::
      Flat(samples + [s], f, true) ==
        if s.frames != [] && s.frames[|s.frames| - 1] == f then Plus(true, Flat(samples, f, true), s.value)
        else Flat(samples, f, true)
    ensures forall f ::
      Cumulative(samples + [s], f, true) ==
        if f in s.frames then Plus(true, Cumulative(samples, f, true), s.value) else Cumulative(samples, f, true)
    ensures forall frames ::
      StackValue(samples + [s], frames, true) ==
        if s.frames == frames then Plus(true, StackValue(samples, frames, true), s.value)
        else StackValue(samples, frames, true)
  {
    assert (samples + [s])[..|samples|] == samples;
    hide Plus, SaturatingAbs;
  }

  lemma KeysNext(r: Report, q: Report, samples: seq<Weighed>, s: Weighed, f: FrameIdentity)
    requires f in r.frames <==> exists i :: 0 <= i < |samples| && f in samples[i].frames
    requires q.frames.Keys == r.frames.Keys + set i | 0 <= i < |s.frames| :: s.frames[i]
    ensures f in q.frames <==> exists i :: 0 <= i < |samples + [s]| && f in (samples + [s])[i].frames
  {
    var all := samples + [s];
    if f in r.frames {
      var i :| 0 <= i < |samples| && f in samples[i].frames;
      assert f in all[i].frames;
    } else if f in q.frames {
      assert f in all[|samples|].frames;
    }
  }

  lemma StacksNext(r: Report, q: Report, samples: seq<Weighed>, s: Weighed, frames: seq<FrameIdentity>)
    requires frames in r.stacks <==> frames != [] && exists i :: 0 <= i < |samples| && samples[i].frames == frames
    requires q.stacks.Keys == if s.frames == [] then r.stacks.Keys else r.stacks.Keys + {s.frames}
    ensures frames in q.stacks <==>
      frames != [] && exists i :: 0 <= i < |samples + [s]| && (samples + [s])[i].frames == frames
  {
    var all := samples + [s];
    if frames in r.stacks {
      var i :| 0 <= i < |samples| && samples[i].frames == frames;
      assert all[i].frames == frames;
    } else if frames in q.stacks {
      assert all[|samples|].frames == frames;
    }
  }

  /** `from_profile`, up to ranking. */
  method FromProfile(p: Profile, index: nat) returns (r: Report)
    ensures Attributes(r, Samples(TablesOf(p), p.samples, index))
    ensures exists samples, from :: Weighs(TablesOf(p), p.samples, index, samples, from) && Attributes(r, samples)
  {
    hide Attributes, Stacked, IsStackOf, TablesOf, Weighs;
    var x := TablesOf(p);
    r := NO_REPORT;
    NothingAttributed();
    for i := 0 to |p.samples|
      invariant Attributes(r, Samples(x, p.samples[..i], index))
    {
      var sample := p.samples[i];
      ghost var before, seen := r, Samples(x, p.samples[..i], index);
      assert p.samples[..i + 1][..i] == p.samples[..i];
      if index < |sample.values| {
        var value := sample.values[index];
        var total := Plus(true, r.total, SaturatingAbs(value));
        var frames := ResolveStack(x, sample.locationIds);
        var stacks, stats := r.stacks, r.frames;
        if frames != [] {
          stacks := stacks[frames := Plus(true, if frames in stacks then stacks[frames] else 0, value)];
          var leaf := frames[|frames| - 1];
          var stat := StatOf(stats, leaf);
          stats := stats[leaf := stat.(flat := Plus(true, stat.flat, value))];
        }
        ghost var flats := stats;
        stats := AddFrames(stats, frames, value);
        r := Report(total, stats, stacks);
        StatsNext(before.frames, flats, stats, frames, value);
        AttributesNext(before, r, seen, Stack(frames, value));
      } else {
        assert seen + [] == seen;
      }
    }
    assert p.samples[..|p.samples|] == p.samples;
    ghost var from := SamplesWeigh(x, p.samples, index);
  }

  lemma NothingAttributed()
    ensures Attributes(NO_REPORT, [])
  {
  }

  // First the leaf's own cost, then every frame's.
  lemma StatsNext(before: map<FrameIdentity, FrameStat>, flats: map<FrameIdentity, FrameStat>,
                  after: map<FrameIdentity, FrameStat>,
                  frames: seq<FrameIdentity>, value: i64)
    requires flats == if frames == [] then before
      else
        var leaf := frames[|frames| - 1];
        before[leaf := StatOf(before, leaf).(flat := Plus(true, StatOf(before, leaf).flat, value))]
    requires after.Keys == flats.Keys + (set i | 0 <= i < |frames| :: frames[i])
    requires forall f :: StatOf(after, f) == Counted(flats, f, f in frames, value)
    ensures after.Keys == before.Keys + set i | 0 <= i < |frames| :: frames[i]
    ensures forall f :: StatOf(after, f) == FrameStat(
      if frames != [] && frames[|frames| - 1] == f then Plus(true, StatOf(before, f).flat, value)
        else StatOf(before, f).flat,
      if f in frames then Plus(true, StatOf(before, f).cumulative, value) else StatOf(before, f).cumulative)
  {
    hide Plus;
  }

  // ----- Without saturation -----

  /** While the absolute values fit an int64 together, every sum is exact. */
  lemma {:induction false} SumsAreExact(samples: seq<Weighed>)
    requires AbsSum(samples) <= I64_MAX
    ensures Total(samples, true) == Total(samples, false) == AbsSum(samples)
    ensures forall f ::
      && Flat(samples, f, true) == Flat(samples, f, false)
      && Abs(Flat(samples, f, false)) <= AbsSum(samples)
    ensures forall f ::
      && Cumulative(samples, f, true) == Cumulative(samples, f, false)
      && Abs(Cumulative(samples, f, false)) <= AbsSum(samples)
    ensures forall frames ::
      && StackValue(samples, frames, true) == StackValue(samples, frames, false)
      && Abs(StackValue(samples, frames, false)) <= AbsSum(samples)
  {
    if samples != [] {
      SumsAreExact(samples[..|samples| - 1]);
    }
  }

  // Every sum of the report is the plain one.
  ghost predicate Exact(samples: seq<Weighed>) {
    && Total(samples, true) == Total(samples, false)
    && (forall f ::
          && Flat(samples, f, true) == Flat(samples, f, false)
          && Cumulative(samples, f, true) == Cumulative(samples, f, false))
    && (forall frames :: StackValue(samples, frames, true) == StackValue(samples, frames, false))
  }

  /** The exact condition: nothing in the report saturates exactly if the absolute values of all samples
      together are an int64. */
  lemma ExactlyWhenFits(samples: seq<Weighed>)
    ensures Exact(samples) <==> AbsSum(samples) <= I64_MAX
  {
    PlainTotal(samples);
    if AbsSum(samples) <= I64_MAX {
      SumsAreExact(samples);
    }
  }

  lemma {:induction false} PlainTotal(samples: seq<Weighed>)
    ensures Total(samples, false) == AbsSum(samples) && Total(samples, true) <= I64_MAX
  {
    if samples != [] {
      PlainTotal(samples[..|samples| - 1]);
    }
  }

  // One frame's and one stack's sums, after each sample.
  ghost predicate FrameSumsFit(samples: seq<Weighed>, f: FrameIdentity) {
    samples == []
    || (&& FrameSumsFit(samples[..|samples| - 1], f)
        && InI64(Flat(samples, f, false)) && InI64(Cumulative(samples, f, false)))
  }

  ghost predicate FrameSumsExact(samples: seq<Weighed>, f: FrameIdentity) {
    && Flat(samples, f, true) == Flat(samples, f, false)
    && Cumulative(samples, f, true) == Cumulative(samples, f, false)
    && (samples == [] || FrameSumsExact(samples[..|samples| - 1], f))
  }

  /** For a single frame: its sums are the plain ones all along exactly if its own running sums are int64s. */
  lemma {:induction false} FrameExactlyWhenFits(samples: seq<Weighed>, f: FrameIdentity)
    ensures FrameSumsExact(samples, f) <==> FrameSumsFit(samples, f)
    ensures InI64(Flat(samples, f, true)) && InI64(Cumulative(samples, f, true))
  {
    if samples != [] {
      FrameExactlyWhenFits(samples[..|samples| - 1], f);
    }
  }

  /** What one sample brings: its value to its innermost frame itself, to each of its frames in all, and to its
      stack; and its absolute value to the total. */
  lemma CostsOfOne(s: Weighed, f: FrameIdentity, frames: seq<FrameIdentity>)
    ensures Flat([s], f, false) == if s.frames != [] && s.frames[|s.frames| - 1] == f then s.value else 0
    ensures Cumulative([s], f, false) == if f in s.frames then s.value else 0
    ensures StackValue([s], frames, false) == if s.frames == frames then s.value else 0
    ensures Total([s], false) == if s.value < 0 then -s.value else s.value
  {
    assert [s][..0] == [];
  }

  /** Apart from saturation, the costs of two lists of samples add up. */
  lemma {:induction false} CostsAdd(a: seq<Weighed>, b: seq<Weighed>, f: FrameIdentity, frames: seq<FrameIdentity>)
    ensures Flat(a + b, f, false) == Flat(a, f, false) + Flat(b, f, false)
    ensures Cumulative(a + b, f, false) == Cumulative(a, f, false) + Cumulative(b, f, false)
    ensures StackValue(a + b, frames, false) == StackValue(a, frames, false) + StackValue(b, frames, false)
    ensures Total(a + b, false) == Total(a, false) + Total(b, false)
    decreases |b|
  {
    if b == [] {
      assert a + b == a;
    } else {
      var n := |b| - 1;
      CostsAdd(a, b[..n], f, frames);
      assert (a + b)[..|a + b| - 1] == a + b[..n];
    }
  }

  /** Non-negative samples: a frame costs no more itself than with what it calls, and no more than all. */
  lemma {:induction false} CostsAreOrdered(samples: seq<Weighed>, f: FrameIdentity)
    requires forall i :: 0 <= i < |samples| ==> samples[i].value >= 0
    ensures 0 <= Flat(samples, f, false) <= Cumulative(samples, f, false) <= Total(samples, false)
  {
    if samples != [] {
      CostsAreOrdered(samples[..|samples| - 1], f);
    }
  }

  function FlatSum(frames: seq<FrameIdentity>, samples: seq<Weighed>): int {
    if frames == [] then 0 else FlatSum(frames[..|frames| - 1], samples) + Flat(samples, frames[|frames| - 1], false)
  }

  function StackSum(stacks: seq<seq<FrameIdentity>>, samples: seq<Weighed>): int {
    if stacks == [] then 0
      else StackSum(stacks[..|stacks| - 1], samples) + StackValue(samples, stacks[|stacks| - 1], false)
  }

  // The samples that have a stack.
  function ValueSum(samples: seq<Weighed>): int {
    if samples == [] then 0
    else
      ValueSum(samples[..|samples| - 1])
      + if samples[|samples| - 1].frames == [] then 0 else samples[|samples| - 1].value
  }

  lemma {:induction false} FlatSumNext(frames: seq<FrameIdentity>, samples: seq<Weighed>)
    requires samples != [] && forall i, j :: 0 <= i < j < |frames| ==> frames[i] != frames[j]
    ensures var s := samples[|samples| - 1];
      FlatSum(frames, samples) == FlatSum(frames, samples[..|samples| - 1])
        + if s.frames != [] && s.frames[|s.frames| - 1] in frames then s.value else 0
    decreases |frames|
  {
    if frames != [] {
      var before := frames[..|frames| - 1];
      FlatSumNext(before, samples);
      assert frames == before + [frames[|frames| - 1]];
    }
  }

  lemma {:induction false} StackSumNext(stacks: seq<seq<FrameIdentity>>, samples: seq<Weighed>)
    requires samples != [] && forall i, j :: 0 <= i < j < |stacks| ==> stacks[i] != stacks[j]
    ensures var s := samples[|samples| - 1];
      StackSum(stacks, samples) == StackSum(stacks, samples[..|samples| - 1])
        + if s.frames in stacks then s.value else 0
    decreases |stacks|
  {
    if stacks != [] {
      var before := stacks[..|stacks| - 1];
      StackSumNext(before, samples);
      assert stacks == before + [stacks[|stacks| - 1]];
    }
  }

  lemma {:induction false} NoFlats(frames: seq<FrameIdentity>)
    ensures FlatSum(frames, []) == 0
  {
    if frames != [] {
      NoFlats(frames[..|frames| - 1]);
    }
  }

  lemma {:induction false} NoStacks(stacks: seq<seq<FrameIdentity>>)
    ensures StackSum(stacks, []) == 0
  {
    if stacks != [] {
      NoStacks(stacks[..|stacks| - 1]);
    }
  }

  /** Over all frames that are a leaf, each once, own costs add up to what the samples do. */
  lemma {:induction false} FlatsAddUp(frames: seq<FrameIdentity>, samples: seq<Weighed>)
    requires forall i, j :: 0 <= i < j < |frames| ==> frames[i] != frames[j]
    requires forall i :: 0 <= i < |samples| && samples[i].frames != [] ==>
      samples[i].frames[|samples[i].frames| - 1] in frames
    ensures FlatSum(frames, samples) == ValueSum(samples)
    decreases |samples|
  {
    if samples == [] {
      NoFlats(frames);
    } else {
      FlatsAddUp(frames, samples[..|samples| - 1]);
      FlatSumNext(frames, samples);
    }
  }

  /** And so do the stacks, each once. */
  lemma {:induction false} StacksAddUp(stacks: seq<seq<FrameIdentity>>, samples: seq<Weighed>)
    requires forall i, j :: 0 <= i < j < |stacks| ==> stacks[i] != stacks[j]
    requires [] !in stacks
    requires forall i :: 0 <= i < |samples| && samples[i].frames != [] ==> samples[i].frames in stacks
    ensures StackSum(stacks, samples) == ValueSum(samples)
    decreases |samples|
  {
    if samples == [] {
      NoStacks(stacks);
    } else {
      StacksAddUp(stacks, samples[..|samples| - 1]);
      StackSumNext(stacks, samples);
    }
  }
}
