/** Export of a heap profile as pprof: `HeapProfile::to_pprof` of `src/heap/mod.rs`.  The output is
    accepted by the validation of heap profiles, its samples resolve back to the frames they came from
    with all their values, and decoding what it encodes to gives it back unchanged. */
module HeapExport {
  import opened Prelude
  import opened Pprof
  import opened HeapModel
  import opened HeapValidation
  import Codec = PprofCodec

  // ----- Names -----

  function HexDigit(d: int): u8
    requires 0 <= d < 16
  {
    if d < 10 then 48 + d else 87 + d
  }

  // The last `n` hexadecimal digits.
  function HexDigits(v: nat, n: nat): (t: Text)
    ensures |t| == n
    decreases n, v
  {
    if n == 0 then [] else HexDigits(v / 16, n - 1) + [HexDigit(v % 16)]
  }

  /** `format!("0x{:016x}")`. */
  function HexName(address: u64): (t: Text)
    ensures |t| == 18
  {
    [48, 120] + HexDigits(address, 16)
  }

  /** A frame without a name is called by its address. */
  function Named(f: HeapFrame): HeapFrame {
    if f.name == [] then f.(name := HexName(f.address)) else f
  }

  // ----- Well-formed text -----

  predicate AsciiOnly(t: Text) {
    forall i :: 0 <= i < |t| ==> t[i] < 0x80
  }

  lemma {:induction false} AsciiIsWellFormed(t: Text)
    requires AsciiOnly(t)
    ensures Codec.ValidUtf8(t)
  {
    if t != [] {
      AsciiIsWellFormed(t[1..]);
    }
  }

  lemma {:induction false} HexDigitsAscii(v: nat, n: nat)
    ensures AsciiOnly(HexDigits(v, n))
    decreases n, v
  {
    if n > 0 {
      HexDigitsAscii(v / 16, n - 1);
    }
  }

  lemma HexNameWellFormed(address: u64)
    ensures Codec.ValidUtf8(HexName(address))
  {
    HexDigitsAscii(address, 16);
    AsciiIsWellFormed(HexName(address));
  }

  // What Rust's `String` guarantees of the input.
  ghost predicate MappingText(m: HeapMapping) {
    Codec.ValidUtf8(m.filename) && Codec.ValidUtf8(m.buildId)
  }

  ghost predicate FrameText(f: HeapFrame) {
    Codec.ValidUtf8(f.name) && Codec.ValidUtf8(f.file) && (f.mapping.Some? ==> MappingText(f.mapping.value))
  }

  // ----- Frames of a profile -----

  // Every frame of the samples.
  function Frames(samples: map<Stack, HeapValues>): set<HeapFrame> {
    set s, i | s in samples && 0 <= i < |s| :: s[i]
  }

  // Every image of some frames.
  function Images(frames: set<HeapFrame>): set<HeapMapping> {
    set f | f in frames && f.mapping.Some? :: f.mapping.value
  }

  // Which of its frames' details an image has.
  datatype Flags = Flags(functions: bool, filenames: bool, lines: bool)

  ghost predicate FlagsOf(frames: set<HeapFrame>, m: HeapMapping, flags: Flags) {
    && (flags.functions <==> exists f :: f in frames && f.mapping == Some(m) && f.name != [])
    && (flags.filenames <==> exists f :: f in frames && f.mapping == Some(m) && f.file != [])
    && (flags.lines <==> exists f :: f in frames && f.mapping == Some(m) && f.line != 0)
  }

  // ----- What the tables mean -----

  function MappingMeaning(strings: StringTable, m: Mapping): HeapMapping {
    HeapMapping(m.memoryStart, m.memoryLimit, m.fileOffset, strings.Get(m.filename), strings.Get(m.buildId))
  }

  // The entry with an id, when ids count from one.
  function MappingAt(p: Profile, id: int): Option<HeapMapping> {
    if 1 <= id <= |p.mappings| then Some(MappingMeaning(p.strings, p.mappings[id - 1])) else None
  }

  function FrameMeaning(p: Profile, l: Location, f: Function): HeapFrame
    requires l.lines != []
  {
    HeapFrame(l.address, p.strings.Get(f.name), p.strings.Get(f.filename), l.lines[0].line, MappingAt(p, l.mappingId))
  }

  /** The tables as `to_pprof` builds them: ids count from one, one location and one function per frame. */
  ghost predicate MappingOk(p: Profile, i: nat)
    requires i < |p.mappings|
  {
    && p.mappings[i].id == i + 1
    && p.mappings[i].filename < |p.strings.strings| && p.mappings[i].buildId < |p.strings.strings|
  }

  ghost predicate FrameOk(p: Profile, i: nat)
    requires i < |p.functions| && i < |p.locations|
  {
    var f, l := p.functions[i], p.locations[i];
    && f.id == i + 1 && l.id == i + 1
    && f.name < |p.strings.strings| && f.systemName == f.name && f.filename < |p.strings.strings| && f.startLine == 0
    && l.mappingId <= |p.mappings| && |l.lines| == 1 && l.lines[0].functionId == f.id && l.lines[0].column == 0
      && !l.isFolded
  }

  ghost predicate StringsOk(p: Profile) {
    && p.strings.strings != [] && p.strings.strings[0] == []
    && p.strings.indices == FirstIndices(p.strings.strings)
    && Codec.WellFormedText(p.strings.strings)
  }

  ghost predicate TablesOk(p: Profile) {
    && StringsOk(p)
    && |p.functions| == |p.locations|
    && (forall i :: 0 <= i < |p.mappings| ==> MappingOk(p, i))
    && (forall i :: 0 <= i < |p.functions| ==> FrameOk(p, i))
  }

  /** The frame that a location id stands for. */
  function FrameAt(p: Profile, id: int): Option<HeapFrame> {
    if 1 <= id <= |p.locations| && id <= |p.functions| && p.locations[id - 1].lines != []
    then Some(FrameMeaning(p, p.locations[id - 1], p.functions[id - 1]))
    else None
  }

  // Only tables grow.
  ghost predicate Grew(p: Profile, q: Profile) {
    && p.strings.strings <= q.strings.strings
    && p.mappings <= q.mappings && p.functions <= q.functions && p.locations <= q.locations
  }

  lemma MappingStays(p: Profile, q: Profile, id: int)
    requires Grew(p, q) && TablesOk(p) && 1 <= id <= |p.mappings|
    ensures MappingAt(q, id) == MappingAt(p, id)
  {
    assert MappingOk(p, id - 1);
  }

  lemma FrameStays(p: Profile, q: Profile, id: int)
    requires Grew(p, q) && TablesOk(p) && 1 <= id <= |p.locations|
    ensures FrameAt(q, id) == FrameAt(p, id)
  {
    assert FrameOk(p, id - 1);
    var l := p.locations[id - 1];
    if l.mappingId > 0 {
      MappingStays(p, q, l.mappingId);
    }
    hide TablesOk;
  }

  // ----- Interning -----

  // A profile after one more string.
  ghost predicate Interned(p: Profile, q: Profile, text: Text, id: nat) {
    && q == p.(strings := q.strings)
    && p.strings.strings <= q.strings.strings && |q.strings.strings| <= |p.strings.strings| + 1
    && id < |q.strings.strings| && q.strings.strings[id] == text
    && (text != [] ==> id > 0)
    && StringsOk(q)
  }

  lemma InternOk(p: Profile, text: Text)
    requires StringsOk(p) && Codec.ValidUtf8(text)
    ensures var (table, id) := p.strings.Intern(text); Interned(p, p.(strings := table), text, id)
  {
    hide FirstIndices, Codec.ValidUtf8, StringTable.Sound;
    var (table, id) := p.strings.Intern(text);
    SoundCache(p.strings);
    p.strings.InternKeepsFirst(text);
    forall i | 0 <= i < |table.strings| ensures Codec.ValidUtf8(table.strings[i]) {
      assert table.strings[i] == text || i < |p.strings.strings|;
    }
  }

  // `p.strings.intern(text)`.
  method InternInto(p: Profile, text: Text) returns (q: Profile, id: u64)
    requires StringsOk(p) && Codec.ValidUtf8(text) && |p.strings.strings| < I64_MAX
    ensures Interned(p, q, text, id)
  {
    InternOk(p, text);
    hide StringsOk, Codec.ValidUtf8;
    var (table, index) := p.strings.Intern(text);
    q := p.(strings := table);
    id := index;
  }

  lemma SoundCache(t: StringTable)
    requires t.indices == FirstIndices(t.strings)
    ensures t.Sound()
  {
  }

  lemma StringsGrow(p: Profile, q: Profile)
    requires TablesOk(p) && StringsOk(q) && p.strings.strings <= q.strings.strings
    requires q.mappings == p.mappings && q.functions == p.functions && q.locations == p.locations
    ensures TablesOk(q) && Grew(p, q)
  {
    hide StringsOk;
    forall i | 0 <= i < |p.mappings| ensures MappingOk(q, i) {
      assert MappingOk(p, i);
    }
    forall i | 0 <= i < |p.functions| ensures FrameOk(q, i) {
      assert FrameOk(p, i);
    }
  }

  // ----- Adding to the tables -----

  lemma MappingAdded(p: Profile, q: Profile, m: Mapping)
    requires TablesOk(p) && q == p.(mappings := p.mappings + [m])
    requires m.id == |p.mappings| + 1 && m.filename < |p.strings.strings| && m.buildId < |p.strings.strings|
    ensures TablesOk(q) && Grew(p, q) && MappingAt(q, m.id) == Some(MappingMeaning(p.strings, m))
  {
    hide StringsOk;
    assert StringsOk(q) by {
      SameStrings(p, q);
    }
    forall i | 0 <= i < |q.mappings| ensures MappingOk(q, i) {
      if i < |p.mappings| {
        assert MappingOk(p, i);
      }
    }
    forall i | 0 <= i < |p.functions| ensures FrameOk(q, i) {
      assert FrameOk(p, i);
    }
  }

  lemma SameStrings(p: Profile, q: Profile)
    requires StringsOk(p) && q.strings == p.strings
    ensures StringsOk(q)
  {
  }

  lemma FrameAdded(p: Profile, q: Profile, f: Function, l: Location)
    requires TablesOk(p) && q == p.(functions := p.functions + [f], locations := p.locations + [l])
    requires f.id == |p.functions| + 1 && f.systemName == f.name && f.startLine == 0
    requires l.id == f.id && |l.lines| == 1 && l.lines[0].functionId == f.id && l.lines[0].column == 0 && !l.isFolded
    requires f.name < |p.strings.strings| && f.filename < |p.strings.strings| && l.mappingId <= |p.mappings|
    ensures TablesOk(q) && Grew(p, q) && FrameAt(q, l.id) == Some(FrameMeaning(p, l, f))
  {
    hide StringsOk;
    SameStrings(p, q);
    forall i | 0 <= i < |p.mappings| ensures MappingOk(q, i) {
      assert MappingOk(p, i);
    }
    forall i | 0 <= i < |q.functions| ensures FrameOk(q, i) {
      if i < |p.functions| {
        assert FrameOk(p, i);
      }
    }
  }

  method AddMapping(p: Profile, image: HeapMapping, flags: Flags) returns (q: Profile, id: u64)
    requires TablesOk(p) && MappingText(image)
    requires |p.mappings| < I64_MAX && |p.strings.strings| + 2 <= I64_MAX
    ensures TablesOk(q) && Grew(p, q) && q == p.(strings := q.strings, mappings := q.mappings)
    ensures |q.strings.strings| <= |p.strings.strings| + 2
    ensures |q.mappings| == id == |p.mappings| + 1 && MappingAt(q, id) == Some(image)
    ensures var m := q.mappings[id - 1];
      Flags(m.hasFunctions, m.hasFilenames, m.hasLineNumbers) == flags && !m.hasInlineFrames
  {
    hide TablesOk, StringsOk, Codec.ValidUtf8;
    id := |p.mappings| + 1;
    TablesStrings(p);
    var filename, buildId: u64;
    q, filename := InternInto(p, image.filename);
    ghost var p1 := q;
    q, buildId := InternInto(q, image.buildId);
    ghost var p2 := q;
    assert p2.strings.strings[filename] == p1.strings.strings[filename];
    StringsGrow(p, p2);
    var m := Mapping(id, image.memoryStart, image.memoryLimit, image.fileOffset, filename, buildId,
                     flags.functions, flags.filenames, flags.lines, false);
    q := q.(mappings := q.mappings + [m]);
    MappingAdded(p2, q, m);
  }

  lemma TablesStrings(p: Profile)
    requires TablesOk(p)
    ensures StringsOk(p) && |p.functions| == |p.locations|
  {
  }

  method AddFrame(p: Profile, frame: HeapFrame, mappings: map<HeapMapping, u64>) returns (q: Profile, id: u64)
    requires TablesOk(p) && FrameText(frame)
    requires |p.functions| < I64_MAX && |p.strings.strings| + 2 <= I64_MAX
    requires frame.mapping.Some? ==>
      frame.mapping.value in mappings && MappingAt(p, mappings[frame.mapping.value]) == Some(frame.mapping.value)
    ensures TablesOk(q) && Grew(p, q)
    ensures q == p.(strings := q.strings, functions := q.functions, locations := q.locations)
    ensures |q.strings.strings| <= |p.strings.strings| + 2
    ensures |q.functions| == id == |p.functions| + 1 && FrameAt(q, id) == Some(Named(frame))
  {
    hide TablesOk, StringsOk, Codec.ValidUtf8, HexName, FirstIndices, StringTable.Sound;
    id := |p.functions| + 1;
    var text := if frame.name == [] then HexName(frame.address) else frame.name;
    HexNameWellFormed(frame.address);
    TablesStrings(p);
    var name, filename: u64;
    q, name := InternInto(p, text);
    ghost var p1 := q;
    q, filename := InternInto(q, frame.file);
    ghost var p2 := q;
    assert p2.strings.strings[name] == p1.strings.strings[name];
    StringsGrow(p, p2);
    var f := Function(id, name, name, filename, 0);
    var mappingId: u64 := if frame.mapping.Some? && frame.mapping.value in mappings then mappings[frame.mapping.value]
      else 0;
    var l := Location(id, mappingId, frame.address, [Line(id, frame.line, 0)], false);
    q := q.(functions := q.functions + [f], locations := q.locations + [l]);
    TablesStrings(p2);
    if frame.mapping.Some? {
      MappingStays(p, p2, mappingId);
    }
    FrameAdded(p2, q, f, l);
  }

  lemma {:induction false} SubsetSize<T>(a: set<T>, b: set<T>)
    requires a <= b
    ensures |a| <= |b|
    decreases |a|
  {
    if a != {} {
      var x :| x in a;
      SubsetSize(a - {x}, b - {x});
    }
  }

  // ----- The samples -----

  // The mapping ids of the images.
  ghost predicate MappingsPlaced(p: Profile, mappings: map<HeapMapping, u64>) {
    forall m :: m in mappings ==> 1 <= mappings[m] <= |p.mappings| && MappingAt(p, mappings[m]) == Some(m)
  }

  // The location ids of the frames so far.
  ghost predicate FramesPlaced(p: Profile, frames: map<HeapFrame, u64>) {
    && |p.functions| == |frames|
    && (forall f :: f in frames ==> 1 <= frames[f] <= |p.locations| && FrameAt(p, frames[f]) == Some(Named(f)))
  }

  /** A sample resolves back to its stack and has all four values. */
  ghost predicate Shows(p: Profile, s: Sample, stack: Stack, values: HeapValues) {
    && IdsShow(p, s.locationIds, stack)
    && s.values == [values.allocObjects, values.allocSpace, values.inuseObjects, values.inuseSpace]
  }

  lemma MappingsStay(p: Profile, q: Profile, mappings: map<HeapMapping, u64>)
    requires Grew(p, q) && TablesOk(p) && MappingsPlaced(p, mappings)
    ensures MappingsPlaced(q, mappings)
  {
    hide TablesOk, MappingAt;
    forall m | m in mappings ensures MappingAt(q, mappings[m]) == Some(m) {
      MappingStays(p, q, mappings[m]);
    }
  }

  lemma FramesStay(p: Profile, q: Profile, frames: map<HeapFrame, u64>)
    requires Grew(p, q) && TablesOk(p) && FramesPlaced(p, frames)
    ensures forall f :: f in frames ==> 1 <= frames[f] <= |q.locations| && FrameAt(q, frames[f]) == Some(Named(f))
  {
    hide TablesOk, FrameAt, Named;
    forall f | f in frames ensures FrameAt(q, frames[f]) == Some(Named(f)) {
      FrameStays(p, q, frames[f]);
    }
  }

  lemma GrewOn(p: Profile, q: Profile, r: Profile)
    requires Grew(p, q) && Grew(q, r)
    ensures Grew(p, r)
  {
  }

  // The location ids of a stack.
  ghost predicate IdsShow(p: Profile, ids: seq<u64>, stack: Stack) {
    && |ids| == |stack|
    && forall i :: 0 <= i < |stack| ==> 1 <= ids[i] <= |p.locations| && FrameAt(p, ids[i]) == Some(Named(stack[i]))
  }

  lemma IdsStay(p: Profile, q: Profile, ids: seq<u64>, stack: Stack)
    requires Grew(p, q) && TablesOk(p) && IdsShow(p, ids, stack)
    ensures IdsShow(q, ids, stack)
  {
    hide TablesOk, FrameAt, Named;
    forall i | 0 <= i < |stack| ensures FrameAt(q, ids[i]) == Some(Named(stack[i])) {
      FrameStays(p, q, ids[i]);
    }
  }

  // The location of a frame; a frame met before keeps its location.
  method FrameId(p: Profile, frame: HeapFrame, mappings: map<HeapMapping, u64>, frames: map<HeapFrame, u64>,
                 ghost all: set<HeapFrame>)
      returns (q: Profile, known: map<HeapFrame, u64>, id: u64)
    requires TablesOk(p) && MappingsPlaced(p, mappings) && FramesPlaced(p, frames)
    requires frames.Keys <= all && frame in all
    requires FrameText(frame) && (frame.mapping.Some? ==> frame.mapping.value in mappings)
    requires |p.strings.strings| + 2 * (|all| - |frames|) <= I64_MAX && |all| <= I64_MAX
    ensures TablesOk(q) && Grew(p, q)
    ensures q == p.(strings := q.strings, functions := q.functions, locations := q.locations)
    ensures FramesPlaced(q, known) && known.Keys <= all
    ensures |q.strings.strings| + 2 * (|all| - |known|) <= |p.strings.strings| + 2 * (|all| - |frames|)
    ensures 1 <= id <= |q.locations| && FrameAt(q, id) == Some(Named(frame))
  {
    hide TablesOk, FrameAt, Named, MappingAt, FrameText, FramesPlaced, Grew;
    if frame in frames {
      id := frames[frame];
      FramePlaced(p, frames, frame);
      GrewNot(p);
      return p, frames, id;
    }
    SubsetSize(frames.Keys + {frame}, all);
    FrameCount(p, frames);
    q, id := AddFrame(p, frame, mappings);
    known := frames[frame := id];
    FramesNext(p, q, frames, frame, id);
  }

  lemma FramePlaced(p: Profile, frames: map<HeapFrame, u64>, frame: HeapFrame)
    requires FramesPlaced(p, frames) && frame in frames
    ensures 1 <= frames[frame] <= |p.locations| && FrameAt(p, frames[frame]) == Some(Named(frame))
  {
  }

  lemma FrameCount(p: Profile, frames: map<HeapFrame, u64>)
    requires FramesPlaced(p, frames)
    ensures |p.functions| == |frames|
  {
  }

  lemma FramesNext(p: Profile, q: Profile, frames: map<HeapFrame, u64>, frame: HeapFrame, id: u64)
    requires TablesOk(p) && TablesOk(q) && Grew(p, q) && FramesPlaced(p, frames) && frame !in frames
    requires |q.functions| == id == |p.functions| + 1 && FrameAt(q, id) == Some(Named(frame))
    ensures FramesPlaced(q, frames[frame := id]) && id <= |q.locations|
  {
    hide TablesOk, FrameAt, Named;
    TablesStrings(p);
    TablesStrings(q);
    FramesStay(p, q, frames);
  }

  method AddStack(p: Profile, stack: Stack, mappings: map<HeapMapping, u64>, frames: map<HeapFrame, u64>,
                  ghost all: set<HeapFrame>)
      returns (q: Profile, known: map<HeapFrame, u64>, ids: seq<u64>)
    requires TablesOk(p) && MappingsPlaced(p, mappings) && FramesPlaced(p, frames)
    requires frames.Keys <= all && forall f :: f in stack ==> f in all
    requires forall f :: f in all ==> FrameText(f) && (f.mapping.Some? ==> f.mapping.value in mappings)
    requires |p.strings.strings| + 2 * (|all| - |frames|) <= I64_MAX && |all| <= I64_MAX
    ensures TablesOk(q) && Grew(p, q)
    ensures q == p.(strings := q.strings, functions := q.functions, locations := q.locations)
    ensures FramesPlaced(q, known) && known.Keys <= all && IdsShow(q, ids, stack)
    ensures |q.strings.strings| + 2 * (|all| - |known|) <= |p.strings.strings| + 2 * (|all| - |frames|)
  {
    hide TablesOk, FrameAt, Named, FrameText, MappingsPlaced, FramesPlaced, Grew;
    q, known, ids := p, frames, [];
    GrewNot(p);
    for n := 0 to |stack|
      invariant TablesOk(q) && Grew(p, q)
      invariant q == p.(strings := q.strings, functions := q.functions, locations := q.locations)
      invariant MappingsPlaced(q, mappings) && FramesPlaced(q, known) && known.Keys <= all
      invariant IdsShow(q, ids, stack[..n])
      invariant |q.strings.strings| + 2 * (|all| - |known|) <= |p.strings.strings| + 2 * (|all| - |frames|)
    {
      assert stack[n] in stack;
      ghost var before := q;
      var id: u64;
      q, known, id := FrameId(q, stack[n], mappings, known, all);
      GrewOn(p, before, q);
      MappingsStay(before, q, mappings);
      IdsStay(before, q, ids, stack[..n]);
      ids := ids + [id];
      assert stack[..n + 1] == stack[..n] + [stack[n]];
    }
    assert stack[..|stack|] == stack;
  }

  lemma GrewNot(p: Profile)
    ensures Grew(p, p)
  {
  }

  // ----- Images -----

  method FrameFlags(flags: map<HeapMapping, Flags>, f: HeapFrame,
                    ghost frames: set<HeapFrame>) returns (r: map<HeapMapping, Flags>)
    requires flags.Keys == Images(frames) && forall m :: m in flags ==> FlagsOf(frames, m, flags[m])
    ensures r.Keys == Images(frames + {f}) && forall m :: m in r ==> FlagsOf(frames + {f}, m, r[m])
  {
    r := flags;
    if f.mapping.Some? {
      var image := f.mapping.value;
      var known := if image in flags then flags[image] else Flags(false, false, false);
      assert FlagsOf(frames, image, known);
      r := r[image := Flags(known.functions || f.name != [], known.filenames || f.file != [],
                            known.lines || f.line != 0)];
      forall m | m in r ensures FlagsOf(frames + {f}, m, r[m]) {
        FlagsGrow(frames, f, m, if m == image then known else flags[m]);
      }
    } else {
      forall m | m in r ensures FlagsOf(frames + {f}, m, r[m]) {
        FlagsGrow(frames, f, m, flags[m]);
      }
    }
    assert Images(frames + {f}) == Images(frames) + Images({f});
  }

  lemma FlagsGrow(frames: set<HeapFrame>, f: HeapFrame, m: HeapMapping, flags: Flags)
    requires FlagsOf(frames, m, flags)
    ensures FlagsOf(frames + {f}, m,
      if f.mapping == Some(m)
        then Flags(flags.functions || f.name != [], flags.filenames || f.file != [], flags.lines || f.line != 0)
          else flags)
  {
    assert forall g :: g in frames + {f} <==> g in frames || g == f;
  }

  // The details of each image, over all frames.
  method ImageFlags(samples: map<Stack, HeapValues>) returns (flags: map<HeapMapping, Flags>)
    ensures flags.Keys == Images(Frames(samples)) && forall m :: m in flags ==> FlagsOf(Frames(samples), m, flags[m])
  {
    hide FlagsOf, Images;
    flags := map[];
    var todo := samples.Keys;
    ghost var seen: set<HeapFrame> := {};
    NoImages();
    while todo != {}
      invariant todo <= samples.Keys
      invariant seen == set s, i | s in samples && s !in todo && 0 <= i < |s| :: s[i]
      invariant flags.Keys == Images(seen) && forall m :: m in flags ==> FlagsOf(seen, m, flags[m])
    {
      var stack :| stack in todo;
      ghost var before := seen;
      for i := 0 to |stack|
        invariant seen == before + set k | 0 <= k < i :: stack[k]
        invariant flags.Keys == Images(seen) && forall m :: m in flags ==> FlagsOf(seen, m, flags[m])
      {
        flags := FrameFlags(flags, stack[i], seen);
        seen := seen + {stack[i]};
      }
      todo := todo - {stack};
    }
    assert seen == Frames(samples);
  }

  lemma NoImages()
    ensures Images({}) == {}
  {
  }

  // ----- The header -----

  const ALLOC_OBJECTS: Text := Ascii("alloc_objects")
  const ALLOC_SPACE: Text := Ascii("alloc_space")
  const INUSE_OBJECTS: Text := Ascii("inuse_objects")
  const INUSE_SPACE: Text := Ascii("inuse_space")
  const COUNT: Text := Ascii("count")
  const BYTES: Text := Ascii("bytes")
  const HEAP: Text := Ascii("heap")

  const METRICS: seq<Metric> :=
    [(ALLOC_OBJECTS, COUNT), (ALLOC_SPACE, BYTES), (INUSE_OBJECTS, COUNT), (INUSE_SPACE, BYTES)]

  lemma MetricsAreHeapMetrics()
    ensures forall i, j :: 0 <= i < j < 4 ==> METRICS[i].0 != METRICS[j].0
    ensures forall i :: 0 <= i < 4 ==> HeapMetric(METRICS[i])
  {
    assert |ALLOC_OBJECTS| == |INUSE_OBJECTS| == 13 && |ALLOC_SPACE| == |INUSE_SPACE| == 11;
    assert ALLOC_OBJECTS[0] == ALLOC_SPACE[0] == 97 && INUSE_OBJECTS[0] == INUSE_SPACE[0] == 105;
  }

  ghost predicate Writable(t: Text) {
    t != [] && Codec.ValidUtf8(t)
  }

  lemma LiteralWritable(t: Text)
    requires AsciiOnly(t) && t != []
    ensures Writable(t)
  {
    AsciiIsWellFormed(t);
  }

  lemma LiteralsWritable()
    ensures Writable(ALLOC_OBJECTS) && Writable(ALLOC_SPACE) && Writable(INUSE_OBJECTS) && Writable(INUSE_SPACE)
    ensures Writable(COUNT) && Writable(BYTES) && Writable(HEAP)
  {
    hide Ascii, Writable;
    LiteralWritable(ALLOC_OBJECTS);
    LiteralWritable(ALLOC_SPACE);
    LiteralWritable(INUSE_OBJECTS);
    LiteralWritable(INUSE_SPACE);
    LiteralWritable(COUNT);
    LiteralWritable(BYTES);
    LiteralWritable(HEAP);
  }

  // The value types name these metrics.
  ghost predicate Measures(p: Profile, metrics: seq<Metric>) {
    && |p.valueTypes| == |metrics|
    && forall i :: 0 <= i < |metrics| ==>
         && 0 < p.valueTypes[i].typ < |p.strings.strings| && p.valueTypes[i].unit < |p.strings.strings|
         && p.strings.strings[p.valueTypes[i].typ] == metrics[i].0
           && p.strings.strings[p.valueTypes[i].unit] == metrics[i].1
  }

  lemma MeasuresStay(p: Profile, q: Profile, metrics: seq<Metric>)
    requires Measures(p, metrics) && q.valueTypes == p.valueTypes && p.strings.strings <= q.strings.strings
    ensures Measures(q, metrics)
  {
  }

  method AddMetric(p: Profile, name: Text, unit: Text, ghost metrics: seq<Metric>) returns (q: Profile)
    requires StringsOk(p) && Measures(p, metrics) && |p.strings.strings| + 2 <= I64_MAX
    requires Writable(name) && Writable(unit)
    ensures StringsOk(q) && Measures(q, metrics + [(name, unit)]) && |q.strings.strings| <= |p.strings.strings| + 2
    ensures q == p.(strings := q.strings, valueTypes := q.valueTypes)
  {
    hide StringsOk, Codec.ValidUtf8;
    var typ, u: u64;
    q, typ := InternInto(p, name);
    ghost var p1 := q;
    q, u := InternInto(q, unit);
    ghost var p2 := q;
    assert p2.strings.strings[typ] == p1.strings.strings[typ];
    MeasuresStay(p, p2, metrics);
    q := q.(valueTypes := q.valueTypes + [ValueType(typ, u)]);
    SameStrings(p2, q);
  }

  /** The label that tells the domain. */
  ghost predicate Labels(p: Profile, l: Label, domain: Text) {
    && 0 < l.key < |p.strings.strings| && l.strIndex < |p.strings.strings|
    && p.strings.strings[l.key] == HEAP && p.strings.strings[l.strIndex] == domain
    && l.num == 0 && l.numUnit == 0
  }

  ghost predicate Commented(p: Profile, comment: Text) {
    if comment == [] then p.comments == []
    else |p.comments| == 1 && 0 < p.comments[0] < |p.strings.strings| && p.strings.strings[p.comments[0]] == comment
  }

  // The header is complete; no tables yet.
  ghost predicate Headed(p: Profile, l: Label, domain: Text, comment: Text, time: i64) {
    && Measures(p, METRICS) && Labels(p, l, domain) && Commented(p, comment)
    && p.defaultSampleType < |p.strings.strings| && p.strings.strings[p.defaultSampleType] == INUSE_SPACE
    && p.timeNanos == time && p.durationNanos == 0 && p.periodType == NO_TYPE && p.period == 0
    && p.dropFrames == 0 && p.keepFrames == 0 && p.docUrl == 0
  }

  lemma HeadedStays(p: Profile, q: Profile, l: Label, domain: Text, comment: Text, time: i64)
    requires Headed(p, l, domain, comment, time) && p.strings.strings <= q.strings.strings
    requires q == p.(strings := q.strings, samples := q.samples, mappings := q.mappings, functions := q.functions,
                     locations := q.locations)
    ensures Headed(q, l, domain, comment, time)
  {
    MeasuresStay(p, q, METRICS);
    hide Measures;
  }

  method Header(domain: Text, comment: Text, time: i64) returns (p: Profile, l: Label)
    requires Codec.ValidUtf8(domain) && Codec.ValidUtf8(comment)
    ensures TablesOk(p) && Headed(p, l, domain, comment, time) && |p.strings.strings| <= 13
    ensures p.samples == [] && p.mappings == [] && p.functions == [] && p.locations == []
  {
    NewStringsOk();
    LiteralsWritable();
    hide StringsOk, Writable, Codec.ValidUtf8, ALLOC_OBJECTS, ALLOC_SPACE, INUSE_OBJECTS, INUSE_SPACE, COUNT, BYTES,
         HEAP;
    p := EMPTY_PROFILE.(strings := NEW_STRINGS);
    p := AddMetric(p, ALLOC_OBJECTS, COUNT, []);
    p := AddMetric(p, ALLOC_SPACE, BYTES, [(ALLOC_OBJECTS, COUNT)]);
    p := AddMetric(p, INUSE_OBJECTS, COUNT, [(ALLOC_OBJECTS, COUNT)] + [(ALLOC_SPACE, BYTES)]);
    p := AddMetric(p, INUSE_SPACE, BYTES, [(ALLOC_OBJECTS, COUNT)] + [(ALLOC_SPACE, BYTES)] + [(INUSE_OBJECTS, COUNT)]);
    assert [(ALLOC_OBJECTS, COUNT)] + [(ALLOC_SPACE, BYTES)] + [(INUSE_OBJECTS, COUNT)] + [(INUSE_SPACE, BYTES)]
      == METRICS;
    p, l := HeaderRest(p, domain, comment, time);
  }

  lemma NewStringsOk()
    ensures StringsOk(EMPTY_PROFILE.(strings := NEW_STRINGS))
  {
    assert FirstIndices([[]])[[]] == 0;
  }

  // After the metrics: the default, the time, the label and the comment.
  method HeaderRest(p0: Profile, domain: Text, comment: Text, time: i64) returns (p: Profile, l: Label)
    requires StringsOk(p0) && Measures(p0, METRICS) && |p0.strings.strings| <= 9
    requires p0 == EMPTY_PROFILE.(strings := p0.strings, valueTypes := p0.valueTypes)
    requires Codec.ValidUtf8(domain) && Codec.ValidUtf8(comment)
    ensures TablesOk(p) && Headed(p, l, domain, comment, time) && |p.strings.strings| <= 13
    ensures p.samples == [] && p.mappings == [] && p.functions == [] && p.locations == []
  {
    LiteralsWritable();
    hide StringsOk, Codec.ValidUtf8, Measures, METRICS, INUSE_SPACE, HEAP;
    var kind, key, name: u64;
    p, kind := InternInto(p0, INUSE_SPACE);
    ghost var p1 := p;
    p, key := InternInto(p, HEAP);
    ghost var p2 := p;
    p, name := InternInto(p, domain);
    ghost var p3 := p;
    var comments: seq<u64> := [];
    if comment != [] {
      var id: u64;
      p, id := InternInto(p, comment);
      comments := [id];
    }
    ghost var q := p;
    assert q.strings.strings[kind] == p1.strings.strings[kind];
    assert q.strings.strings[key] == p2.strings.strings[key];
    assert q.strings.strings[name] == p3.strings.strings[name];
    l := Label(key, name, 0, 0);
    p := p.(defaultSampleType := kind, timeNanos := time, comments := comments);
    SameStrings(q, p);
    MeasuresStay(p0, p, METRICS);
  }

  // ----- The export -----

  // The mappings are the images, each once, with the details of its frames.
  ghost predicate ImagesShown(p: Profile, frames: set<HeapFrame>, images: seq<HeapMapping>, all: set<HeapMapping>) {
    && |images| == |p.mappings|
    && (forall i, j :: 0 <= i < j < |images| ==> images[i] != images[j])
    && (forall m :: m in images <==> m in all)
    && (forall i :: 0 <= i < |images| ==> ImageShown(p, frames, images[i], i))
  }

  ghost predicate ImageShown(p: Profile, frames: set<HeapFrame>, image: HeapMapping, i: nat)
    requires i < |p.mappings|
  {
    var m := p.mappings[i];
    && MappingAt(p, i + 1) == Some(image)
    && FlagsOf(frames, image, Flags(m.hasFunctions, m.hasFilenames, m.hasLineNumbers)) && !m.hasInlineFrames
  }

  lemma ImagesNext(p: Profile, q: Profile, frames: set<HeapFrame>, images: seq<HeapMapping>, all: set<HeapMapping>,
                   image: HeapMapping)
    requires TablesOk(p) && Grew(p, q) && ImagesShown(p, frames, images, all) && image !in all
    requires |q.mappings| == |p.mappings| + 1 && ImageShown(q, frames, image, |p.mappings|)
    ensures ImagesShown(q, frames, images + [image], all + {image})
  {
    hide TablesOk, FlagsOf, MappingAt;
    forall i | 0 <= i < |images| ensures ImageShown(q, frames, images[i], i) {
      assert ImageShown(p, frames, images[i], i);
      MappingStays(p, q, i + 1);
    }
  }

  method AddImages(p: Profile, flags: map<HeapMapping, Flags>, ghost frames: set<HeapFrame>)
      returns (q: Profile, mappings: map<HeapMapping, u64>, ghost images: seq<HeapMapping>)
    requires TablesOk(p) && p.mappings == []
    requires forall m :: m in flags ==> MappingText(m) && FlagsOf(frames, m, flags[m])
    requires |p.strings.strings| + 2 * |flags| <= I64_MAX
    ensures TablesOk(q) && Grew(p, q) && q == p.(strings := q.strings, mappings := q.mappings)
    ensures |q.strings.strings| <= |p.strings.strings| + 2 * |flags|
    ensures mappings.Keys == flags.Keys && MappingsPlaced(q, mappings) && ImagesShown(q, frames, images, flags.Keys)
  {
    hide TablesOk, MappingText, FlagsOf, Grew, MappingAt, MappingsPlaced, ImagesShown, MappingOk, FrameOk, StringsOk,
         Codec.ValidUtf8;
    q, mappings, images := p, map[], [];
    GrewNot(p);
    NoImagesYet(p, frames);
    assert mappings.Keys == {};
    var todo := flags.Keys;
    assert |todo| == |flags|;
    while todo != {}
      invariant todo <= flags.Keys && mappings.Keys == flags.Keys - todo && |q.mappings| + |todo| == |flags|
      invariant TablesOk(q) && Grew(p, q) && q == p.(strings := q.strings, mappings := q.mappings)
      invariant |q.strings.strings| + 2 * |todo| <= |p.strings.strings| + 2 * |flags|
      invariant MappingsPlaced(q, mappings) && ImagesShown(q, frames, images, mappings.Keys)
    {
      var image :| image in todo;
      ghost var before, placed := q, mappings;
      var id: u64;
      q, id := AddMapping(q, image, flags[image]);
      GrewOn(p, before, q);
      MappingsNext(before, q, mappings, image, id);
      ImagesNext(before, q, frames, images, mappings.Keys, image);
      mappings := mappings[image := id];
      assert mappings.Keys == placed.Keys + {image};
      images := images + [image];
      todo := todo - {image};
    }
  }

  lemma NoImagesYet(p: Profile, frames: set<HeapFrame>)
    requires p.mappings == []
    ensures MappingsPlaced(p, map[]) && ImagesShown(p, frames, [], {})
  {
  }

  lemma MappingsNext(p: Profile, q: Profile, mappings: map<HeapMapping, u64>, image: HeapMapping, id: u64)
    requires Grew(p, q) && TablesOk(p) && MappingsPlaced(p, mappings)
    requires 1 <= id <= |q.mappings| && MappingAt(q, id) == Some(image)
    ensures MappingsPlaced(q, mappings[image := id])
  {
    hide TablesOk, MappingAt;
    MappingsStay(p, q, mappings);
  }

  // Each stack once, in any order.
  ghost predicate Enumerates(stacks: seq<Stack>, keys: set<Stack>) {
    && (forall i, j :: 0 <= i < j < |stacks| ==> stacks[i] != stacks[j])
    && (forall s :: s in stacks <==> s in keys)
  }

  // The samples are the stacks with their values, under one label.
  ghost predicate SamplesShown(p: Profile, l: Label, stacks: seq<Stack>, samples: map<Stack, HeapValues>) {
    && |p.samples| == |stacks|
    && forall j :: 0 <= j < |stacks| ==>
         stacks[j] in samples && Shows(p, p.samples[j], stacks[j], samples[stacks[j]]) && p.samples[j].labels == [l]
  }

  lemma SamplesStay(p: Profile, q: Profile, l: Label, stacks: seq<Stack>, samples: map<Stack, HeapValues>)
    requires TablesOk(p) && Grew(p, q) && q.samples == p.samples && SamplesShown(p, l, stacks, samples)
    ensures SamplesShown(q, l, stacks, samples)
  {
    hide TablesOk, IdsShow, Grew;
    forall j | 0 <= j < |stacks| ensures Shows(q, q.samples[j], stacks[j], samples[stacks[j]]) {
      IdsStay(p, q, p.samples[j].locationIds, stacks[j]);
    }
  }

  // What `add_sample` guarantees of every profile.
  ghost predicate InRange(samples: map<Stack, HeapValues>) {
    forall s :: s in samples ==>
      && s != []
      && samples[s].allocObjects <= I64_MAX && samples[s].allocSpace <= I64_MAX
      && samples[s].inuseObjects <= I64_MAX && samples[s].inuseSpace <= I64_MAX
  }

  method AddSamples(p: Profile, l: Label, samples: map<Stack, HeapValues>, mappings: map<HeapMapping, u64>)
      returns (q: Profile, ghost stacks: seq<Stack>)
    requires TablesOk(p) && MappingsPlaced(p, mappings) && InRange(samples)
    requires p.samples == [] && p.functions == [] && p.locations == []
    requires forall f :: f in Frames(samples) ==> FrameText(f) && (f.mapping.Some? ==> f.mapping.value in mappings)
    requires |p.strings.strings| + 2 * |Frames(samples)| <= I64_MAX
    ensures TablesOk(q) && Grew(p, q)
    ensures q == p.(strings := q.strings, samples := q.samples, functions := q.functions, locations := q.locations)
    ensures Enumerates(stacks, samples.Keys) && SamplesShown(q, l, stacks, samples)
  {
    hide TablesOk, StringsOk, Grew, Frames, FrameText, MappingsPlaced, FramesPlaced, IdsShow, Named, SamplesShown,
         Enumerates;
    ghost var all := Frames(samples);
    q, stacks := p, [];
    GrewNot(p);
    NoStacks(p, l, samples);
    var frames: map<HeapFrame, u64> := map[];
    NoFrames(p);
    var todo := samples.Keys;
    while todo != {}
      invariant todo <= samples.Keys
      invariant TablesOk(q) && Grew(p, q)
      invariant q == p.(strings := q.strings, samples := q.samples, functions := q.functions, locations := q.locations)
      invariant MappingsPlaced(q, mappings) && FramesPlaced(q, frames) && frames.Keys <= all
      invariant |q.strings.strings| + 2 * (|all| - |frames|) <= I64_MAX
      invariant Enumerates(stacks, samples.Keys - todo) && SamplesShown(q, l, stacks, samples)
    {
      var stack :| stack in todo;
      StackFrames(samples, stack);
      ghost var before := q;
      var ids: seq<u64>;
      q, frames, ids := AddStack(q, stack, mappings, frames, all);
      GrewOn(p, before, q);
      MappingsStay(before, q, mappings);
      SamplesStay(before, q, l, stacks, samples);
      var v := samples[stack];
      ghost var added := q;
      q := q.(samples := q.samples + [Sample(ids, [v.allocObjects, v.allocSpace, v.inuseObjects, v.inuseSpace], [l])]);
      SamplesAside(added, q, mappings, frames);
      GrewOn(p, added, q);
      SamplesShownNext(added, q, l, stacks, samples, stack);
      EnumeratesNext(stacks, samples.Keys - todo, stack);
      assert samples.Keys - todo + {stack} == samples.Keys - (todo - {stack});
      stacks := stacks + [stack];
      todo := todo - {stack};
    }
    assert samples.Keys - todo == samples.Keys;
  }

  lemma NoStacks(p: Profile, l: Label, samples: map<Stack, HeapValues>)
    requires p.samples == []
    ensures SamplesShown(p, l, [], samples) && Enumerates([], {})
    ensures samples.Keys - samples.Keys == {}
  {
  }

  lemma EnumeratesFirst(stacks: seq<Stack>, keys: set<Stack>)
    requires Enumerates(stacks, keys)
    ensures stacks != [] ==> stacks[0] in keys
  {
  }

  lemma EnumeratesNext(stacks: seq<Stack>, keys: set<Stack>, stack: Stack)
    requires Enumerates(stacks, keys) && stack !in keys
    ensures Enumerates(stacks + [stack], keys + {stack})
  {
  }

  lemma StackFrames(samples: map<Stack, HeapValues>, stack: Stack)
    requires stack in samples
    ensures forall f :: f in stack ==> f in Frames(samples)
  {
  }

  lemma NoFrames(p: Profile)
    requires p.functions == []
    ensures FramesPlaced(p, map[])
  {
  }

  // The tables do not know of the samples.
  lemma SamplesAside(p: Profile, q: Profile, mappings: map<HeapMapping, u64>, frames: map<HeapFrame, u64>)
    requires q == p.(samples := q.samples) && TablesOk(p) && MappingsPlaced(p, mappings) && FramesPlaced(p, frames)
    ensures TablesOk(q) && MappingsPlaced(q, mappings) && FramesPlaced(q, frames) && Grew(p, q)
  {
    hide StringsOk;
    SameStrings(p, q);
    assert forall i :: 0 <= i < |p.mappings| ==> MappingOk(p, i) ==> MappingOk(q, i);
    assert forall i :: 0 <= i < |p.functions| ==> FrameOk(p, i) ==> FrameOk(q, i);
    hide MappingOk, FrameOk;
    MappingsStay(p, q, mappings);
    TablesStrings(p);
    FramesStay(p, q, frames);
  }

  lemma SamplesShownNext(p: Profile, q: Profile, l: Label, stacks: seq<Stack>, samples: map<Stack, HeapValues>,
                         stack: Stack)
    requires TablesOk(p) && Grew(p, q) && SamplesShown(p, l, stacks, samples) && stack in samples
    requires |q.samples| == |p.samples| + 1 && q.samples[..|p.samples|] == p.samples
    requires IdsShow(p, q.samples[|p.samples|].locationIds, stack)
    requires var v := samples[stack];
      q.samples[|p.samples|].values == [v.allocObjects, v.allocSpace, v.inuseObjects, v.inuseSpace]
    requires q.samples[|p.samples|].labels == [l]
    ensures SamplesShown(q, l, stacks + [stack], samples)
  {
    hide TablesOk, IdsShow, Grew;
    IdsStay(p, q, q.samples[|p.samples|].locationIds, stack);
    forall j | 0 <= j < |stacks|
      ensures Shows(q, q.samples[j], stacks[j], samples[stacks[j]]) && q.samples[j].labels == [l]
    {
      assert q.samples[j] == q.samples[..|p.samples|][j];
      IdsStay(p, q, p.samples[j].locationIds, stacks[j]);
    }
  }

  datatype ExportError = EmptyDomain | BadTime

  /** The exported profile: header, images, and every stack once with all its values; without any stack, one
      empty sample that still names the domain. */
  ghost predicate Exports(p: Profile, l: Label, domain: Text, comment: Text, time: i64, samples: map<Stack, HeapValues>,
                          stacks: seq<Stack>, images: seq<HeapMapping>)
  {
    && TablesOk(p) && Headed(p, l, domain, comment, time)
    && ImagesShown(p, Frames(samples), images, Images(Frames(samples)))
    && Enumerates(stacks, samples.Keys)
    && (if samples == map[] then p.samples == [Sample([], [0, 0, 0, 0], [l])] else SamplesShown(p, l, stacks, samples))
  }

  /** `to_pprof`. */
  method ToPprof(domain: Text, comment: Text, time: Option<i64>, samples: map<Stack, HeapValues>)
      returns (r: Result<Profile, ExportError>, ghost l: Label, ghost stacks: seq<Stack>,
               ghost images: seq<HeapMapping>)
    // What Rust's `String` and `add_sample` guarantee; and a `Vec` holds at most `isize::MAX` elements.
    requires Codec.ValidUtf8(domain) && Codec.ValidUtf8(comment) && forall f :: f in Frames(samples) ==> FrameText(f)
    requires InRange(samples)
    requires 13 + 2 * |Images(Frames(samples))| + 2 * |Frames(samples)| <= I64_MAX
    ensures domain == [] ==> r == Err(EmptyDomain)
    ensures domain != [] && time.None? ==> r == Err(BadTime)
    ensures domain != [] && time.Some? ==>
      r.Ok? && Exports(r.value, l, domain, comment, time.value, samples, stacks, images)
  {
    hide Codec.ValidUtf8, FrameText, TablesOk, Headed, ImagesShown, SamplesShown, Enumerates, FlagsOf, MappingsPlaced,
         Grew;
    l, stacks, images := Label(0, 0, 0, 0), [], [];
    if domain == [] {
      return Err(EmptyDomain), l, stacks, images;
    }
    if time.None? {
      return Err(BadTime), l, stacks, images;
    }
    var p, label_ := Header(domain, comment, time.value);
    ghost var headed := p;
    var flags := ImageFlags(samples);
    ImagesText(Frames(samples));
    var mappings: map<HeapMapping, u64>;
    p, mappings, images := AddImages(p, flags, Frames(samples));
    ghost var imaged := p;
    assert forall f :: f in Frames(samples) && f.mapping.Some? ==> f.mapping.value in Images(Frames(samples));
    p, stacks := AddSamples(p, label_, samples, mappings);
    GrewOn(headed, imaged, p);
    StringsGrew(headed, p);
    StringsGrew(imaged, p);
    HeadedStays(headed, p, label_, domain, comment, time.value);
    ImagesAside(imaged, p, Frames(samples), images, flags.Keys);
    l := label_;
    if p.samples == [] {
      StacksOf(p, label_, stacks, samples);
      ghost var shown := p;
      p := p.(samples := [Sample([], [0, 0, 0, 0], [label_])]);
      TablesAside(shown, p);
      HeadedStays(shown, p, label_, domain, comment, time.value);
      ImagesAside(shown, p, Frames(samples), images, flags.Keys);
    } else {
      StacksOf(p, label_, stacks, samples);
    }
    r := Ok(p);
  }

  lemma ImagesText(frames: set<HeapFrame>)
    requires forall f :: f in frames ==> FrameText(f)
    ensures forall m :: m in Images(frames) ==> MappingText(m)
  {
    hide Codec.ValidUtf8;
    forall m | m in Images(frames) ensures MappingText(m) {
      var f :| f in frames && f.mapping == Some(m);
      assert FrameText(f);
    }
  }

  lemma StringsGrew(p: Profile, q: Profile)
    requires Grew(p, q)
    ensures p.strings.strings <= q.strings.strings
  {
  }

  lemma TablesAside(p: Profile, q: Profile)
    requires q == p.(samples := q.samples) && TablesOk(p)
    ensures TablesOk(q)
  {
    hide StringsOk;
    SameStrings(p, q);
    assert forall i :: 0 <= i < |p.mappings| ==> MappingOk(p, i) ==> MappingOk(q, i);
    assert forall i :: 0 <= i < |p.functions| ==> FrameOk(p, i) ==> FrameOk(q, i);
  }

  lemma ImagesAside(p: Profile, q: Profile, frames: set<HeapFrame>, images: seq<HeapMapping>, all: set<HeapMapping>)
    requires TablesOk(p) && ImagesShown(p, frames, images, all) && q.mappings == p.mappings
    requires p.strings.strings <= q.strings.strings
    ensures ImagesShown(q, frames, images, all)
  {
    hide StringsOk, FlagsOf, FrameOk;
    forall i | 0 <= i < |images| ensures ImageShown(q, frames, images[i], i) {
      assert ImageShown(p, frames, images[i], i) && MappingOk(p, i);
    }
  }

  lemma StacksOf(p: Profile, l: Label, stacks: seq<Stack>, samples: map<Stack, HeapValues>)
    requires SamplesShown(p, l, stacks, samples) && Enumerates(stacks, samples.Keys)
    ensures p.samples == [] <==> samples == map[]
  {
    if stacks == [] {
      assert samples.Keys == {};
    } else {
      assert stacks[0] in samples.Keys;
    }
  }

  // ----- What an export is good for -----

  lemma TablesAccepted(p: Profile)
    requires TablesOk(p)
    requires forall s :: s in p.samples ==>
      && (forall i :: 0 <= i < |s.locationIds| ==> 1 <= s.locationIds[i] <= |p.locations|)
      && (forall l :: l in s.labels ==> LabelStrings(l, |p.strings.strings|))
    ensures TablesResolve(p)
  {
    hide StringsOk, Ids, UniqueIds, MappingOk, FrameOk, LocationResolves;
    StringsFirst(p);
    MappingsAccepted(p);
    FramesAccepted(p);
    assert forall i :: 0 <= i < |p.locations| ==> LocationId(p.locations[i]) == i + 1;
    IdsFromOne(p.locations, LocationId);
    forall l | l in p.locations ensures LocationResolves(l, Ids(p.mappings, MappingId), Ids(p.functions, FunctionId)) {
      var i :| 0 <= i < |p.locations| && p.locations[i] == l;
    }
  }

  lemma MappingsAccepted(p: Profile)
    requires TablesOk(p)
    ensures UniqueIds(p.mappings, MappingId)
    ensures forall k: u64 :: k in Ids(p.mappings, MappingId) <==> 1 <= k <= |p.mappings|
    ensures forall m :: m in p.mappings ==> MappingStrings(m, |p.strings.strings|)
  {
    hide StringsOk, FrameOk, Ids, UniqueIds;
    assert forall i :: 0 <= i < |p.mappings| ==> MappingOk(p, i) && MappingId(p.mappings[i]) == i + 1;
    IdsFromOne(p.mappings, MappingId);
    forall m | m in p.mappings ensures MappingStrings(m, |p.strings.strings|) {
      var i :| 0 <= i < |p.mappings| && p.mappings[i] == m;
      assert MappingOk(p, i);
    }
  }

  lemma FramesAccepted(p: Profile)
    requires TablesOk(p)
    ensures UniqueIds(p.functions, FunctionId)
    ensures forall k: u64 :: k in Ids(p.functions, FunctionId) <==> 1 <= k <= |p.functions|
    ensures forall f :: f in p.functions ==> FunctionStrings(f, |p.strings.strings|)
    ensures forall i :: 0 <= i < |p.locations| ==>
      p.locations[i].id == i + 1
        && LocationResolves(p.locations[i], Ids(p.mappings, MappingId), Ids(p.functions, FunctionId))
  {
    MappingsAccepted(p);
    hide StringsOk, MappingOk, Ids, UniqueIds;
    assert forall i :: 0 <= i < |p.functions| ==> FrameOk(p, i) && FunctionId(p.functions[i]) == i + 1;
    IdsFromOne(p.functions, FunctionId);
    forall f | f in p.functions ensures FunctionStrings(f, |p.strings.strings|) {
      var i :| 0 <= i < |p.functions| && p.functions[i] == f;
      assert FrameOk(p, i);
    }
    forall i | 0 <= i < |p.locations|
      ensures p.locations[i].id == i + 1
      ensures LocationResolves(p.locations[i], Ids(p.mappings, MappingId), Ids(p.functions, FunctionId))
    {
      assert FrameOk(p, i);
      assert p.locations[i].lines == [p.locations[i].lines[0]];
    }
  }

  lemma StringsFirst(p: Profile)
    requires StringsOk(p)
    ensures p.strings.strings != [] && p.strings.strings[0] == []
  {
  }

  lemma IdsFromOne<T>(items: seq<T>, id: T -> u64)
    requires forall i :: 0 <= i < |items| ==> id(items[i]) == i + 1
    ensures UniqueIds(items, id) && forall k: u64 :: k in Ids(items, id) <==> 1 <= k <= |items|
  {
    forall k: u64 | 1 <= k <= |items| ensures k in Ids(items, id) {
      assert id(items[k - 1]) == k;
    }
  }

  lemma HeaderAccepted(p: Profile, l: Label, domain: Text, comment: Text, time: i64)
    requires Headed(p, l, domain, comment, time) && p.strings.strings != []
    requires forall s :: s in p.samples ==> |s.values| == 4
    ensures HeaderStrings(p) && HeapShape(p)
  {
    MetricsAreHeapMetrics();
    assert |METRICS| == 4;
    hide METRICS, HeapMetric;
    assert Metrics(p) == METRICS;
    assert forall i :: 0 <= i < 4 ==> Metrics(p)[i] == METRICS[i];
    assert forall v :: v in p.valueTypes ==> v.typ < |p.strings.strings| && v.unit < |p.strings.strings|;
  }

  // Every sample of an export, one by one.
  lemma ExportedSample(p: Profile, l: Label, domain: Text, comment: Text, time: i64, samples: map<Stack, HeapValues>,
                       stacks: seq<Stack>, images: seq<HeapMapping>, s: Sample)
    requires Exports(p, l, domain, comment, time, samples, stacks, images) && s in p.samples
    ensures forall i :: 0 <= i < |s.locationIds| ==> 1 <= s.locationIds[i] <= |p.locations|
    ensures s.labels == [l] && |s.values| == 4 && LabelStrings(l, |p.strings.strings|) && l.key > 0
  {
    hide TablesOk, ImagesShown, FrameAt, Measures, Commented, Enumerates;
    if samples != map[] {
      var j :| 0 <= j < |p.samples| && p.samples[j] == s;
      assert Shows(p, p.samples[j], stacks[j], samples[stacks[j]]);
    }
  }

  /** An export passes the validation of heap profiles. */
  lemma ExportAccepted(p: Profile, l: Label, domain: Text, comment: Text, time: i64, samples: map<Stack, HeapValues>,
                       stacks: seq<Stack>, images: seq<HeapMapping>)
    requires Exports(p, l, domain, comment, time, samples, stacks, images)
    ensures Accepts(p)
  {
    forall s | s in p.samples
      ensures forall i :: 0 <= i < |s.locationIds| ==> 1 <= s.locationIds[i] <= |p.locations|
      ensures s.labels == [l] && |s.values| == 4 && LabelStrings(l, |p.strings.strings|)
    {
      ExportedSample(p, l, domain, comment, time, samples, stacks, images, s);
    }
    hide TablesOk, Headed, SamplesShown, ImagesShown, Enumerates, TablesResolve, HeaderStrings, HeapShape, LabelStrings;
    TablesAccepted(p);
    HasStrings(p);
    HeaderAccepted(p, l, domain, comment, time);
  }

  lemma HasStrings(p: Profile)
    requires TablesOk(p)
    ensures p.strings.strings != []
  {
  }

  lemma NothingEmpty(p: Profile)
    requires TablesOk(p)
    ensures Codec.NO_MAPPING !in p.mappings && Codec.NO_FUNCTION !in p.functions
    ensures forall x :: x in p.locations ==> x != Codec.NO_LOCATION && Codec.NO_LINE !in x.lines
  {
    hide StringsOk;
    forall m | m in p.mappings ensures m.id != 0 {
      var i :| 0 <= i < |p.mappings| && p.mappings[i] == m;
      assert MappingOk(p, i);
    }
    forall f | f in p.functions ensures f.id != 0 {
      var i :| 0 <= i < |p.functions| && p.functions[i] == f;
      assert FrameOk(p, i);
    }
    forall x | x in p.locations ensures x.id != 0 && |x.lines| == 1 && x.lines[0].functionId != 0 {
      var i :| 0 <= i < |p.locations| && p.locations[i] == x;
      assert FrameOk(p, i);
    }
  }

  lemma HeaderNotEmpty(p: Profile, l: Label, domain: Text, comment: Text, time: i64)
    requires Headed(p, l, domain, comment, time)
    ensures NO_TYPE !in p.valueTypes && 0 !in p.comments && l != Codec.NO_LABEL
  {
    hide METRICS;
  }

  /** What an export encodes to, decodes to exactly the export. */
  lemma ExportDecodesBack(p: Profile, l: Label, domain: Text, comment: Text, time: i64, samples: map<Stack, HeapValues>,
                          stacks: seq<Stack>, images: seq<HeapMapping>)
    requires Exports(p, l, domain, comment, time, samples, stacks, images)
    requires |Codec.Encode(p)| <= I64_MAX
    ensures Codec.Decode(Codec.Encode(p)) == Ok(p)
  {
    hide Codec.Encode, Codec.Decode, Headed, SamplesShown, ImagesShown, Enumerates, MappingOk, FrameOk, Codec.ValidUtf8;
    NothingEmpty(p);
    HeaderNotEmpty(p, l, domain, comment, time);
    forall s | s in p.samples ensures s != Codec.NO_SAMPLE && Codec.NO_LABEL !in s.labels {
      ExportedSample(p, l, domain, comment, time, samples, stacks, images, s);
    }
    Codec.RoundTripIsIdentity(p);
  }

  // ----- Nothing is lost -----

  function ColumnSum(items: seq<Sample>, i: nat): int {
    if items == [] then 0
    else
      var last := items[|items| - 1];
      ColumnSum(items[..|items| - 1], i) + if i < |last.values| then last.values[i] else 0
  }

  /** What a stack has under a metric's name. */
  function Measure(v: HeapValues, name: Text): int {
    if name == Ascii("alloc_objects") then v.allocObjects
    else if name == Ascii("alloc_space") then v.allocSpace
    else if name == Ascii("inuse_objects") then v.inuseObjects
    else if name == Ascii("inuse_space") then v.inuseSpace
    else 0
  }

  function StackSum(stacks: seq<Stack>, samples: map<Stack, HeapValues>, name: Text): int
    requires forall s :: s in stacks ==> s in samples
  {
    if stacks == [] then 0
    else StackSum(stacks[..|stacks| - 1], samples, name) + Measure(samples[stacks[|stacks| - 1]], name)
  }

  lemma {:induction false} ColumnsAgree(items: seq<Sample>, stacks: seq<Stack>, samples: map<Stack, HeapValues>,
                                        i: nat, name: Text)
    requires i < 4 && |items| == |stacks| && forall s :: s in stacks ==> s in samples
    requires forall j :: 0 <= j < |items| ==>
      |items[j].values| == 4 && items[j].values[i] == Measure(samples[stacks[j]], name)
    ensures ColumnSum(items, i) == StackSum(stacks, samples, name)
  {
    if items != [] {
      ColumnsAgree(items[..|items| - 1], stacks[..|stacks| - 1], samples, i, name);
    }
  }

  // The position names this text.
  ghost predicate Reads(p: Profile, id: u64, text: Text) {
    id < |p.strings.strings| && p.strings.strings[id] == text
  }

  // The names and units, written out.
  lemma ColumnNames(p: Profile)
    requires Measures(p, METRICS)
    ensures |p.valueTypes| == 4
    ensures Reads(p, p.valueTypes[0].typ, Ascii("alloc_objects")) && Reads(p, p.valueTypes[0].unit, Ascii("count"))
    ensures Reads(p, p.valueTypes[1].typ, Ascii("alloc_space")) && Reads(p, p.valueTypes[1].unit, Ascii("bytes"))
    ensures Reads(p, p.valueTypes[2].typ, Ascii("inuse_objects")) && Reads(p, p.valueTypes[2].unit, Ascii("count"))
    ensures Reads(p, p.valueTypes[3].typ, Ascii("inuse_space")) && Reads(p, p.valueTypes[3].unit, Ascii("bytes"))
  {
    assert |METRICS| == 4;
    assert METRICS[0] == (ALLOC_OBJECTS, COUNT) && METRICS[1] == (ALLOC_SPACE, BYTES);
    assert METRICS[2] == (INUSE_OBJECTS, COUNT) && METRICS[3] == (INUSE_SPACE, BYTES);
  }

  lemma NamesDiffer()
    ensures Ascii("alloc_objects") != Ascii("alloc_space") && Ascii("inuse_objects") != Ascii("inuse_space")
    ensures Ascii("alloc_objects") != Ascii("inuse_objects") && Ascii("alloc_space") != Ascii("inuse_space")
    ensures Ascii("alloc_objects") != Ascii("inuse_space") && Ascii("alloc_space") != Ascii("inuse_objects")
  {
    assert |Ascii("alloc_objects")| == |Ascii("inuse_objects")| == 13;
    assert |Ascii("alloc_space")| == |Ascii("inuse_space")| == 11;
    assert Ascii("alloc_objects")[0] == Ascii("alloc_space")[0] == 97;
    assert Ascii("inuse_objects")[0] == Ascii("inuse_space")[0] == 105;
  }

  // The column of a name.
  ghost predicate NamedColumn(p: Profile, i: nat, name: Text, unit: Text) {
    i < |p.valueTypes| && Reads(p, p.valueTypes[i].typ, name) && Reads(p, p.valueTypes[i].unit, unit)
  }

  ghost predicate FourColumns(p: Profile) {
    && |p.valueTypes| == 4
    && (exists k :: NamedColumn(p, k, Ascii("alloc_objects"), Ascii("count")))
    && (exists k :: NamedColumn(p, k, Ascii("alloc_space"), Ascii("bytes")))
    && (exists k :: NamedColumn(p, k, Ascii("inuse_objects"), Ascii("count")))
    && (exists k :: NamedColumn(p, k, Ascii("inuse_space"), Ascii("bytes")))
  }

  lemma ColumnsNamed(p: Profile)
    requires Measures(p, METRICS)
    ensures |p.valueTypes| == 4 && FourColumns(p)
  {
    ColumnNames(p);
    hide METRICS, Ascii, Measures, Reads;
    assert NamedColumn(p, 0, Ascii("alloc_objects"), Ascii("count"));
    assert NamedColumn(p, 1, Ascii("alloc_space"), Ascii("bytes"));
    assert NamedColumn(p, 2, Ascii("inuse_objects"), Ascii("count"));
    assert NamedColumn(p, 3, Ascii("inuse_space"), Ascii("bytes"));
  }

  /** Under each of the four names a sample has that quantity of its stack. */
  ghost predicate ValuesByName(p: Profile, i: nat, values: seq<i64>, v: HeapValues)
    requires i < |p.valueTypes| == |values|
  {
    && (Reads(p, p.valueTypes[i].typ, Ascii("alloc_objects")) ==> values[i] == v.allocObjects)
    && (Reads(p, p.valueTypes[i].typ, Ascii("alloc_space")) ==> values[i] == v.allocSpace)
    && (Reads(p, p.valueTypes[i].typ, Ascii("inuse_objects")) ==> values[i] == v.inuseObjects)
    && (Reads(p, p.valueTypes[i].typ, Ascii("inuse_space")) ==> values[i] == v.inuseSpace)
  }

  lemma ValuesNamed(p: Profile, i: nat, values: seq<i64>, v: HeapValues)
    requires Measures(p, METRICS) && i < |p.valueTypes|
    requires values == [v.allocObjects, v.allocSpace, v.inuseObjects, v.inuseSpace]
    ensures |p.valueTypes| == 4 && ValuesByName(p, i, values, v)
  {
    ColumnNames(p);
    NamesDiffer();
    hide Ascii, METRICS, Measures;
  }

  /** By name: the four columns are these, each with its unit, and in the column of a name every sample has that
      quantity of its stack. */
  lemma ExportColumns(p: Profile, l: Label, domain: Text, comment: Text, time: i64, samples: map<Stack, HeapValues>,
                      stacks: seq<Stack>, images: seq<HeapMapping>, i: nat)
    requires Exports(p, l, domain, comment, time, samples, stacks, images) && i < |p.valueTypes|
    ensures FourColumns(p)
    ensures samples != map[] ==> |p.samples| == |stacks| && forall j :: 0 <= j < |stacks| ==>
      && stacks[j] in samples && |p.samples[j].values| == 4
      && ValuesByName(p, i, p.samples[j].values, samples[stacks[j]])
  {
    hide TablesOk, ImagesShown, IdsShow, METRICS, ValuesByName, Measures, Reads, FourColumns, Commented, Labels;
    ColumnsNamed(p);
    if samples != map[] {
      forall j | 0 <= j < |stacks|
        ensures stacks[j] in samples && |p.samples[j].values| == 4
        ensures ValuesByName(p, i, p.samples[j].values, samples[stacks[j]])
      {
        assert Shows(p, p.samples[j], stacks[j], samples[stacks[j]]);
        ValuesNamed(p, i, p.samples[j].values, samples[stacks[j]]);
      }
    }
  }

  /** All four column sums are those of the heap profile, each under its name. */
  lemma ExportConserves(p: Profile, l: Label, domain: Text, comment: Text, time: i64, samples: map<Stack, HeapValues>,
                        stacks: seq<Stack>, images: seq<HeapMapping>, i: nat, name: Text)
    requires Exports(p, l, domain, comment, time, samples, stacks, images)
    requires i < |p.valueTypes| && Reads(p, p.valueTypes[i].typ, name)
    ensures (forall s :: s in stacks <==> s in samples) && ColumnSum(p.samples, i) == StackSum(stacks, samples, name)
  {
    hide TablesOk, ImagesShown, IdsShow, Ascii, METRICS, Headed;
    ExportColumns(p, l, domain, comment, time, samples, stacks, images, i);
    NamesDiffer();
    if samples == map[] {
      EnumeratesFirst(stacks, samples.Keys);
      assert p.samples[..0] == [];
    } else {
      forall j | 0 <= j < |stacks|
        ensures |p.samples[j].values| == 4 && p.samples[j].values[i] == Measure(samples[stacks[j]], name)
      {
        assert Shows(p, p.samples[j], stacks[j], samples[stacks[j]]);
      }
      ColumnsAgree(p.samples, stacks, samples, i, name);
    }
  }

  /** A checkpoint of the tracker can always be exported: its values fit an int64. */
  lemma CheckpointInRange(l: Ledger)
    requires l.Valid()
    ensures InRange(Checkpoint(l))
  {
    hide Inuse;
    forall s | s in Checkpoint(l) ensures s != [] && Checkpoint(l)[s].inuseObjects <= I64_MAX {
      assert s in l.allocs;
    }
  }

  // ----- The export entry by entry -----

  function DigitValue(c: u8): int {
    if 48 <= c <= 57 then c - 48 else if 97 <= c <= 102 then c - 87 else -1
  }

  /** What a text of hexadecimal digits stands for. */
  function HexValue(digits: Text): int {
    if digits == [] then 0
    else 16 * HexValue(digits[..|digits| - 1]) + DigitValue(digits[|digits| - 1])
  }

  function Pow16(n: nat): int {
    if n == 0 then 1 else 16 * Pow16(n - 1)
  }

  lemma {:induction false} HexDigitsRead(v: nat, n: nat)
    requires v < Pow16(n)
    ensures HexValue(HexDigits(v, n)) == v
    ensures forall i :: 0 <= i < n ==> DigitValue(HexDigits(v, n)[i]) >= 0
    decreases n
  {
    if n > 0 {
      HexDigitsRead(v / 16, n - 1);
      assert HexDigits(v, n)[..n - 1] == HexDigits(v / 16, n - 1);
    }
  }

  // The name of a frame without one: `0x` and sixteen lower-case digits that read as the address.
  ghost predicate AddressText(t: Text, address: u64) {
    && |t| == 18 && t[..2] == Ascii("0x") && HexValue(t[2..]) == address
    && forall i :: 2 <= i < 18 ==> DigitValue(t[i]) >= 0
  }

  lemma HexNameReads(address: u64)
    ensures AddressText(HexName(address), address)
  {
    assert Pow16(16) == U64_SIZE by {
      assert Pow16(4) == 0x1_0000;
      assert Pow16(8) == 0x1_0000_0000;
      assert Pow16(12) == 0x1_0000_0000_0000;
    }
    HexDigitsRead(address, 16);
    var t := HexName(address);
    hide HexDigits, HexValue;
    assert t[2..] == HexDigits(address, 16);
    forall i | 2 <= i < 18 ensures DigitValue(t[i]) >= 0 {
      assert t[i] == HexDigits(address, 16)[i - 2];
    }
  }

  /** The id leads to a mapping with all that is known of the image, or is zero if there is none. */
  ghost predicate ShowsImage(p: Profile, id: u64, image: Option<HeapMapping>) {
    match image
    case None => id == 0
    case Some(m) => exists n :: n in p.mappings && n.id == id && IsImage(p, n, m)
  }

  ghost predicate IsImage(p: Profile, n: Mapping, m: HeapMapping) {
    && n.memoryStart == m.memoryStart && n.memoryLimit == m.memoryLimit && n.fileOffset == m.fileOffset
    && Reads(p, n.filename, m.filename) && Reads(p, n.buildId, m.buildId)
  }

  /** The id leads to a location with the frame's address and image, and it to a function with its name and file;
      a frame without a name is called by its address. */
  ghost predicate ShowsFrame(p: Profile, id: u64, f: HeapFrame) {
    exists l, g :: l in p.locations && g in p.functions && l.id == id && IsFrame(p, l, g, f)
  }

  ghost predicate IsFrame(p: Profile, l: Location, g: Function, f: HeapFrame) {
    && l.address == f.address && ShowsImage(p, l.mappingId, f.mapping) && !l.isFolded
    && |l.lines| == 1 && l.lines[0] == Line(g.id, f.line, 0)
    && g.name < |p.strings.strings| && g.systemName == g.name && g.startLine == 0 && Reads(p, g.filename, f.file)
    && if f.name == [] then AddressText(p.strings.strings[g.name], f.address)
       else p.strings.strings[g.name] == f.name
  }

  lemma ImageAt(p: Profile, id: u64, image: Option<HeapMapping>)
    requires TablesOk(p) && id <= |p.mappings| && MappingAt(p, id) == image
    ensures ShowsImage(p, id, image)
  {
    hide StringsOk, FrameOk;
    if id > 0 {
      assert MappingOk(p, id - 1);
      assert p.mappings[id - 1] in p.mappings && IsImage(p, p.mappings[id - 1], image.value);
    }
  }

  lemma FrameShown(p: Profile, id: u64, f: HeapFrame)
    requires TablesOk(p) && 1 <= id <= |p.locations| && FrameAt(p, id) == Some(Named(f))
    ensures ShowsFrame(p, id, f)
  {
    hide StringsOk, MappingOk, HexName;
    var l, g := p.locations[id - 1], p.functions[id - 1];
    assert FrameOk(p, id - 1);
    ImageAt(p, l.mappingId, f.mapping);
    if f.name == [] {
      HexNameReads(f.address);
    }
    hide ShowsImage, AddressText;
    assert IsFrame(p, l, g, f);
  }

  /** Frame by frame, in the stack's order. */
  lemma ExportFrames(p: Profile, l: Label, domain: Text, comment: Text, time: i64, samples: map<Stack, HeapValues>,
                     stacks: seq<Stack>, images: seq<HeapMapping>, j: nat)
    requires Exports(p, l, domain, comment, time, samples, stacks, images) && samples != map[] && j < |stacks|
    ensures |p.samples| == |stacks| && |p.samples[j].locationIds| == |stacks[j]|
    ensures forall i :: 0 <= i < |stacks[j]| ==> ShowsFrame(p, p.samples[j].locationIds[i], stacks[j][i])
    ensures forall k :: 0 <= k < |stacks| && stacks[k] == stacks[j] ==> k == j
    ensures forall s :: s in samples <==> s in stacks
  {
    hide TablesOk, Headed, ImagesShown, ShowsFrame, FrameAt, Named;
    assert Shows(p, p.samples[j], stacks[j], samples[stacks[j]]);
    forall i | 0 <= i < |stacks[j]| ensures ShowsFrame(p, p.samples[j].locationIds[i], stacks[j][i]) {
      FrameShown(p, p.samples[j].locationIds[i], stacks[j][i]);
    }
  }

  /** Some frame of a stack lies in the image. */
  ghost predicate InImage(samples: map<Stack, HeapValues>, f: HeapFrame, m: HeapMapping) {
    f.mapping == Some(m) && exists s :: s in samples && f in s
  }

  /** The mappings are the images of the frames, each once; and their flags say of which details some frame of
      theirs knows. */
  lemma ExportImages(p: Profile, l: Label, domain: Text, comment: Text, time: i64, samples: map<Stack, HeapValues>,
                     stacks: seq<Stack>, images: seq<HeapMapping>, i: nat)
    requires Exports(p, l, domain, comment, time, samples, stacks, images) && i < |p.mappings|
    ensures |images| == |p.mappings| && p.mappings[i].id == i + 1 && IsImage(p, p.mappings[i], images[i])
    ensures forall k :: 0 <= k < |images| && images[k] == images[i] ==> k == i
    ensures forall m :: m in images <==> exists f :: InImage(samples, f, m)
    ensures p.mappings[i].hasFunctions <==> exists f :: InImage(samples, f, images[i]) && f.name != []
    ensures p.mappings[i].hasFilenames <==> exists f :: InImage(samples, f, images[i]) && f.file != []
    ensures p.mappings[i].hasLineNumbers <==> exists f :: InImage(samples, f, images[i]) && f.line != 0
    ensures !p.mappings[i].hasInlineFrames
  {
    hide Headed, SamplesShown, Enumerates, StringsOk, FrameOk, Images, Frames;
    assert MappingOk(p, i) && ImageShown(p, Frames(samples), images[i], i);
    assert IsImage(p, p.mappings[i], images[i]);
    forall f, m ensures InImage(samples, f, m) <==> f in Frames(samples) && f.mapping == Some(m) {
      FramesAre(samples, f);
    }
    forall m ensures m in images <==> exists f :: InImage(samples, f, m) {
      ImagesAre(samples, m);
    }
  }

  lemma FramesAre(samples: map<Stack, HeapValues>, f: HeapFrame)
    ensures f in Frames(samples) <==> exists s :: s in samples && f in s
  {
    if f in Frames(samples) {
      var s, i :| s in samples && 0 <= i < |s| && s[i] == f;
      assert f in s;
    }
    if s :| s in samples && f in s {
      var i :| 0 <= i < |s| && s[i] == f;
    }
  }

  lemma ImagesAre(samples: map<Stack, HeapValues>, m: HeapMapping)
    ensures m in Images(Frames(samples)) <==> exists f :: InImage(samples, f, m)
  {
    hide Frames;
    forall f ensures f in Frames(samples) <==> exists s :: s in samples && f in s {
      FramesAre(samples, f);
    }
    if m in Images(Frames(samples)) {
      var f :| f in Frames(samples) && f.mapping == Some(m);
      assert InImage(samples, f, m);
    }
    if f :| InImage(samples, f, m) {
      assert f in Frames(samples);
    }
  }

  ghost predicate HeaderTexts(p: Profile, l: Label, domain: Text, comment: Text) {
    && Reads(p, l.key, Ascii("heap")) && Reads(p, l.strIndex, domain) && l.num == 0 && l.numUnit == 0
    && (if comment == [] then p.comments == [] else |p.comments| == 1 && Reads(p, p.comments[0], comment))
    && Reads(p, p.defaultSampleType, Ascii("inuse_space"))
  }

  /** The header in its texts: the label `heap` with the domain on every sample, the comment if there is one, the
      time, and the bytes in use as the default column. */
  lemma ExportHeader(p: Profile, l: Label, domain: Text, comment: Text, time: i64, samples: map<Stack, HeapValues>,
                     stacks: seq<Stack>, images: seq<HeapMapping>)
    requires Exports(p, l, domain, comment, time, samples, stacks, images)
    ensures HeaderTexts(p, l, domain, comment) && p.timeNanos == time
    ensures forall s :: s in p.samples ==> s.labels == [l]
    ensures samples == map[] ==> p.samples == [Sample([], [0, 0, 0, 0], [l])]
  {
    hide TablesOk, ImagesShown, Measures, METRICS, Shows, Enumerates;
    forall s | s in p.samples && samples != map[] ensures s.labels == [l] {
      var j :| 0 <= j < |p.samples| && p.samples[j] == s;
      assert j < |stacks|;
    }
  }
}
