/** A live profile entry by entry: what `build_proto` of `src/encode.rs` puts into each mapping, location and
    sample, by position and with the texts written out.  The app decodes exactly this profile
    (`LiveRender.BuiltReadsBack`). */
module LiveBuild {
  import opened Prelude
  import opened Pprof
  import opened HeapModel
  import opened HeapExport
  import opened LiveRender
  import Acc = LiveAccumulator
  import Codec = PprofCodec

  // ----- Images -----

  // A stable sort: by address, and images of one address in the order in which they came.
  predicate Before(images: seq<LoadedImage>, i: nat, j: nat)
    requires i < |images| && j < |images|
  {
    || images[i].loadAddress < images[j].loadAddress
    || (images[i].loadAddress == images[j].loadAddress && i < j)
  }

  /** The positions of all images, in the order of a stable sort by address. */
  ghost predicate SortedAt(images: seq<LoadedImage>, at: seq<nat>) {
    && |at| == |images| && (forall k :: 0 <= k < |at| ==> at[k] < |images|)
    && (forall k, m :: 0 <= k < m < |at| ==> Before(images, at[k], at[m]))
  }

  // The same for the first `n` images only.
  ghost predicate Ordered(images: seq<LoadedImage>, n: nat, sorted: seq<LoadedImage>, at: seq<nat>)
    requires n <= |images|
  {
    && |at| == |sorted|
    && (forall k :: 0 <= k < |at| ==> at[k] < n && sorted[k] == images[at[k]])
    && (forall k, m :: 0 <= k < m < |at| ==> Before(images, at[k], at[m]))
  }

  lemma {:induction false} InsertedAt(images: seq<LoadedImage>, n: nat, sorted: seq<LoadedImage>, at: seq<nat>)
      returns (next: seq<nat>)
    requires n < |images| && Ordered(images, n, sorted, at)
    ensures |next| == |at| + 1 && Ordered(images, n + 1, InsertImage(sorted, images[n]), next)
    ensures forall i :: i in next ==> i == n || i in at
    decreases |at|
  {
    if sorted == [] || sorted[|sorted| - 1].loadAddress <= images[n].loadAddress {
      next := at + [n];
      OrderedBehind(images, n, sorted, at);
    } else {
      var last := |sorted| - 1;
      OrderedPart(images, n, sorted, at, last);
      var inner := InsertedAt(images, n, sorted[..last], at[..last]);
      next := inner + [at[last]];
      assert InsertImage(sorted, images[n]) == InsertImage(sorted[..last], images[n]) + [sorted[last]];
      hide Ordered, InsertImage;
      OrderedInFront(images, n, sorted, at, InsertImage(sorted[..last], images[n]), inner);
    }
  }

  lemma OrderedPart(images: seq<LoadedImage>, n: nat, sorted: seq<LoadedImage>, at: seq<nat>, k: nat)
    requires n < |images| && Ordered(images, n, sorted, at) && k <= |at|
    ensures |sorted| == |at| && Ordered(images, n, sorted[..k], at[..k])
  {
    hide Before;
  }

  lemma OrderedBehind(images: seq<LoadedImage>, n: nat, sorted: seq<LoadedImage>, at: seq<nat>)
    requires n < |images| && Ordered(images, n, sorted, at)
    requires sorted == [] || sorted[|sorted| - 1].loadAddress <= images[n].loadAddress
    ensures Ordered(images, n + 1, sorted + [images[n]], at + [n])
  {
    forall k | 0 <= k < |at| ensures Before(images, at[k], n) {
      assert k < |at| - 1 ==> Before(images, at[k], at[|at| - 1]);
    }
  }

  lemma OrderedInFront(images: seq<LoadedImage>, n: nat, sorted: seq<LoadedImage>, at: seq<nat>,
                       part: seq<LoadedImage>, inner: seq<nat>)
    requires n < |images| && Ordered(images, n, sorted, at) && sorted != []
    requires images[n].loadAddress < sorted[|sorted| - 1].loadAddress
    requires Ordered(images, n + 1, part, inner) && forall i :: i in inner ==> i == n || i in at[..|at| - 1]
    ensures Ordered(images, n + 1, part + [sorted[|sorted| - 1]], inner + [at[|at| - 1]])
  {
    var last := |at| - 1;
    forall k | 0 <= k < |inner| ensures inner[k] < |images| && Before(images, inner[k], at[last]) {
      assert inner[k] in inner;
      if inner[k] != n {
        var m :| 0 <= m < |at[..last]| && at[..last][m] == inner[k];
        assert Before(images, at[m], at[last]);
      }
    }
    hide Before;
  }

  lemma {:induction false} SortedBy(images: seq<LoadedImage>, n: nat) returns (at: seq<nat>)
    requires n <= |images|
    ensures |at| == n && Ordered(images, n, Sorted(images[..n]), at)
    decreases n
  {
    if n == 0 {
      at := [];
    } else {
      var before := SortedBy(images, n - 1);
      assert images[..n][..n - 1] == images[..n - 1];
      assert Sorted(images[..n]) == InsertImage(Sorted(images[..n - 1]), images[n - 1]);
      hide Sorted, InsertImage;
      at := InsertedAt(images, n - 1, Sorted(images[..n - 1]), before);
    }
  }

  /** The mapping is the image: it ends where the next begins, the last one with its file, or after a byte. */
  ghost predicate ShowsLoaded(p: Profile, images: seq<LoadedImage>, at: seq<nat>, i: nat)
    requires SortedAt(images, at) && i < |at| == |p.mappings|
  {
    var m, image := p.mappings[i], images[at[i]];
    && m.id == i + 1 && m.memoryStart == image.loadAddress && m.fileOffset == 0
    && Reads(p, m.filename, image.path) && Reads(p, m.buildId, [])
    && !m.hasFunctions && !m.hasFilenames && !m.hasLineNumbers && !m.hasInlineFrames
    && m.memoryLimit ==
      if i + 1 < |at| then images[at[i + 1]].loadAddress
      else
        var end := image.loadAddress + match image.fileSize case Some(size) => size case None => 1;
        if end > 0xFFFF_FFFF_FFFF_FFFF then 0xFFFF_FFFF_FFFF_FFFF else end
  }

  lemma BuiltMapping(p: Profile, images: seq<LoadedImage>, at: seq<nat>, i: nat)
    requires TablesOk(p) && ImagesPlaced(p, Sorted(images), |images|)
    requires SortedAt(images, at) && |Sorted(images)| == |at|
    requires forall k :: 0 <= k < |at| ==> Sorted(images)[k] == images[at[k]]
    requires i < |at| == |p.mappings|
    ensures ShowsLoaded(p, images, at, i)
  {
    hide StringsOk, FrameOk, Sorted;
    assert MappingOk(p, i);
    assert MappingAt(p, i + 1) == Some(ImageOf(Sorted(images), i));
  }

  /** All images, in the order of their addresses, with what is known of them. */
  lemma BuiltImages(p: Profile, profile: SymbolicatedProfile) returns (at: seq<nat>)
    requires Builds(p, profile)
    ensures SortedAt(profile.images, at) && |p.mappings| == |at|
    ensures forall i :: 0 <= i < |at| ==> ShowsLoaded(p, profile.images, at, i)
  {
    hide TablesOk, LiveHeaded, AllShown, EntriesFor, ShowsLoaded, MappingAt, ImageOf;
    var images := profile.images;
    at := SortedBy(images, |images|);
    assert images[..|images|] == images;
    hide Sorted;
    forall i | 0 <= i < |at| ensures ShowsLoaded(p, images, at, i) {
      BuiltMapping(p, images, at, i);
    }
  }

  // ----- Frames -----

  // The mappings that begin at or below an address are the first `n`.
  ghost predicate BeginBelow(p: Profile, address: u64, n: nat) {
    && n <= |p.mappings|
    && forall i :: 0 <= i < |p.mappings| ==> (i < n <==> p.mappings[i].memoryStart <= address)
  }

  /** The image of an address is the last that begins at or below it; without one there is none. */
  ghost predicate InNearest(p: Profile, address: u64, id: u64) {
    exists n: nat :: BeginBelow(p, address, n)
      && if n == 0 then id == 0 else 1 <= id <= |p.mappings| && AlikeMappings(p, p.mappings[id - 1], p.mappings[n - 1])
  }

  ghost predicate AlikeMappings(p: Profile, a: Mapping, b: Mapping) {
    && a.memoryStart == b.memoryStart && a.memoryLimit == b.memoryLimit && a.fileOffset == b.fileOffset
    && a.filename < |p.strings.strings| && b.filename < |p.strings.strings|
    && p.strings.strings[a.filename] == p.strings.strings[b.filename]
  }

  /** The id leads to a location at the address with the frame's names and line, in the nearest image. */
  ghost predicate ShowsAddress(p: Profile, id: u64, address: u64, info: FrameInfo) {
    exists l, g :: l in p.locations && g in p.functions && l.id == id && IsLocation(p, l, g, address, info)
  }

  ghost predicate IsLocation(p: Profile, l: Location, g: Function, address: u64, info: FrameInfo) {
    && l.address == address && |l.lines| == 1 && l.lines[0] == Line(g.id, info.line, 0) && !l.isFolded
    && Reads(p, g.name, info.name) && g.systemName == g.name && Reads(p, g.filename, info.file) && g.startLine == 0
    && InNearest(p, address, l.mappingId)
  }

  lemma BelowCounts(images: seq<LoadedImage>, address: u64, i: nat)
    requires Ascending(images) && i < |images|
    ensures i < Below(images, address) <==> images[i].loadAddress <= address
  {
    hide Below;
    var n := Below(images, address);
    if n <= i {
      assert images[n].loadAddress <= images[i].loadAddress;
    }
  }

  lemma MappingStarts(p: Profile, images: seq<LoadedImage>, i: nat)
    requires TablesOk(p) && ImagesPlaced(p, images, |images|) && i < |images|
    ensures |p.mappings| == |images| && MappingOk(p, i) && p.mappings[i].memoryStart == images[i].loadAddress
    ensures MappingAt(p, i + 1) == Some(ImageOf(images, i))
  {
    hide StringsOk, FrameOk, Limit;
    assert MappingAt(p, i + 1) == Some(ImageOf(images, i));
  }

  lemma MappingPerImage(p: Profile, images: seq<LoadedImage>)
    requires ImagesPlaced(p, images, |images|)
    ensures |p.mappings| == |images|
  {
    hide MappingAt, ImageOf;
  }

  // An id that leads to the image of an address.
  lemma NearestShown(p: Profile, images: seq<LoadedImage>, address: u64, id: u64)
    requires TablesOk(p) && Ascending(images) && ImagesPlaced(p, images, |images|) && id <= |p.mappings|
    requires MappingAt(p, id) == LiveRender.ImageAt(images, address)
    ensures InNearest(p, address, id)
  {
    hide TablesOk, Below, ImageOf, Ascending, ImagesPlaced;
    var n := Below(images, address);
    MappingPerImage(p, images);
    forall i | 0 <= i < |p.mappings| ensures i < n <==> p.mappings[i].memoryStart <= address {
      MappingStarts(p, images, i);
      BelowCounts(images, address, i);
    }
    assert BeginBelow(p, address, n);
    if n > 0 {
      MappingStarts(p, images, n - 1);
      MappingStarts(p, images, id - 1);
    }
  }

  lemma AddressShown(p: Profile, d: SymbolicatedProfile, id: u64, address: u64)
    requires TablesOk(p) && Ascending(d.images) && ImagesPlaced(p, d.images, |d.images|) && address in d.frames
    requires 1 <= id <= |p.locations| && FrameAt(p, id).Some?
    requires FrameLocation(FrameAt(p, id).value) == FrameLocation(AddressFrame(d, address))
    ensures ShowsAddress(p, id, address, d.frames[address])
  {
    hide StringsOk, MappingOk, LiveRender.ImageAt, ImagesPlaced, Ascending;
    FrameShape(p, id);
    var l, g := p.locations[id - 1], p.functions[id - 1];
    assert FrameAt(p, id).value.mapping == MappingAt(p, l.mappingId);
    SameImages(FrameAt(p, id).value, AddressFrame(d, address));
    NearestShown(p, d.images, address, l.mappingId);
    hide InNearest;
    assert IsLocation(p, l, g, address, d.frames[address]);
  }

  lemma SameImages(f: HeapFrame, g: HeapFrame)
    requires FrameLocation(f) == FrameLocation(g)
    ensures f == g
  {
  }

  // ----- Samples -----

  // The addresses of a stack that have a frame, by their positions.
  ghost predicate FramedAt(d: SymbolicatedProfile, stack: seq<u64>, at: seq<nat>) {
    && (forall k, m :: 0 <= k < m < |at| ==> at[k] < at[m])
    && (forall i: nat :: i in at <==> i < |stack| && stack[i] in d.frames)
  }

  lemma {:induction false} StackFrom(d: SymbolicatedProfile, stack: seq<u64>) returns (at: seq<nat>)
    ensures FramedAt(d, stack, at) && |StackOf(d, stack)| == |at|
    ensures forall k :: 0 <= k < |at| ==>
      && at[k] < |stack| && stack[at[k]] in d.frames
      && StackOf(d, stack)[k] == FrameLocation(AddressFrame(d, stack[at[k]]))
    decreases |stack|
  {
    hide AddressFrame, FrameLocation;
    if stack == [] {
      at := [];
    } else {
      var n := |stack| - 1;
      var before := StackFrom(d, stack[..n]);
      var here: seq<nat> := if stack[n] in d.frames then [n] else [];
      at := before + here;
      forall i: nat ensures i in at <==> i < |stack| && stack[i] in d.frames {
        assert i in at <==> i in before || i in here;
        assert i < n ==> stack[..n][i] == stack[i];
      }
    }
  }

  ghost predicate StackShows(p: Profile, d: SymbolicatedProfile, ids: seq<u64>, stack: seq<u64>) {
    exists at :: FramedAt(d, stack, at) && IdsShow(p, d, ids, stack, at)
  }

  ghost predicate IdsShow(p: Profile, d: SymbolicatedProfile, ids: seq<u64>, stack: seq<u64>, at: seq<nat>) {
    && |ids| == |at|
    && forall k :: 0 <= k < |at| ==>
         && at[k] < |stack| && stack[at[k]] in d.frames
         && ShowsAddress(p, ids[k], stack[at[k]], d.frames[stack[at[k]]])
  }

  // A label with a text, or with a number and its unit.
  ghost predicate TextLabel(p: Profile, l: Label, key: Text, text: Text) {
    Reads(p, l.key, key) && Reads(p, l.strIndex, text) && l.num == 0 && Reads(p, l.numUnit, [])
  }

  ghost predicate NumberLabel(p: Profile, l: Label, key: Text, num: i64, unit: Text) {
    Reads(p, l.key, key) && Reads(p, l.strIndex, []) && l.num == num && Reads(p, l.numUnit, unit)
  }

  /** First the thread as a 64-bit number, then its name if it has one, then the time if there is one. */
  ghost predicate LabelsShow(p: Profile, d: SymbolicatedProfile, labels: seq<Label>, s: LiveSample) {
    var named := s.threadId in d.threads && d.threads[s.threadId] != [];
    var first := if named then 2 else 1;
    && |labels| == first + (if s.timestamp.Some? then 1 else 0)
    && NumberLabel(p, labels[0], Ascii("thread_id"),
                   if s.threadId <= I64_MAX then s.threadId else s.threadId - U64_SIZE, [])
    && (named ==> TextLabel(p, labels[1], Ascii("thread_name"), d.threads[s.threadId]))
    && (s.timestamp.Some? ==>
          NumberLabel(p, labels[first], Ascii("pprofessor::timestamp"),
                      if s.timestamp.value <= I64_MAX then s.timestamp.value else I64_MAX, Ascii("nanoseconds")))
  }

  /** The count and the wall time, the count taken times the nanoseconds from one sample to the next; both as far as
      they fit an int64. */
  ghost predicate ValuesShow(d: SymbolicatedProfile, values: seq<i64>, count: u64)
    requires d.freq > 0
  {
    && |values| == 2
    && values[0] == (if count <= 0x7FFF_FFFF_FFFF_FFFF then count else 0x7FFF_FFFF_FFFF_FFFF)
    && var time: int := values[0] * (1_000_000_000 / d.freq);
      values[1] == if time <= 0x7FFF_FFFF_FFFF_FFFF then time else 0x7FFF_FFFF_FFFF_FFFF
  }

  ghost predicate SampleShows(p: Profile, d: SymbolicatedProfile, out: Sample, s: LiveSample)
    requires d.freq > 0
  {
    StackShows(p, d, out.locationIds, s.stack) && LabelsShow(p, d, out.labels, s) && ValuesShow(d, out.values, s.count)
  }

  lemma ValuesAreShown(d: SymbolicatedProfile, count: u64)
    requires d.freq > 0
    ensures ValuesShow(d, ValuesOf(d, count), count)
  {
  }

  lemma LabelReads(p: Profile, l: Label, m: Acc.LabelMeaning)
    requires StringsOk(p) && LabelShown(p.strings.strings, l, m)
    ensures Reads(p, l.key, m.key) && Reads(p, l.strIndex, m.str) && l.num == m.num && Reads(p, l.numUnit, m.numUnit)
  {
  }

  lemma LabelsAreShown(p: Profile, d: SymbolicatedProfile, labels: seq<Label>, s: LiveSample)
    requires StringsOk(p) && LabelsShown(p.strings.strings, labels, LabelsOf(d, s))
    ensures LabelsShow(p, d, labels, s)
  {
    hide Ascii, StringsOk, LabelShown, Reads;
    var meanings := LabelsOf(d, s);
    LabelReads(p, labels[0], meanings[0]);
    if |labels| > 1 {
      LabelReads(p, labels[1], meanings[1]);
    }
    if |labels| > 2 {
      LabelReads(p, labels[2], meanings[2]);
    }
  }

  lemma StackIsShown(p: Profile, d: SymbolicatedProfile, ids: seq<u64>, stack: seq<u64>)
    requires TablesOk(p) && Ascending(d.images) && ImagesPlaced(p, d.images, |d.images|)
    requires StackShown(p, ids, StackOf(d, stack))
    ensures StackShows(p, d, ids, stack) && (ids == [] <==> StackOf(d, stack) == [])
  {
    hide TablesOk, Ascending, ImagesPlaced, StackOf, FrameAt, AddressFrame, FrameLocation, ShowsAddress, FramedAt;
    var at := StackFrom(d, stack);
    forall k | 0 <= k < |at| ensures ShowsAddress(p, ids[k], stack[at[k]], d.frames[stack[at[k]]]) {
      AddressShown(p, d, ids[k], stack[at[k]]);
    }
    assert IdsShow(p, d, ids, stack, at);
  }

  // The samples that have a stack.
  ghost predicate StackedAt(d: SymbolicatedProfile, n: nat, from: seq<nat>)
    requires n <= |d.samples|
  {
    && (forall k, m :: 0 <= k < m < |from| ==> from[k] < from[m])
    && (forall i: nat :: i in from <==> i < n && HasFrame(d, d.samples[i].stack))
  }

  ghost predicate HasFrame(d: SymbolicatedProfile, stack: seq<u64>) {
    exists i :: 0 <= i < |stack| && stack[i] in d.frames
  }

  lemma StackThere(d: SymbolicatedProfile, stack: seq<u64>)
    ensures StackOf(d, stack) != [] <==> HasFrame(d, stack)
  {
    hide StackOf;
    var at := StackFrom(d, stack);
    if HasFrame(d, stack) {
      var i: nat :| i < |stack| && stack[i] in d.frames;
      assert i in at;
    }
    if at != [] {
      assert stack[at[0]] in d.frames;
    }
  }

  lemma {:induction false} EntriesFrom(d: SymbolicatedProfile, n: nat) returns (from: seq<nat>)
    requires n <= |d.samples|
    ensures StackedAt(d, n, from) && |EntriesFor(d, n)| == |from|
    ensures forall k :: 0 <= k < |from| ==>
      from[k] < n && EntriesFor(d, n)[k] == EntryOf(d, d.samples[from[k]])
    decreases n
  {
    hide StackOf, EntryOf, HasFrame;
    if n == 0 {
      from := [];
    } else {
      var before := EntriesFrom(d, n - 1);
      StackThere(d, d.samples[n - 1].stack);
      var here: seq<nat> := if HasFrame(d, d.samples[n - 1].stack) then [n - 1] else [];
      from := before + here;
      forall i: nat ensures i in from <==> i < n && HasFrame(d, d.samples[i].stack) {
        assert i in from <==> i in before || i in here;
      }
    }
  }

  lemma SampleIsShown(p: Profile, profile: SymbolicatedProfile, out: Sample, s: LiveSample)
    requires TablesOk(p) && ImagesPlaced(p, Sorted(profile.images), |profile.images|) && profile.freq > 0
    requires Shown(p, out, EntryOf(InOrder(profile), s))
    ensures SampleShows(p, profile, out, s)
  {
    hide TablesOk, StringsOk, ImagesPlaced, Sorted, StackShown, LabelsShown, StackOf, LabelsOf, ValuesOf, StackShows,
         LabelsShow, ValuesShow;
    var d := InOrder(profile);
    SortedKeeps(profile.images);
    StackIsShown(p, d, out.locationIds, s.stack);
    TablesStrings(p);
    LabelsAreShown(p, d, out.labels, s);
    ValuesAreShown(d, s.count);
    SameButImages(p, profile, d, out, s);
  }

  // Nothing of a sample depends on the order of the images.
  lemma SameButImages(p: Profile, profile: SymbolicatedProfile, d: SymbolicatedProfile, out: Sample, s: LiveSample)
    requires d == profile.(images := d.images) && d.freq > 0
    requires SampleShows(p, d, out, s)
    ensures SampleShows(p, profile, out, s)
  {
    hide ShowsAddress, TextLabel, NumberLabel, Ascii;
    var at :| FramedAt(d, s.stack, at) && IdsShow(p, d, out.locationIds, s.stack, at);
    assert FramedAt(profile, s.stack, at) && IdsShow(p, profile, out.locationIds, s.stack, at);
  }

  lemma SameFrames(profile: SymbolicatedProfile, d: SymbolicatedProfile, stack: seq<u64>)
    requires d.frames == profile.frames
    ensures HasFrame(d, stack) <==> HasFrame(profile, stack)
  {
  }

  /** One sample for each that has a frame, in their order: its stack, its labels and its values. */
  lemma BuiltSamples(p: Profile, profile: SymbolicatedProfile) returns (from: seq<nat>)
    requires Builds(p, profile) && profile.freq > 0
    ensures StackedAt(profile, |profile.samples|, from) && |p.samples| == |from|
    ensures forall k :: 0 <= k < |from| ==>
      from[k] < |profile.samples| && SampleShows(p, profile, p.samples[k], profile.samples[from[k]])
  {
    hide TablesOk, LiveHeaded, ImagesPlaced, EntriesFor, Sorted, HasFrame, EntryOf, Shown, SampleShows;
    var d := InOrder(profile);
    from := EntriesFrom(d, |d.samples|);
    forall i | 0 <= i < |d.samples| ensures HasFrame(d, d.samples[i].stack) <==> HasFrame(profile, d.samples[i].stack) {
      SameFrames(profile, d, d.samples[i].stack);
    }
    forall k | 0 <= k < |from|
      ensures SampleShows(p, profile, p.samples[k], profile.samples[from[k]])
    {
      SampleIsShown(p, profile, p.samples[k], profile.samples[from[k]]);
    }
  }

  /** The same of what the app decodes: from the bytes it has two values for each sample, the count and the wall time,
      and a period, in terms of the counts and the frequency. */
  lemma DecodedValues(p: Profile, profile: SymbolicatedProfile) returns (from: seq<nat>)
    requires Builds(p, profile) && profile.freq > 0 && |Codec.Encode(p)| <= I64_MAX
    ensures var d := AppDecode(Codec.Encode(p));
      && d.period == 1_000_000_000 / profile.freq
      && StackedAt(profile, |profile.samples|, from) && |d.samples| == |from|
      && forall k :: 0 <= k < |from| ==>
           from[k] < |profile.samples| && ValuesShow(profile, d.samples[k].values, profile.samples[from[k]].count)
  {
    hide TablesOk, ImagesPlaced, EntriesFor, Sorted, AllShown, StackedAt, StackShows, LabelsShow, ValuesShow,
         Codec.Encode, AppDecode;
    BuiltArrives(p, profile);
    from := BuiltSamples(p, profile);
  }

  // ----- The header -----

  ghost predicate TypeReads(p: Profile, t: ValueType, typ: Text, unit: Text) {
    Reads(p, t.typ, typ) && Reads(p, t.unit, unit)
  }

  /** Two columns, the samples counted and their wall time; a period of wall time; the times; and nothing else. */
  ghost predicate HeaderShows(p: Profile, d: SymbolicatedProfile)
    requires d.freq > 0
  {
    && |p.valueTypes| == 2
    && TypeReads(p, p.valueTypes[0], Ascii("samples"), Ascii("count"))
    && TypeReads(p, p.valueTypes[1], Ascii("wall"), Ascii("nanoseconds"))
    && TypeReads(p, p.periodType, Ascii("wall"), Ascii("nanoseconds")) && p.period == 1_000_000_000 / d.freq
    && p.timeNanos == d.startNanos && p.durationNanos == d.durationNanos
    && p.dropFrames == 0 && p.keepFrames == 0 && p.comments == [] && p.defaultSampleType == 0 && p.docUrl == 0
  }

  lemma BuiltHeader(p: Profile, profile: SymbolicatedProfile)
    requires Builds(p, profile) && profile.freq > 0
    ensures HeaderShows(p, profile)
  {
    hide TablesOk, ImagesPlaced, AllShown, EntriesFor, Sorted, Ascii;
  }

  // ----- The app's copy -----

  ghost predicate SameMapping(m: Mapping, a: Acc.ProfMapping) {
    && a.id == m.id && a.memoryStart == m.memoryStart && a.memoryLimit == m.memoryLimit
    && a.fileOffset == m.fileOffset && a.filename == m.filename && a.buildId == m.buildId
    && a.flags.functions == m.hasFunctions && a.flags.filenames == m.hasFilenames
    && a.flags.lineNumbers == m.hasLineNumbers && a.flags.inlineFrames == m.hasInlineFrames
  }

  ghost predicate SameFunction(f: Function, a: Acc.ProfFunction) {
    && a.id == f.id && a.name == f.name && a.systemName == f.systemName && a.filename == f.filename
    && a.startLine == f.startLine
  }

  ghost predicate SameLocation(l: Location, a: Acc.ProfLocation) {
    && a.id == l.id && a.mappingId == l.mappingId && a.address == l.address && a.isFolded == l.isFolded
    && |a.lines| == |l.lines|
    && forall i :: 0 <= i < |l.lines| ==>
         && a.lines[i].functionId == l.lines[i].functionId && a.lines[i].line == l.lines[i].line
         && a.lines[i].column == l.lines[i].column
  }

  ghost predicate SameSample(s: Sample, a: Acc.ProfSample) {
    && |a.locationIds| == |s.locationIds|
    && (forall i :: 0 <= i < |s.locationIds| ==> a.locationIds[i] == s.locationIds[i])
    && a.values == s.values && |a.labels| == |s.labels|
    && forall i :: 0 <= i < |s.labels| ==>
         && a.labels[i].key == s.labels[i].key && a.labels[i].str == s.labels[i].strIndex
         && a.labels[i].num == s.labels[i].num && a.labels[i].numUnit == s.labels[i].numUnit
  }

  /** The app has every entry as it was decoded, in its place; a period type of zeros it takes for none. */
  lemma AppHasAll(p: Profile)
    ensures var d := AppProfile(p);
      && d.stringTable == p.strings.strings
      && |d.mappings| == |p.mappings|
      && (forall i :: 0 <= i < |p.mappings| ==> SameMapping(p.mappings[i], d.mappings[i]))
      && |d.functions| == |p.functions|
      && (forall i :: 0 <= i < |p.functions| ==> SameFunction(p.functions[i], d.functions[i]))
      && |d.locations| == |p.locations|
      && (forall i :: 0 <= i < |p.locations| ==> SameLocation(p.locations[i], d.locations[i]))
      && |d.samples| == |p.samples| && (forall i :: 0 <= i < |p.samples| ==> SameSample(p.samples[i], d.samples[i]))
      && |d.sampleTypes| == |p.valueTypes|
      && (forall i :: 0 <= i < |p.valueTypes| ==>
            d.sampleTypes[i].typ == p.valueTypes[i].typ && d.sampleTypes[i].unit == p.valueTypes[i].unit)
      && d.timeNanos == p.timeNanos && d.durationNanos == p.durationNanos && d.period == p.period
      && (d.periodType.None? <==> p.periodType.typ == 0 && p.periodType.unit == 0)
      && (d.periodType.Some? ==>
            d.periodType.value.typ == p.periodType.typ && d.periodType.value.unit == p.periodType.unit)
  {
    var d := AppProfile(p);
    forall i | 0 <= i < |p.mappings| ensures SameMapping(p.mappings[i], d.mappings[i]) {
    }
    forall i | 0 <= i < |p.functions| ensures SameFunction(p.functions[i], d.functions[i]) {
    }
    forall i | 0 <= i < |p.locations| ensures SameLocation(p.locations[i], d.locations[i]) {
    }
    forall i | 0 <= i < |p.samples| ensures SameSample(p.samples[i], d.samples[i]) {
    }
  }
}
