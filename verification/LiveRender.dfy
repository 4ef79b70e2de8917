/** What a live update carries: a delta symbolicated (`src/symbolicated.rs`) and built as pprof
    (`src/encode.rs`), and what the app reads of it.  Every sample arrives with its frames, names and
    image, its thread and its time; and for every thread and stack the counts add up to the delta's. */
module LiveRender {
  import opened Prelude
  import opened Pprof
  import opened HeapModel
  import opened HeapExport
  import opened LiveCounts
  import opened SessionStream
  import Acc = LiveAccumulator
  import Codec = PprofCodec
  import Live = LiveSession
  import Log = AllocationLog

  type u32 = x: int | 0 <= x < 0x1_0000_0000

  type FrameInfo = Log.FrameInfo

  // `fileSize` is the length of the image's file, if it can be read.
  datatype LoadedImage = LoadedImage(path: Text, loadAddress: u64, fileSize: Option<u64>)

  // Leaf first.
  datatype LiveSample = LiveSample(threadId: u64, stack: seq<u64>, count: u64, timestamp: Option<u64>)

  datatype SymbolicatedProfile = SymbolicatedProfile(
    images: seq<LoadedImage>, frames: map<u64, FrameInfo>, threads: map<u64, Text>, samples: seq<LiveSample>,
    startNanos: i64, durationNanos: i64, freq: u32)

  // What Rust's `String` guarantees of the input.
  ghost predicate TextOk(profile: SymbolicatedProfile) {
    && (forall i :: 0 <= i < |profile.images| ==> Codec.ValidUtf8(profile.images[i].path))
    && (forall a :: a in profile.frames ==> InfoOk(profile.frames[a]))
    && (forall t :: t in profile.threads ==> Codec.ValidUtf8(profile.threads[t]))
  }

  ghost predicate InfoOk(info: FrameInfo) {
    Codec.ValidUtf8(info.name) && Codec.ValidUtf8(info.file)
  }

  // ----- What the app reads -----

  function AppType(t: ValueType): Acc.ProfType {
    Acc.ProfType(t.typ, t.unit)
  }

  function AppLabel(l: Label): Acc.ProfLabel {
    Acc.ProfLabel(l.key, l.strIndex, l.num, l.numUnit)
  }

  function AppSample(s: Sample): Acc.ProfSample {
    Acc.ProfSample(seq(|s.locationIds|, i requires 0 <= i < |s.locationIds| => s.locationIds[i] as nat), s.values,
                   seq(|s.labels|, i requires 0 <= i < |s.labels| => AppLabel(s.labels[i])))
  }

  function AppMapping(m: Mapping): Acc.ProfMapping {
    Acc.ProfMapping(m.id, m.memoryStart, m.memoryLimit, m.fileOffset, m.filename, m.buildId,
                    Acc.MappingFlags(m.hasFunctions, m.hasFilenames, m.hasLineNumbers, m.hasInlineFrames))
  }

  function AppLine(l: Line): Acc.ProfLine {
    Acc.ProfLine(l.functionId, l.line, l.column)
  }

  function AppLocation(l: Location): Acc.ProfLocation {
    Acc.ProfLocation(l.id, l.mappingId, l.address,
                     seq(|l.lines|, i requires 0 <= i < |l.lines| => AppLine(l.lines[i])), l.isFolded)
  }

  function AppFunction(f: Function): Acc.ProfFunction {
    Acc.ProfFunction(f.id, f.name, f.systemName, f.filename, f.startLine)
  }

  /** The profile as the app holds it. */
  function AppProfile(p: Profile): Acc.DecodedProfile {
    Acc.DecodedProfile(
      seq(|p.valueTypes|, i requires 0 <= i < |p.valueTypes| => AppType(p.valueTypes[i])),
      seq(|p.samples|, i requires 0 <= i < |p.samples| => AppSample(p.samples[i])),
      seq(|p.mappings|, i requires 0 <= i < |p.mappings| => AppMapping(p.mappings[i])),
      seq(|p.locations|, i requires 0 <= i < |p.locations| => AppLocation(p.locations[i])),
      seq(|p.functions|, i requires 0 <= i < |p.functions| => AppFunction(p.functions[i])),
      p.strings.strings, p.timeNanos, p.durationNanos,
      if p.periodType == NO_TYPE then None else Some(AppType(p.periodType)),
      p.period, p.defaultSampleType,
      seq(|p.comments|, i requires 0 <= i < |p.comments| => p.comments[i] as nat),
      p.dropFrames, p.keepFrames, p.docUrl)
  }

  const EMPTY_APP_PROFILE: Acc.DecodedProfile :=
    Acc.DecodedProfile([], [], [], [], [], [], 0, 0, None, 0, 0, [], 0, 0, 0)

  /** The payload of a profile frame, decoded; one that does not decode stands for an empty profile. */
  function AppDecode(payload: seq<u8>): Acc.DecodedProfile {
    match Codec.Decode(payload)
    case Ok(p) => AppProfile(p)
    case Err(_) => EMPTY_APP_PROFILE
  }

  // ----- What the tables mean to the app -----

  function ImageKey(m: HeapMapping): Acc.MappingKey {
    Acc.MappingKey(m.buildId, m.filename, m.memoryStart, m.memoryLimit, m.fileOffset)
  }

  function FrameLocation(f: HeapFrame): Acc.LocationMeaning {
    Acc.LocationMeaning(if f.mapping.Some? then Some(ImageKey(f.mapping.value)) else None, f.address,
                        [Acc.LineMeaning(Acc.FunctionKey(f.name, f.name, f.file, 0), f.line, 0)], false)
  }

  // Tables whose ids count from one are read by place.
  lemma {:induction false} MappingsByPlace(d: Acc.DecodedProfile, n: nat, id: nat)
    requires n <= |d.mappings| && forall i :: 0 <= i < n ==> d.mappings[i].id == i + 1
    ensures id in Acc.IncomingMappings(d, n) <==> 1 <= id <= n
    ensures id in Acc.IncomingMappings(d, n) ==>
      Acc.IncomingMappings(d, n)[id] == Acc.MappingKeyOf(d.stringTable, d.mappings[id - 1])
  {
    hide Acc.MappingKeyOf;
    if n > 0 {
      MappingsByPlace(d, n - 1, id);
    }
  }

  lemma {:induction false} FunctionsByPlace(d: Acc.DecodedProfile, n: nat, id: nat)
    requires n <= |d.functions| && forall i :: 0 <= i < n ==> d.functions[i].id == i + 1
    ensures id in Acc.IncomingFunctions(d, n) <==> 1 <= id <= n
    ensures id in Acc.IncomingFunctions(d, n) ==> Acc.IncomingFunctions(d, n)[id] == d.functions[id - 1]
  {
    if n > 0 {
      FunctionsByPlace(d, n - 1, d.functions[n - 1].id);
      FunctionsByPlace(d, n - 1, id);
    }
  }

  lemma {:induction false} LocationsByPlace(d: Acc.DecodedProfile, n: nat, id: nat)
    requires n <= |d.locations| && forall i :: 0 <= i < n ==> d.locations[i].id == i + 1
    ensures id in Acc.IncomingLocations(d, n) <==> 1 <= id <= n
    ensures id in Acc.IncomingLocations(d, n) ==>
      Acc.IncomingLocations(d, n)[id] == Acc.IncomingLocation(d, d.locations[id - 1])
  {
    hide Acc.IncomingLocation;
    if n > 0 {
      LocationsByPlace(d, n - 1, id);
    }
  }

  // The app has the same tables.
  lemma AppMappings(p: Profile)
    requires TablesOk(p)
    ensures var d := AppProfile(p);
      && d.stringTable == p.strings.strings && |d.mappings| == |p.mappings|
      && forall i :: 0 <= i < |p.mappings| ==> d.mappings[i].id == i + 1 && d.mappings[i] == AppMapping(p.mappings[i])
  {
    hide StringsOk, FrameOk, AppLocation, AppFunction, AppSample;
    forall i | 0 <= i < |p.mappings| ensures AppMapping(p.mappings[i]).id == i + 1 {
      assert MappingOk(p, i);
    }
  }

  lemma AppFunctions(p: Profile)
    requires TablesOk(p)
    ensures var d := AppProfile(p);
      && d.stringTable == p.strings.strings && |d.functions| == |p.functions|
      && forall i :: 0 <= i < |p.functions| ==>
        d.functions[i].id == i + 1 && d.functions[i] == AppFunction(p.functions[i])
  {
    hide StringsOk, MappingOk, AppLocation, AppMapping, AppSample;
    forall i | 0 <= i < |p.functions| ensures AppFunction(p.functions[i]).id == i + 1 {
      assert FrameOk(p, i);
    }
  }

  lemma AppLocations(p: Profile)
    requires TablesOk(p)
    ensures var d := AppProfile(p);
      && |d.locations| == |p.locations| == |p.functions|
      && forall i :: 0 <= i < |p.locations| ==>
        d.locations[i].id == i + 1 && d.locations[i] == AppLocation(p.locations[i])
  {
    hide StringsOk, MappingOk, AppFunction, AppMapping, AppSample;
    forall i | 0 <= i < |p.locations| ensures AppLocation(p.locations[i]).id == i + 1 {
      assert FrameOk(p, i);
    }
  }

  // The mapping of an id, if there is one.
  function AppImage(d: Acc.DecodedProfile, id: nat): Option<Acc.MappingKey> {
    var table := Acc.IncomingMappings(d, |d.mappings|);
    if id in table then Some(table[id]) else None
  }

  function ImageMeaning(p: Profile, id: nat): Option<Acc.MappingKey> {
    var image := MappingAt(p, id);
    if image.Some? then Some(ImageKey(image.value)) else None
  }

  lemma MappingArrives(p: Profile, id: nat)
    requires TablesOk(p) && id <= |p.mappings|
    ensures AppImage(AppProfile(p), id) == ImageMeaning(p, id)
  {
    AppMappings(p);
    hide TablesOk, AppProfile, Acc.IncomingMappings;
    MappingsByPlace(AppProfile(p), |p.mappings|, id);
  }

  lemma FunctionArrives(p: Profile, id: nat)
    requires TablesOk(p) && 1 <= id <= |p.functions|
    ensures id in Acc.IncomingFunctions(AppProfile(p), |AppProfile(p).functions|)
    ensures Acc.IncomingFunctions(AppProfile(p), |AppProfile(p).functions|)[id] == AppFunction(p.functions[id - 1])
  {
    AppFunctions(p);
    hide TablesOk, AppProfile, AppFunction, Acc.IncomingFunctions;
    FunctionsByPlace(AppProfile(p), |p.functions|, id);
  }

  function LineOf(p: Profile, f: Function, l: Line): Acc.LineMeaning {
    Acc.LineMeaning(Acc.FunctionKey(p.strings.Get(f.name), p.strings.Get(f.systemName), p.strings.Get(f.filename),
                                    f.startLine),
                    l.line, l.column)
  }

  lemma LineArrives(p: Profile, l: Location)
    requires TablesOk(p) && |l.lines| == 1 && 1 <= l.lines[0].functionId <= |p.functions|
    ensures Acc.LineMeanings(AppProfile(p), AppLocation(l).lines, 1)
      == [LineOf(p, p.functions[l.lines[0].functionId - 1], l.lines[0])]
  {
    FunctionArrives(p, l.lines[0].functionId);
    AppFunctions(p);
    hide TablesOk, AppProfile, Acc.IncomingFunctions, Acc.LineMeanings;
    OneLine(AppProfile(p), AppLocation(l).lines);
  }

  lemma OneLine(d: Acc.DecodedProfile, lines: seq<Acc.ProfLine>)
    requires |lines| == 1 && lines[0].functionId in Acc.IncomingFunctions(d, |d.functions|)
    ensures Acc.LineMeanings(d, lines, 1)
         == [Acc.LineMeaning(Acc.FunctionKeyOf(d.stringTable,
                                               Acc.IncomingFunctions(d, |d.functions|)[lines[0].functionId]),
                             lines[0].line, lines[0].column)]
  {
    hide Acc.IncomingFunctions;
    assert Acc.LineMeanings(d, lines, 0) == [];
  }

  lemma LocationParts(d: Acc.DecodedProfile, l: Acc.ProfLocation)
    ensures Acc.IncomingLocation(d, l)
         == Acc.LocationMeaning(AppImage(d, l.mappingId), l.address, Acc.LineMeanings(d, l.lines, |l.lines|),
                                l.isFolded)
  {
    hide Acc.IncomingMappings, Acc.LineMeanings;
  }

  lemma FrameParts(p: Profile, id: nat)
    requires 1 <= id <= |p.locations| && id <= |p.functions| && FrameOk(p, id - 1)
    ensures var l := p.locations[id - 1];
      && FrameAt(p, id).Some?
      && FrameLocation(FrameAt(p, id).value)
         == Acc.LocationMeaning(ImageMeaning(p, l.mappingId), l.address, [LineOf(p, p.functions[id - 1], l.lines[0])],
                                false)
  {
    hide StringTable.Get, MappingAt, ImageKey;
  }

  /** A location means its frame to the app. */
  lemma LocationArrives(p: Profile, id: nat)
    requires TablesOk(p) && 1 <= id <= |p.locations|
    ensures FrameAt(p, id).Some?
    ensures Acc.IncomingLocation(AppProfile(p), AppLocation(p.locations[id - 1])) == FrameLocation(FrameAt(p, id).value)
  {
    hide TablesOk, AppProfile, AppLocation, AppImage, ImageMeaning, LineOf, FrameLocation, FrameAt, Acc.LineMeanings,
         Acc.IncomingLocation;
    FrameShape(p, id);
    var l := p.locations[id - 1];
    FrameParts(p, id);
    MappingArrives(p, l.mappingId);
    LineArrives(p, l);
    LocationParts(AppProfile(p), AppLocation(l));
    SameParts(l);
  }

  lemma FrameShape(p: Profile, id: nat)
    requires TablesOk(p) && 1 <= id <= |p.locations|
    ensures |p.functions| == |p.locations| && FrameOk(p, id - 1)
    ensures var l := p.locations[id - 1];
      |l.lines| == 1 && l.lines[0].functionId == id && l.mappingId <= |p.mappings| && !l.isFolded
  {
    assert FrameOk(p, id - 1);
  }

  lemma SameParts(l: Location)
    ensures var a := AppLocation(l);
      a.mappingId == l.mappingId && a.address == l.address && a.isFolded == l.isFolded && |a.lines| == |l.lines|
  {
  }

  lemma LocationsArrive(p: Profile, id: nat)
    requires TablesOk(p) && 1 <= id <= |p.locations|
    ensures id in Acc.IncomingLocations(AppProfile(p), |AppProfile(p).locations|) && FrameAt(p, id).Some?
    ensures Acc.IncomingLocations(AppProfile(p), |AppProfile(p).locations|)[id] == FrameLocation(FrameAt(p, id).value)
  {
    LocationArrives(p, id);
    AppLocations(p);
    hide TablesOk, AppProfile, AppLocation, FrameAt, FrameLocation, Acc.IncomingLocations, Acc.IncomingLocation;
    LocationsByPlace(AppProfile(p), |p.locations|, id);
  }

  // ----- Samples -----

  ghost predicate StackShown(p: Profile, ids: seq<u64>, stack: seq<Acc.LocationMeaning>) {
    && |ids| == |stack|
    && forall i :: 0 <= i < |ids| ==>
         1 <= ids[i] <= |p.locations| && FrameAt(p, ids[i]).Some? && FrameLocation(FrameAt(p, ids[i]).value) == stack[i]
  }

  ghost predicate LabelShown(strings: seq<Text>, l: Label, m: Acc.LabelMeaning) {
    && 0 < l.key < |strings| && l.strIndex < |strings| && l.numUnit < |strings|
    && Acc.LabelMeaningOf(strings, AppLabel(l)) == m
  }

  ghost predicate LabelsShown(strings: seq<Text>, labels: seq<Label>, meanings: seq<Acc.LabelMeaning>) {
    |labels| == |meanings| && forall i :: 0 <= i < |labels| ==> LabelShown(strings, labels[i], meanings[i])
  }

  /** The sample means this, and has these values. */
  ghost predicate Shown(p: Profile, s: Sample, e: Acc.Entry) {
    StackShown(p, s.locationIds, e.0.stack) && LabelsShown(p.strings.strings, s.labels, e.0.labels) && s.values == e.1
  }

  lemma ShownStays(p: Profile, q: Profile, s: Sample, e: Acc.Entry)
    requires TablesOk(p) && Grew(p, q) && Shown(p, s, e)
    ensures Shown(q, s, e)
  {
    hide TablesOk, FrameAt, FrameLocation;
    forall i | 0 <= i < |s.locationIds| ensures FrameAt(q, s.locationIds[i]) == FrameAt(p, s.locationIds[i]) {
      FrameStays(p, q, s.locationIds[i]);
    }
    forall i | 0 <= i < |s.labels| ensures LabelShown(q.strings.strings, s.labels[i], e.0.labels[i]) {
      LabelStays(p.strings.strings, q.strings.strings, s.labels[i], e.0.labels[i]);
    }
  }

  lemma LabelStays(strings: seq<Text>, more: seq<Text>, l: Label, m: Acc.LabelMeaning)
    requires LabelShown(strings, l, m) && strings <= more
    ensures LabelShown(more, l, m)
  {
  }

  lemma {:induction false} KnownStack(ids: seq<nat>, table: map<nat, Acc.LocationMeaning>,
                                      stack: seq<Acc.LocationMeaning>, n: nat)
    requires |ids| == |stack| && n <= |ids|
    requires forall i :: 0 <= i < |ids| ==> ids[i] in table && table[ids[i]] == stack[i]
    ensures Acc.Known(ids, table, n) == stack[..n]
  {
    if n > 0 {
      KnownStack(ids, table, stack, n - 1);
    }
  }

  lemma SampleArrives(p: Profile, s: Sample, e: Acc.Entry)
    requires TablesOk(p) && Shown(p, s, e)
    ensures Acc.IncomingSample(AppProfile(p), AppSample(s)) == e.0
  {
    hide TablesOk, FrameAt, FrameLocation, Acc.IncomingLocations, Acc.Known, LabelShown;
    var d, out := AppProfile(p), AppSample(s);
    forall i | 0 <= i < |s.locationIds|
      ensures out.locationIds[i] in Acc.IncomingLocations(d, |d.locations|)
      ensures Acc.IncomingLocations(d, |d.locations|)[out.locationIds[i]] == e.0.stack[i]
    {
      LocationsArrive(p, s.locationIds[i]);
    }
    KnownStack(out.locationIds, Acc.IncomingLocations(d, |d.locations|), e.0.stack, |out.locationIds|);
    assert e.0.stack[..|out.locationIds|] == e.0.stack;
    forall i | 0 <= i < |s.labels| ensures Acc.LabelMeaningOf(d.stringTable, out.labels[i]) == e.0.labels[i] {
      assert LabelShown(p.strings.strings, s.labels[i], e.0.labels[i]);
      LabelArrives(p.strings.strings, s.labels[i], e.0.labels[i]);
    }
    assert Acc.LabelMeanings(d.stringTable, out.labels) == e.0.labels;
  }

  lemma LabelArrives(strings: seq<Text>, l: Label, m: Acc.LabelMeaning)
    requires LabelShown(strings, l, m)
    ensures Acc.LabelMeaningOf(strings, AppLabel(l)) == m
  {
  }

  /** All samples of a profile mean these entries. */
  ghost predicate AllShown(p: Profile, entries: seq<Acc.Entry>) {
    |p.samples| == |entries| && forall j :: 0 <= j < |entries| ==> Shown(p, p.samples[j], entries[j])
  }

  lemma EntriesArrive(p: Profile, entries: seq<Acc.Entry>)
    requires TablesOk(p) && AllShown(p, entries)
    ensures Acc.IncomingEntries(AppProfile(p)) == entries
  {
    hide TablesOk, Shown, Acc.IncomingSample, AppSample;
    var d := AppProfile(p);
    forall j | 0 <= j < |entries| ensures Acc.IncomingEntries(d)[j] == entries[j] {
      SampleArrives(p, p.samples[j], entries[j]);
      SameValues(p, p.samples[j], entries[j]);
    }
  }

  lemma SameValues(p: Profile, s: Sample, e: Acc.Entry)
    requires Shown(p, s, e)
    ensures AppSample(s).values == e.1
  {
  }

  // ----- What a symbolicated profile is to become -----

  const SAMPLES: Text := Ascii("samples")
  const WALL: Text := Ascii("wall")
  const NANOSECONDS: Text := Ascii("nanoseconds")
  const THREAD_NAME: Text := Ascii("thread_name")
  const TIMESTAMP: Text := Ascii("pprofessor::timestamp")

  // Into a list that ascends, behind what has the same address: the sort is stable.
  function InsertImage(images: seq<LoadedImage>, image: LoadedImage): (r: seq<LoadedImage>)
    ensures |r| == |images| + 1
  {
    if images == [] || images[|images| - 1].loadAddress <= image.loadAddress then images + [image]
    else InsertImage(images[..|images| - 1], image) + [images[|images| - 1]]
  }

  /** `sort_by_key(load_address)`. */
  function Sorted(images: seq<LoadedImage>): (r: seq<LoadedImage>)
    ensures |r| == |images|
  {
    if images == [] then [] else InsertImage(Sorted(images[..|images| - 1]), images[|images| - 1])
  }

  /** `partition_point(|image| image.load_address <= addr)`. */
  function Below(images: seq<LoadedImage>, address: u64): (n: nat)
    ensures n <= |images|
    ensures n < |images| ==> images[n].loadAddress > address
    ensures forall i :: 0 <= i < n ==> images[i].loadAddress <= address
  {
    if images == [] || images[0].loadAddress > address then 0 else 1 + Below(images[1..], address)
  }

  // An image ends where the next begins, the last one with its file.
  function Limit(images: seq<LoadedImage>, i: nat): u64
    requires i < |images|
  {
    if i + 1 < |images| then images[i + 1].loadAddress
    else Min(images[i].loadAddress + (if images[i].fileSize.Some? then images[i].fileSize.value else 1), U64_SIZE - 1)
  }

  function ImageOf(images: seq<LoadedImage>, i: nat): HeapMapping
    requires i < |images|
  {
    HeapMapping(images[i].loadAddress, Limit(images, i), 0, images[i].path, [])
  }

  function ImageAt(images: seq<LoadedImage>, address: u64): Option<HeapMapping> {
    var n := Below(images, address);
    if n == 0 then None else Some(ImageOf(images, n - 1))
  }

  function AddressFrame(d: SymbolicatedProfile, address: u64): HeapFrame
    requires address in d.frames
  {
    var info := d.frames[address];
    HeapFrame(address, info.name, info.file, info.line, ImageAt(d.images, address))
  }

  // Addresses without a frame are skipped.
  function StackOf(d: SymbolicatedProfile, stack: seq<u64>): seq<Acc.LocationMeaning> {
    if stack == [] then []
    else
      var address := stack[|stack| - 1];
      StackOf(d, stack[..|stack| - 1]) + if address in d.frames then [FrameLocation(AddressFrame(d, address))] else []
  }

  function ThreadName(d: SymbolicatedProfile, thread: u64): Text {
    if thread in d.threads then d.threads[thread] else []
  }

  function LabelsOf(d: SymbolicatedProfile, s: LiveSample): seq<Acc.LabelMeaning> {
    var name := ThreadName(d, s.threadId);
    [Acc.LabelMeaning(THREAD_ID, [], AsI64(s.threadId), [])]
    + (if name == [] then [] else [Acc.LabelMeaning(THREAD_NAME, name, 0, [])])
    + match s.timestamp
      case None => []
      case Some(t) => [Acc.LabelMeaning(TIMESTAMP, [], Min(t, I64_MAX), NANOSECONDS)]
  }

  function Period(freq: u32): (p: nat)
    ensures p <= 1_000_000_000
  {
    if freq == 0 then 0 else 1_000_000_000 / freq
  }

  // `saturating_mul` of two numbers that are not negative.
  function WallTime(count: nat, period: nat): i64 {
    var product := count * period;
    if product > I64_MAX then I64_MAX else product
  }

  function ValuesOf(d: SymbolicatedProfile, count: u64): seq<i64> {
    [Min(count, I64_MAX), WallTime(Min(count, I64_MAX), Period(d.freq))]
  }

  function EntryOf(d: SymbolicatedProfile, s: LiveSample): Acc.Entry {
    (Acc.SampleMeaning(StackOf(d, s.stack), LabelsOf(d, s)), ValuesOf(d, s.count))
  }

  /** The samples that have a stack, with all that they are to mean. */
  function EntriesFor(d: SymbolicatedProfile, n: nat): seq<Acc.Entry>
    requires n <= |d.samples|
  {
    if n == 0 then []
    else
      var s := d.samples[n - 1];
      EntriesFor(d, n - 1) + if StackOf(d, s.stack) == [] then [] else [EntryOf(d, s)]
  }

  // ----- Building -----

  // Positions of the labels' texts.
  datatype LabelIds = LabelIds(threadId: u64, threadName: u64, timestamp: u64, nanoseconds: u64)

  ghost predicate IdsOk(strings: seq<Text>, ids: LabelIds) {
    && Placed(strings, ids.threadId, THREAD_ID) && Placed(strings, ids.threadName, THREAD_NAME)
    && Placed(strings, ids.timestamp, TIMESTAMP) && Placed(strings, ids.nanoseconds, NANOSECONDS)
  }

  ghost predicate Placed(strings: seq<Text>, id: nat, text: Text) {
    0 < id < |strings| && strings[id] == text
  }

  ghost predicate TypeShown(strings: seq<Text>, t: ValueType, typ: Text, unit: Text) {
    Placed(strings, t.typ, typ) && Placed(strings, t.unit, unit)
  }

  /** The header is complete. */
  ghost predicate LiveHeaded(p: Profile, d: SymbolicatedProfile) {
    && |p.valueTypes| == 2
    && TypeShown(p.strings.strings, p.valueTypes[0], SAMPLES, COUNT)
    && TypeShown(p.strings.strings, p.valueTypes[1], WALL, NANOSECONDS)
    && p.periodType == p.valueTypes[1] && p.period == Period(d.freq)
    && p.timeNanos == d.startNanos && p.durationNanos == d.durationNanos
    && p.dropFrames == 0 && p.keepFrames == 0 && p.comments == [] && p.defaultSampleType == 0 && p.docUrl == 0
  }

  lemma IdsStay(strings: seq<Text>, more: seq<Text>, ids: LabelIds)
    requires IdsOk(strings, ids) && strings <= more
    ensures IdsOk(more, ids)
  {
  }

  lemma HeaderStays(p: Profile, q: Profile, d: SymbolicatedProfile)
    requires LiveHeaded(p, d) && p.strings.strings <= q.strings.strings
    requires q == p.(strings := q.strings, samples := q.samples, mappings := q.mappings, functions := q.functions,
                     locations := q.locations)
    ensures LiveHeaded(q, d)
  {
    hide SAMPLES, COUNT, WALL, NANOSECONDS;
  }

  lemma TextsWritable()
    ensures Writable(SAMPLES) && Writable(COUNT) && Writable(WALL) && Writable(NANOSECONDS)
    ensures Writable(THREAD_ID) && Writable(THREAD_NAME) && Writable(TIMESTAMP)
  {
    hide Ascii, Writable;
    LiteralWritable(SAMPLES);
    LiteralWritable(COUNT);
    LiteralWritable(WALL);
    LiteralWritable(NANOSECONDS);
    LiteralWritable(THREAD_ID);
    LiteralWritable(THREAD_NAME);
    LiteralWritable(TIMESTAMP);
  }

  // A text of the header.
  method InternText(p: Profile, text: Text) returns (q: Profile, id: u64)
    requires StringsOk(p) && Writable(text) && |p.strings.strings| < I64_MAX
    ensures StringsOk(q) && q == p.(strings := q.strings) && p.strings.strings <= q.strings.strings
    ensures |q.strings.strings| <= |p.strings.strings| + 1 && Placed(q.strings.strings, id, text)
  {
    hide StringsOk, Codec.ValidUtf8;
    q, id := InternInto(p, text);
  }

  method LiveHeader(d: SymbolicatedProfile) returns (p: Profile, ids: LabelIds)
    requires d.freq > 0
    ensures TablesOk(p) && IdsOk(p.strings.strings, ids) && LiveHeaded(p, d) && |p.strings.strings| <= 9
    ensures p.samples == [] && p.mappings == [] && p.locations == [] && p.functions == []
  {
    NewStringsOk();
    TextsWritable();
    hide StringsOk, Writable, SAMPLES, COUNT, WALL, NANOSECONDS, THREAD_ID, THREAD_NAME, TIMESTAMP, StringTable.Intern;
    var samples, count, wall, nanoseconds, threadId, threadName, timestamp, nanosecondsLabel: u64;
    p := EMPTY_PROFILE.(strings := NEW_STRINGS);
    p, samples := InternText(p, SAMPLES);
    p, count := InternText(p, COUNT);
    p, wall := InternText(p, WALL);
    p, nanoseconds := InternText(p, NANOSECONDS);
    p, threadId := InternText(p, THREAD_ID);
    p, threadName := InternText(p, THREAD_NAME);
    p, timestamp := InternText(p, TIMESTAMP);
    p, nanosecondsLabel := InternText(p, NANOSECONDS);
    ids := LabelIds(threadId, threadName, timestamp, nanosecondsLabel);
    ghost var named := p;
    p := p.(valueTypes := [ValueType(samples, count), ValueType(wall, nanoseconds)]);
    p := p.(periodType := ValueType(wall, nanoseconds), period := 1_000_000_000 / d.freq,
            durationNanos := d.durationNanos, timeNanos := d.startNanos);
    SameStrings(named, p);
  }

  // Nothing is said of a mapping's details.
  predicate Unflagged(m: Mapping) {
    !m.hasFunctions && !m.hasFilenames && !m.hasLineNumbers && !m.hasInlineFrames
  }

  /** The images that are there, in order, under the ids 1, 2, ... */
  ghost predicate ImagesPlaced(p: Profile, images: seq<LoadedImage>, n: nat) {
    && n == |p.mappings| <= |images|
    && forall i :: 0 <= i < n ==> MappingAt(p, i + 1) == Some(ImageOf(images, i)) && Unflagged(p.mappings[i])
  }

  method AddImages(p: Profile, images: seq<LoadedImage>) returns (q: Profile)
    requires TablesOk(p) && p.mappings == [] && |p.strings.strings| + |images| <= I64_MAX
    requires forall i :: 0 <= i < |images| ==> Codec.ValidUtf8(images[i].path)
    ensures TablesOk(q) && Grew(p, q) && q == p.(strings := q.strings, mappings := q.mappings)
    ensures ImagesPlaced(q, images, |images|) && |q.strings.strings| <= |p.strings.strings| + |images|
  {
    hide TablesOk, StringsOk, Codec.ValidUtf8, ImageOf, MappingAt, StringTable.Intern;
    q := p;
    for index := 0 to |images|
      invariant TablesOk(q) && Grew(p, q) && q == p.(strings := q.strings, mappings := q.mappings)
      invariant ImagesPlaced(q, images, index) && |q.strings.strings| <= |p.strings.strings| + index
    {
      q := AddImage(q, images, index);
    }
  }

  method AddImage(p: Profile, images: seq<LoadedImage>, index: nat) returns (q: Profile)
    requires TablesOk(p) && index < |images| <= I64_MAX && ImagesPlaced(p, images, index)
    requires |p.strings.strings| < I64_MAX && Codec.ValidUtf8(images[index].path)
    ensures TablesOk(q) && Grew(p, q) && q == p.(strings := q.strings, mappings := q.mappings)
    ensures ImagesPlaced(q, images, index + 1) && |q.strings.strings| <= |p.strings.strings| + 1
  {
    hide TablesOk, StringsOk, Codec.ValidUtf8, MappingAt, StringTable.Intern, StringTable.Get;
    TablesStrings(p);
    var image := images[index];
    var filename: u64;
    q, filename := InternInto(p, image.path);
    ghost var named := q;
    StringsGrow(p, named);
    EmptyText(named);
    var m := Mapping(index + 1, image.loadAddress, Limit(images, index), 0, filename, 0, false, false, false, false);
    q := q.(mappings := q.mappings + [m]);
    MappingAdded(named, q, m);
    assert MappingMeaning(named.strings, m) == ImageOf(images, index) by {
      TextAt(named, filename);
      TextAt(named, 0);
    }
    forall i | 0 <= i < index ensures MappingAt(q, i + 1) == Some(ImageOf(images, i)) {
      MappingStays(p, q, i + 1);
    }
  }

  lemma EmptyText(p: Profile)
    requires StringsOk(p)
    ensures 0 < |p.strings.strings| && p.strings.strings[0] == []
  {
  }

  lemma TextAt(p: Profile, id: u64)
    requires id < |p.strings.strings|
    ensures p.strings.Get(id) == p.strings.strings[id]
  {
  }

  /** The locations that are there, by their addresses. */
  ghost predicate LocationsPlaced(p: Profile, d: SymbolicatedProfile, known: map<u64, u64>) {
    && |p.functions| == |known| && known.Keys <= d.frames.Keys
    && forall a :: a in known ==>
         a in d.frames && 1 <= known[a] <= |p.locations| && FrameAt(p, known[a]) == Some(AddressFrame(d, a))
  }

  lemma LocationsStay(p: Profile, q: Profile, d: SymbolicatedProfile, known: map<u64, u64>)
    requires TablesOk(p) && Grew(p, q) && LocationsPlaced(p, d, known) && q.functions == p.functions
    ensures LocationsPlaced(q, d, known)
  {
    hide TablesOk, FrameAt, AddressFrame;
    forall a | a in known ensures FrameAt(q, known[a]) == Some(AddressFrame(d, a)) {
      FrameStays(p, q, known[a]);
    }
  }

  // A function and a location for an address that has none yet.  The source keeps a second map for the
  // functions, whose addresses and ids are always the same.
  method AddLocation(p: Profile, d: SymbolicatedProfile, address: u64, known: map<u64, u64>)
    returns (q: Profile, id: u64)
    requires TablesOk(p) && ImagesPlaced(p, d.images, |d.images|) && LocationsPlaced(p, d, known)
    requires address in d.frames && address !in known && InfoOk(d.frames[address])
    requires |p.strings.strings| + 2 <= I64_MAX && |p.functions| < I64_MAX && |d.images| <= I64_MAX
    ensures TablesOk(q) && Grew(p, q)
    ensures q == p.(strings := q.strings, functions := q.functions, locations := q.locations)
    ensures |q.strings.strings| <= |p.strings.strings| + 2
    ensures LocationsPlaced(q, d, known[address := id]) && 1 <= id <= |q.locations|
  {
    hide TablesOk, StringsOk, Codec.ValidUtf8, StringTable.Intern, StringTable.Get, LocationsPlaced, FrameAt;
    TablesStrings(p);
    PlacedCount(p, d, known);
    var frame := d.frames[address];
    var name, file: u64;
    q, name := InternInto(p, frame.name);
    ghost var p1 := q;
    q, file := InternInto(q, frame.file);
    ghost var p2 := q;
    StringsGrow(p, p2);
    id := |p.functions| + 1;
    var f := Function(id, name, name, file, 0);
    var l := Location(id, Below(d.images, address), address, [Line(id, frame.line, 0)], false);
    q := q.(functions := q.functions + [f], locations := q.locations + [l]);
    TablesStrings(p2);
    FrameAdded(p2, q, f, l);
    assert p2.strings.strings[name] == p1.strings.strings[name];
    FrameBuilt(p, p2, d, l, f);
    LocationsNext(p, q, d, known, address, id);
  }

  lemma PlacedCount(p: Profile, d: SymbolicatedProfile, known: map<u64, u64>)
    requires LocationsPlaced(p, d, known)
    ensures |p.functions| == |known| <= |d.frames| && known.Keys <= d.frames.Keys
  {
    SubsetSize(known.Keys, d.frames.Keys);
  }

  lemma FrameBuilt(p: Profile, q: Profile, d: SymbolicatedProfile, l: Location, f: Function)
    requires TablesOk(p) && Grew(p, q) && ImagesPlaced(p, d.images, |d.images|) && l.address in d.frames
    requires f.name < |q.strings.strings| && q.strings.strings[f.name] == d.frames[l.address].name
    requires f.filename < |q.strings.strings| && q.strings.strings[f.filename] == d.frames[l.address].file
    requires l.mappingId == Below(d.images, l.address) && |l.lines| == 1 && l.lines[0].line == d.frames[l.address].line
    ensures FrameMeaning(q, l, f) == AddressFrame(d, l.address)
  {
    hide TablesOk, ImageOf;
    if l.mappingId > 0 {
      MappingStays(p, q, l.mappingId);
      assert MappingAt(p, l.mappingId - 1 + 1) == Some(ImageOf(d.images, l.mappingId - 1));
    }
  }

  lemma LocationsNext(p: Profile, q: Profile, d: SymbolicatedProfile, known: map<u64, u64>, address: u64, id: u64)
    requires TablesOk(p) && Grew(p, q) && LocationsPlaced(p, d, known) && address in d.frames && address !in known
    requires id == |q.functions| == |p.functions| + 1 && 1 <= id <= |q.locations|
    requires FrameAt(q, id) == Some(AddressFrame(d, address))
    ensures LocationsPlaced(q, d, known[address := id])
  {
    hide TablesOk, FrameAt, AddressFrame;
    forall a | a in known ensures FrameAt(q, known[a]) == Some(AddressFrame(d, a)) {
      FrameStays(p, q, known[a]);
    }
  }

  // How many strings the locations that are still to come can take.
  ghost predicate RoomFor(p: Profile, d: SymbolicatedProfile, known: map<u64, u64>, others: nat) {
    |p.strings.strings| + 2 * (|d.frames| - |known|) + others <= I64_MAX && |d.frames| <= I64_MAX
      && |d.images| <= I64_MAX
  }

  // The locations of a stack, as far as there are frames.
  method AddStack(p: Profile, d: SymbolicatedProfile, stack: seq<u64>, locations: map<u64, u64>, ghost others: nat)
    returns (q: Profile, ids: seq<u64>, known: map<u64, u64>)
    requires TablesOk(p) && ImagesPlaced(p, d.images, |d.images|) && LocationsPlaced(p, d, locations) && TextOk(d)
    requires RoomFor(p, d, locations, others)
    ensures TablesOk(q) && Grew(p, q)
    ensures q == p.(strings := q.strings, functions := q.functions, locations := q.locations)
    ensures LocationsPlaced(q, d, known) && RoomFor(q, d, known, others)
    ensures StackShown(q, ids, StackOf(d, stack))
  {
    hide TablesOk, ImagesPlaced, LocationsPlaced, StackShown, StackOf, AddressFrame, FrameLocation, FrameAt,
         Codec.ValidUtf8;
    q, ids, known := p, [], locations;
    GrewNot(p);
    NoStackShown(p, d);
    assert stack[..0] == [];
    for i := 0 to |stack|
      invariant TablesOk(q) && Grew(p, q)
      invariant q == p.(strings := q.strings, functions := q.functions, locations := q.locations)
      invariant LocationsPlaced(q, d, known) && RoomFor(q, d, known, others)
      invariant StackShown(q, ids, StackOf(d, stack[..i]))
    {
      StackNext(d, stack, i);
      var address := stack[i];
      if address in d.frames {
        ghost var before := q;
        PlacedCount(q, d, known);
        if address !in known {
          ImagesStay(p, q, d.images);
          NotAllKnown(d, known, address);
          var id: u64;
          q, id := AddLocation(q, d, address, known);
          known := known[address := id];
          GrewOn(p, before, q);
        } else {
          GrewNot(q);
        }
        PlacedAt(q, d, known, address);
        StackShownNext(before, q, ids, StackOf(d, stack[..i]), known[address], AddressFrame(d, address));
        ids := ids + [known[address]];
      }
    }
    assert stack[..|stack|] == stack;
  }

  lemma StackNext(d: SymbolicatedProfile, stack: seq<u64>, i: nat)
    requires i < |stack|
    ensures StackOf(d, stack[..i + 1]) ==
      if stack[i] in d.frames then StackOf(d, stack[..i]) + [FrameLocation(AddressFrame(d, stack[i]))]
        else StackOf(d, stack[..i])
  {
    hide AddressFrame, FrameLocation;
    assert stack[..i + 1][..i] == stack[..i];
    assert StackOf(d, stack[..i]) + [] == StackOf(d, stack[..i]);
  }

  lemma NoStackShown(p: Profile, d: SymbolicatedProfile)
    ensures StackShown(p, [], StackOf(d, []))
  {
  }

  lemma ImagesStay(p: Profile, q: Profile, images: seq<LoadedImage>)
    requires ImagesPlaced(p, images, |images|) && TablesOk(p) && Grew(p, q) && q.mappings == p.mappings
    ensures ImagesPlaced(q, images, |images|)
  {
    hide TablesOk, ImageOf, MappingAt;
    forall i | 0 <= i < |images| ensures MappingAt(q, i + 1) == Some(ImageOf(images, i)) {
      MappingStays(p, q, i + 1);
    }
  }

  lemma NotAllKnown(d: SymbolicatedProfile, known: map<u64, u64>, address: u64)
    requires known.Keys <= d.frames.Keys && address in d.frames && address !in known
    ensures |known| < |d.frames|
  {
    SubsetSize(known.Keys + {address}, d.frames.Keys);
  }

  lemma PlacedAt(p: Profile, d: SymbolicatedProfile, known: map<u64, u64>, address: u64)
    requires LocationsPlaced(p, d, known) && address in known
    ensures address in d.frames && 1 <= known[address] <= |p.locations|
    ensures FrameAt(p, known[address]) == Some(AddressFrame(d, address))
  {
  }

  lemma StackShownNext(p: Profile, q: Profile, ids: seq<u64>, stack: seq<Acc.LocationMeaning>, id: u64,
                       frame: HeapFrame)
    requires TablesOk(p) && Grew(p, q) && StackShown(p, ids, stack)
    requires 1 <= id <= |q.locations| && FrameAt(q, id) == Some(frame)
    ensures StackShown(q, ids + [id], stack + [FrameLocation(frame)])
  {
    hide TablesOk, FrameAt, FrameLocation;
    forall i | 0 <= i < |ids| ensures FrameAt(q, ids[i]) == FrameAt(p, ids[i]) {
      FrameStays(p, q, ids[i]);
    }
  }

  // The labels of a sample.
  method AddLabels(p: Profile, d: SymbolicatedProfile, ids: LabelIds, s: LiveSample) returns (q: Profile,
                   labels: seq<Label>)
    requires TablesOk(p) && IdsOk(p.strings.strings, ids) && TextOk(d) && |p.strings.strings| < I64_MAX
    ensures TablesOk(q) && Grew(p, q) && q == p.(strings := q.strings) && |q.strings.strings| <= |p.strings.strings| + 1
    ensures LabelsShown(q.strings.strings, labels, LabelsOf(d, s))
  {
    hide TablesOk, StringsOk, Codec.ValidUtf8, StringTable.Intern, THREAD_ID, THREAD_NAME, TIMESTAMP, NANOSECONDS;
    TablesStrings(p);
    GrewNot(p);
    EmptyText(p);
    q := p;
    labels := [Label(ids.threadId, 0, AsI64(s.threadId), 0)];
    var name := if s.threadId in d.threads then d.threads[s.threadId] else [];
    if name != [] {
      var nameId: u64;
      q, nameId := InternInto(q, name);
      StringsGrow(p, q);
      labels := labels + [Label(ids.threadName, nameId, 0, 0)];
    }
    IdsStay(p.strings.strings, q.strings.strings, ids);
    if s.timestamp.Some? {
      labels := labels + [Label(ids.timestamp, 0, Min(s.timestamp.value, I64_MAX), ids.nanoseconds)];
    }
  }

  method AddSamples(p: Profile, d: SymbolicatedProfile, ids: LabelIds) returns (q: Profile)
    requires TablesOk(p) && ImagesPlaced(p, d.images, |d.images|) && TextOk(d) && IdsOk(p.strings.strings, ids)
    requires p.samples == [] && p.functions == [] && p.locations == []
    requires RoomFor(p, d, map[], |d.samples|)
    ensures TablesOk(q) && Grew(p, q)
    ensures q == p.(strings := q.strings, samples := q.samples, functions := q.functions, locations := q.locations)
    ensures AllShown(q, EntriesFor(d, |d.samples|))
  {
    hide TablesOk, ImagesPlaced, LocationsPlaced, StackShown, LabelsShown, IdsOk, EntryOf, LabelsOf, Shown;
    q := p;
    GrewNot(p);
    var locations: map<u64, u64> := map[];
    NoLocations(p, d);
    for i := 0 to |d.samples|
      invariant TablesOk(q) && Grew(p, q)
      invariant q == p.(strings := q.strings, samples := q.samples, functions := q.functions, locations := q.locations)
      invariant LocationsPlaced(q, d, locations) && RoomFor(q, d, locations, |d.samples| - i)
      invariant AllShown(q, EntriesFor(d, i))
    {
      var s := d.samples[i];
      ghost var before := q;
      ImagesStay(p, q, d.images);
      IdsStay(p.strings.strings, q.strings.strings, ids);
      var stack: seq<u64>;
      q, stack, locations := AddStack(q, d, s.stack, locations, |d.samples| - i);
      ghost var stacked := q;
      GrewOn(p, before, stacked);
      AllShownStay(before, stacked, EntriesFor(d, i));
      StackEmpty(stacked, stack, StackOf(d, s.stack));
      if stack != [] {
        IdsStay(p.strings.strings, q.strings.strings, ids);
        PlacedCount(q, d, locations);
        var labels: seq<Label>;
        q, labels := AddLabels(q, d, ids, s);
        ghost var labelled := q;
        var count := Min(s.count, I64_MAX);
        var sample := Sample(stack, [count, WallTime(count, Period(d.freq))], labels);
        q := q.(samples := q.samples + [sample]);
        OneMoreSample(stacked, labelled, q, d, i, sample);
        LocationsStay(stacked, labelled, d, locations);
        LocationsStay(labelled, q, d, locations);
        GrewOn(p, stacked, labelled);
        GrewOn(p, labelled, q);
      }
    }
  }

  lemma NoLocations(p: Profile, d: SymbolicatedProfile)
    ensures p.functions == [] ==> LocationsPlaced(p, d, map[])
    ensures p.samples == [] ==> AllShown(p, [])
  {
  }

  lemma AllShownStay(p: Profile, q: Profile, entries: seq<Acc.Entry>)
    requires TablesOk(p) && Grew(p, q) && AllShown(p, entries) && q.samples == p.samples
    ensures AllShown(q, entries)
  {
    hide TablesOk, Shown;
    forall j | 0 <= j < |entries| ensures Shown(q, q.samples[j], entries[j]) {
      ShownStays(p, q, p.samples[j], entries[j]);
    }
  }

  lemma StackEmpty(p: Profile, ids: seq<u64>, stack: seq<Acc.LocationMeaning>)
    requires StackShown(p, ids, stack)
    ensures ids == [] <==> stack == []
  {
  }

  lemma OneMoreSample(stacked: Profile, labelled: Profile, q: Profile, d: SymbolicatedProfile, i: nat, sample: Sample)
    requires i < |d.samples| && TablesOk(stacked) && TablesOk(labelled) && Grew(stacked, labelled)
    requires AllShown(stacked, EntriesFor(d, i)) && labelled.samples == stacked.samples
    requires q == labelled.(samples := labelled.samples + [sample])
    requires StackShown(stacked, sample.locationIds, StackOf(d, d.samples[i].stack))
    requires StackOf(d, d.samples[i].stack) != []
    requires LabelsShown(labelled.strings.strings, sample.labels, LabelsOf(d, d.samples[i]))
    requires sample.values == ValuesOf(d, d.samples[i].count)
    ensures TablesOk(q) && Grew(labelled, q) && AllShown(q, EntriesFor(d, i + 1))
  {
    hide TablesOk, Shown, LabelsOf, ValuesOf, StackShown, LabelsShown;
    TablesAside(labelled, q);
    GrewNot(labelled);
    AllShownStay(stacked, labelled, EntriesFor(d, i));
    var e := EntryOf(d, d.samples[i]);
    StackStays(stacked, q, sample.locationIds, e.0.stack);
    assert Shown(q, sample, e) by {
      ShownParts(q, sample, e);
    }
    assert EntriesFor(d, i + 1) == EntriesFor(d, i) + [e];
    hide EntriesFor, EntryOf;
    ShownOneMore(labelled, q, EntriesFor(d, i), sample, e);
  }

  lemma ShownOneMore(p: Profile, q: Profile, entries: seq<Acc.Entry>, sample: Sample, e: Acc.Entry)
    requires TablesOk(p) && Grew(p, q) && AllShown(p, entries) && q.samples == p.samples + [sample]
    requires Shown(q, sample, e)
    ensures AllShown(q, entries + [e])
  {
    hide TablesOk, Shown, Grew;
    forall j | 0 <= j < |entries| ensures Shown(q, q.samples[j], entries[j]) {
      ShownStays(p, q, p.samples[j], entries[j]);
    }
  }

  lemma StackStays(p: Profile, q: Profile, ids: seq<u64>, stack: seq<Acc.LocationMeaning>)
    requires TablesOk(p) && Grew(p, q) && StackShown(p, ids, stack)
    ensures StackShown(q, ids, stack)
  {
    hide TablesOk, FrameAt, FrameLocation;
    forall i | 0 <= i < |ids| ensures FrameAt(q, ids[i]) == FrameAt(p, ids[i]) {
      FrameStays(p, q, ids[i]);
    }
  }

  lemma ShownParts(p: Profile, s: Sample, e: Acc.Entry)
    requires StackShown(p, s.locationIds, e.0.stack) && LabelsShown(p.strings.strings, s.labels, e.0.labels)
    requires s.values == e.1
    ensures Shown(p, s, e)
  {
  }

  // ----- The whole profile -----

  // With its images in order.
  function InOrder(profile: SymbolicatedProfile): SymbolicatedProfile {
    profile.(images := Sorted(profile.images))
  }

  lemma {:induction false} InsertKeeps(images: seq<LoadedImage>, image: LoadedImage)
    ensures forall x :: x in InsertImage(images, image) <==> x in images || x == image
    ensures Ascending(images) ==> Ascending(InsertImage(images, image))
  {
    hide Ascending;
    if images == [] || images[|images| - 1].loadAddress <= image.loadAddress {
      AscendingAppend(images, image);
    } else {
      var n := |images| - 1;
      InsertKeeps(images[..n], image);
      assert images == images[..n] + [images[n]];
      AscendingParts(images[..n], images[n]);
      AscendingAppend(InsertImage(images[..n], image), images[n]);
    }
  }

  lemma AscendingAppend(images: seq<LoadedImage>, last: LoadedImage)
    ensures Ascending(images) && (images == [] || images[|images| - 1].loadAddress <= last.loadAddress) ==>
      Ascending(images + [last])
    ensures Ascending(images) && (forall x :: x in images ==> x.loadAddress <= last.loadAddress) ==>
      Ascending(images + [last])
  {
  }

  lemma AscendingParts(images: seq<LoadedImage>, last: LoadedImage)
    ensures Ascending(images + [last]) ==>
      Ascending(images) && forall x :: x in images ==> x.loadAddress <= last.loadAddress
  {
    if Ascending(images + [last]) {
      var all := images + [last];
      forall i, j | 0 <= i < j < |images| ensures images[i].loadAddress <= images[j].loadAddress {
        assert all[i].loadAddress <= all[j].loadAddress;
      }
      forall i | 0 <= i < |images| ensures images[i].loadAddress <= last.loadAddress {
        assert all[i].loadAddress <= all[|images|].loadAddress;
      }
    }
  }

  predicate Ascending(images: seq<LoadedImage>) {
    forall i, j :: 0 <= i < j < |images| ==> images[i].loadAddress <= images[j].loadAddress
  }

  lemma {:induction false} SortedKeeps(images: seq<LoadedImage>)
    ensures Ascending(Sorted(images))
    ensures forall x :: x in Sorted(images) <==> x in images
  {
    if images != [] {
      var n := |images| - 1;
      SortedKeeps(images[..n]);
      InsertKeeps(Sorted(images[..n]), images[n]);
      assert images == images[..n] + [images[n]];
    }
  }

  /** A frame's image is one of those loaded, the nearest below; without one below it has none. */
  lemma NearestImage(images: seq<LoadedImage>, address: u64)
    ensures var n := Below(Sorted(images), address);
      if n == 0 then forall x :: x in images ==> x.loadAddress > address
      else
        && Sorted(images)[n - 1] in images && Sorted(images)[n - 1].loadAddress <= address
        && forall x :: x in images && x.loadAddress <= address ==> x.loadAddress <= Sorted(images)[n - 1].loadAddress
  {
    SortedKeeps(images);
    hide Sorted;
    var sorted, n := Sorted(images), Below(Sorted(images), address);
    forall x | x in images ensures x.loadAddress > address || (n > 0 && x.loadAddress <= sorted[n - 1].loadAddress) {
      assert x in sorted;
      InAscending(sorted, address, x);
    }
  }

  lemma InAscending(images: seq<LoadedImage>, address: u64, x: LoadedImage)
    requires Ascending(images) && x in images
    ensures var n := Below(images, address);
      x.loadAddress > address || (n > 0 && x.loadAddress <= images[n - 1].loadAddress)
  {
    hide Below;
    var i :| 0 <= i < |images| && images[i] == x;
    var n := Below(images, address);
    if n <= i {
      assert images[n].loadAddress <= images[i].loadAddress;
    }
  }

  lemma TextInOrder(profile: SymbolicatedProfile)
    requires TextOk(profile)
    ensures TextOk(InOrder(profile))
  {
    hide Codec.ValidUtf8, InfoOk;
    SortedKeeps(profile.images);
    forall i | 0 <= i < |profile.images| ensures Codec.ValidUtf8(Sorted(profile.images)[i].path) {
      assert Sorted(profile.images)[i] in profile.images;
    }
  }

  // No memory holds such tables.
  predicate TooLarge(profile: SymbolicatedProfile) {
    9 + |profile.images| + 2 * |profile.frames| + |profile.samples| > I64_MAX
  }

  /** The header, the images and all samples with a stack, and what they mean. */
  ghost predicate Builds(p: Profile, profile: SymbolicatedProfile) {
    && TablesOk(p) && LiveHeaded(p, profile)
    && ImagesPlaced(p, Sorted(profile.images), |profile.images|)
    && AllShown(p, EntriesFor(InOrder(profile), |profile.samples|))
  }

  /** `build_proto`: stops only for a frequency of zero, or for want of memory. */
  method BuildProto(profile: SymbolicatedProfile) returns (r: Option<Profile>)
    requires TextOk(profile)
    ensures r.None? <==> profile.freq == 0 || TooLarge(profile)
    ensures r.Some? ==> Builds(r.value, profile)
  {
    hide TextOk, TablesOk, IdsOk, LiveHeaded, ImagesPlaced, AllShown, EntriesFor, Sorted, Codec.ValidUtf8;
    if profile.freq == 0 || TooLarge(profile) {
      return None;
    }
    TextInOrder(profile);
    PathsOk(InOrder(profile));
    var p, ids := LiveHeader(profile);
    ghost var headed := p;
    p := AddImages(p, Sorted(profile.images));
    ghost var placed := p;
    StringsGrew(headed, placed);
    IdsStay(headed.strings.strings, placed.strings.strings, ids);
    p := AddSamples(p, InOrder(profile), ids);
    StringsGrew(placed, p);
    HeaderStays(headed, placed, profile);
    HeaderStays(placed, p, profile);
    ImagesStay(placed, p, Sorted(profile.images));
    r := Some(p);
  }

  lemma PathsOk(profile: SymbolicatedProfile)
    requires TextOk(profile)
    ensures forall i :: 0 <= i < |profile.images| ==> Codec.ValidUtf8(profile.images[i].path)
  {
  }

  lemma BuiltNotEmpty(p: Profile, d: SymbolicatedProfile, entries: seq<Acc.Entry>)
    requires LiveHeaded(p, d) && AllShown(p, entries) && forall e :: e in entries ==> e.1 != []
    ensures NO_TYPE !in p.valueTypes && 0 !in p.comments
    ensures forall s :: s in p.samples ==> s != Codec.NO_SAMPLE && Codec.NO_LABEL !in s.labels
  {
    hide StackShown, Acc.LabelMeaningOf, SAMPLES, COUNT, WALL, NANOSECONDS;
    forall s | s in p.samples ensures s != Codec.NO_SAMPLE && Codec.NO_LABEL !in s.labels {
      var j :| 0 <= j < |p.samples| && p.samples[j] == s;
      assert Shown(p, s, entries[j]) && entries[j] in entries;
    }
  }

  lemma {:induction false} EntriesHaveValues(d: SymbolicatedProfile, n: nat)
    requires n <= |d.samples|
    ensures forall e :: e in EntriesFor(d, n) ==> |e.1| == 2
  {
    if n > 0 {
      EntriesHaveValues(d, n - 1);
    }
  }

  lemma BuiltReadsBack(p: Profile, profile: SymbolicatedProfile)
    requires Builds(p, profile) && |Codec.Encode(p)| <= I64_MAX
    ensures Codec.Decode(Codec.Encode(p)) == Ok(p)
  {
    hide TablesOk, LiveHeaded, ImagesPlaced, AllShown, EntriesFor, Codec.Encode, Codec.Decode, StringsOk;
    EntriesHaveValues(InOrder(profile), |profile.samples|);
    BuiltNotEmpty(p, profile, EntriesFor(InOrder(profile), |profile.samples|));
    NothingEmpty(p);
    TablesStrings(p);
    TextsOk(p);
    Codec.RoundTripIsIdentity(p);
  }

  /** The app reads exactly the samples that were to be sent: frames, names, images, threads, times, values. */
  lemma BuiltArrives(p: Profile, profile: SymbolicatedProfile)
    requires Builds(p, profile) && |Codec.Encode(p)| <= I64_MAX
    ensures AppDecode(Codec.Encode(p)) == AppProfile(p)
    ensures Acc.IncomingEntries(AppProfile(p)) == EntriesFor(InOrder(profile), |profile.samples|)
  {
    hide TablesOk, LiveHeaded, ImagesPlaced, AllShown, EntriesFor, Codec.Encode, Codec.Decode, AppProfile;
    EntriesArrive(p, EntriesFor(InOrder(profile), |profile.samples|));
    BuiltReadsBack(p, profile);
  }

  lemma TextsOk(p: Profile)
    requires StringsOk(p)
    ensures p.strings.strings != [] && p.strings.strings[0] == []
    ensures p.strings.indices == FirstIndices(p.strings.strings) && Codec.WellFormedText(p.strings.strings)
  {
  }

  // ----- Counts -----

  /** How often a thread and stack occur in some samples. */
  function CountOf(samples: seq<LiveSample>, k: Live.Key): nat {
    if samples == [] then 0
    else
      var s := samples[|samples| - 1];
      CountOf(samples[..|samples| - 1], k) + if (s.threadId, s.stack) == k then Min(s.count, I64_MAX) else 0
  }

  // The sample has a stack, and every address of it a frame.
  predicate AllFrames(d: SymbolicatedProfile, s: LiveSample) {
    s.stack != [] && forall i :: 0 <= i < |s.stack| ==> s.stack[i] in d.frames
  }

  lemma {:induction false} AddressesStay(d: SymbolicatedProfile, stack: seq<u64>)
    requires forall i :: 0 <= i < |stack| ==> stack[i] in d.frames
    ensures Addresses(StackOf(d, stack)) == stack
  {
    hide ImageAt;
    if stack != [] {
      var n := |stack| - 1;
      AddressesStay(d, stack[..n]);
      assert Addresses(StackOf(d, stack)) == Addresses(StackOf(d, stack[..n])) + [stack[n]];
    }
  }

  lemma KeyStays(d: SymbolicatedProfile, s: LiveSample)
    requires AllFrames(d, s)
    ensures KeyOf(EntryOf(d, s).0) == Some((s.threadId, s.stack)) && StackOf(d, s.stack) != []
  {
    hide StackOf, THREAD_ID, THREAD_NAME, TIMESTAMP, NANOSECONDS;
    AddressesStay(d, s.stack);
    assert LabelsOf(d, s)[0] == Acc.LabelMeaning(THREAD_ID, [], AsI64(s.threadId), []);
  }

  lemma {:induction false} EntriesCount(d: SymbolicatedProfile, n: nat, k: Live.Key)
    requires n <= |d.samples| && forall i :: 0 <= i < n ==> AllFrames(d, d.samples[i])
    ensures Selected(EntriesFor(d, n), OfKey(k), 0) == CountOf(d.samples[..n], k)
  {
    hide AllFrames, KeyOf, StackOf, LabelsOf;
    if n > 0 {
      var s := d.samples[n - 1];
      EntriesCount(d, n - 1, k);
      KeyStays(d, s);
      assert d.samples[..n][..n - 1] == d.samples[..n - 1];
      assert EntriesFor(d, n) == EntriesFor(d, n - 1) + [EntryOf(d, s)];
      assert EntriesFor(d, n)[..|EntriesFor(d, n)| - 1] == EntriesFor(d, n - 1);
    }
  }

  /** What is measured, and when: the sample types, the period and the times. */
  lemma HeaderArrives(p: Profile, d: SymbolicatedProfile)
    requires LiveHeaded(p, d)
    ensures Acc.HeaderOf(AppProfile(p)) ==
      Acc.HeaderMeaning([(SAMPLES, COUNT), (WALL, NANOSECONDS)], Some((WALL, NANOSECONDS)), [], [], [], [], [],
                        Period(d.freq), d.startNanos, d.durationNanos)
  {
    hide SAMPLES, COUNT, WALL, NANOSECONDS, Period, AppSample, AppMapping, AppLocation, AppFunction;
    var h := AppProfile(p);
    assert Acc.TypeMeanings(h.stringTable, h.sampleTypes) == [(SAMPLES, COUNT), (WALL, NANOSECONDS)];
    assert Acc.CommentTexts(h.stringTable, h.comments) == [];
  }

  // ----- From a delta -----

  // Every address of its stacks.
  function AddressesOf(delta: Live.Snapshot): set<u64> {
    set k, i | k in delta && 0 <= i < |k.1| :: k.1[i]
  }

  /** `Unresolved::Hex`: an address without a symbol is named by its number. */
  function InfoFor(symbolize: u64 -> Option<FrameInfo>, address: u64): FrameInfo {
    var info := symbolize(address);
    if info.Some? then info.value else Log.FrameInfo(HexName(address), [], 0)
  }

  // How many samples a series becomes, by count.
  function SeriesCount(series: Live.Series): nat {
    if series.timestamps.Some? then |series.timestamps.value| else Min(series.count, I64_MAX)
  }

  function TimedSamples(k: Live.Key, timestamps: seq<u64>): (r: seq<LiveSample>)
    ensures |r| == |timestamps|
  {
    seq(|timestamps|, i requires 0 <= i < |timestamps| => LiveSample(k.0, k.1, 1, Some(timestamps[i])))
  }

  // The samples of one thread and stack: one per timestamp, or one with a count.
  function SamplesOf(k: Live.Key, series: Live.Series): seq<LiveSample> {
    if k.1 == [] then []
    else if series.timestamps.Some? then TimedSamples(k, series.timestamps.value)
    else [LiveSample(k.0, k.1, series.count, None)]
  }

  lemma {:induction false} CountConcat(a: seq<LiveSample>, b: seq<LiveSample>, k: Live.Key)
    ensures CountOf(a + b, k) == CountOf(a, k) + CountOf(b, k)
  {
    if b == [] {
      assert a + b == a;
    } else {
      CountConcat(a, b[..|b| - 1], k);
      assert (a + b)[..|a + b| - 1] == a + b[..|b| - 1];
    }
  }

  lemma {:induction false} CountTimed(k: Live.Key, timestamps: seq<u64>, other: Live.Key)
    ensures CountOf(TimedSamples(k, timestamps), other) == if other == k then |timestamps| else 0
  {
    if timestamps != [] {
      var n := |timestamps| - 1;
      CountTimed(k, timestamps[..n], other);
      assert TimedSamples(k, timestamps)[..n] == TimedSamples(k, timestamps[..n]);
    }
  }

  lemma CountSeries(k: Live.Key, series: Live.Series, other: Live.Key)
    ensures CountOf(SamplesOf(k, series), other) == if other == k && k.1 != [] then SeriesCount(series) else 0
  {
    hide TimedSamples;
    if series.timestamps.Some? {
      CountTimed(k, series.timestamps.value, other);
    } else {
      var one := [LiveSample(k.0, k.1, series.count, None)];
      assert one[..0] == [];
    }
  }

  // Of some keys, as if the others were not there.
  function CountAmong(delta: Live.Snapshot, keys: set<Live.Key>, k: Live.Key): nat {
    if k in keys && k in delta && k.1 != [] then SeriesCount(delta[k]) else 0
  }

  // How many samples a series becomes.
  function RunLength(series: Live.Series): nat {
    match series.timestamps case None => 1 case Some(t) => |t|
  }

  /** From a place on stand the samples of one thread and stack: one for each timestamp, in their order, or a single
      one with the count. */
  ghost predicate RunAt(k: Live.Key, series: Live.Series, samples: seq<LiveSample>, at: nat) {
    && at + RunLength(series) <= |samples|
    && match series.timestamps
       case None => samples[at] == LiveSample(k.0, k.1, series.count, None)
       case Some(t) => forall i :: 0 <= i < |t| ==> samples[at + i] == LiveSample(k.0, k.1, 1, Some(t[i]))
  }

  // The sample is one of its series.
  ghost predicate InRun(delta: Live.Snapshot, samples: seq<LiveSample>, starts: map<Live.Key, nat>, i: nat)
    requires i < |samples|
  {
    var k := (samples[i].threadId, samples[i].stack);
    k in starts && k in delta && starts[k] <= i < starts[k] + RunLength(delta[k])
  }

  /** Every series that has a stack stands somewhere, and no other samples are there. */
  ghost predicate Unfolds(delta: Live.Snapshot, keys: set<Live.Key>, samples: seq<LiveSample>,
                          starts: map<Live.Key, nat>) {
    && (forall k :: k in starts <==> k in keys && k in delta && k.1 != [])
    && (forall k :: k in starts && k in delta ==> RunAt(k, delta[k], samples, starts[k]))
    && (forall i :: 0 <= i < |samples| ==> InRun(delta, samples, starts, i))
  }

  /** The frame of an address: its symbol, or its number. */
  ghost predicate Symbolizes(frames: map<u64, FrameInfo>, symbolize: u64 -> Option<FrameInfo>, a: u64) {
    && a in frames
    && match symbolize(a)
       case Some(info) => frames[a] == info
       case None => AddressText(frames[a].name, a) && frames[a].file == [] && frames[a].line == 0
  }

  lemma UnfoldsNext(delta: Live.Snapshot, keys: set<Live.Key>, samples: seq<LiveSample>, starts: map<Live.Key, nat>,
                    key: Live.Key, next: map<Live.Key, nat>)
    requires Unfolds(delta, keys, samples, starts) && key in delta && key !in keys
    requires next == if key.1 == [] then starts else starts[key := |samples|]
    ensures Unfolds(delta, keys + {key}, samples + SamplesOf(key, delta[key]), next)
  {
    var all := samples + SamplesOf(key, delta[key]);
    forall k | k in next && k in delta ensures RunAt(k, delta[k], all, next[k]) {
      if k != key {
        assert RunAt(k, delta[k], samples, starts[k]);
      }
    }
    forall i | 0 <= i < |all| ensures InRun(delta, all, next, i) {
      if i < |samples| {
        assert InRun(delta, samples, starts, i);
      }
    }
  }

  lemma SymbolizesAll(delta: Live.Snapshot, frames: map<u64, FrameInfo>, symbolize: u64 -> Option<FrameInfo>)
    requires frames == map a | a in AddressesOf(delta) :: InfoFor(symbolize, a)
    ensures forall a :: a in frames <==> exists k :: k in delta && a in k.1
    ensures forall a :: a in frames ==> Symbolizes(frames, symbolize, a)
  {
    hide HexName, AddressText;
    forall a | a in frames ensures Symbolizes(frames, symbolize, a) {
      HexNameReads(a);
    }
    forall a ensures a in AddressesOf(delta) <==> exists k :: k in delta && a in k.1 {
      if k :| k in delta && a in k.1 {
        var i :| 0 <= i < |k.1| && k.1[i] == a;
      }
    }
  }

  /** `from_raw_with_symbolizer`: a frame for every address, and the samples of every stack that is not empty. */
  method Symbolicate(delta: Live.Snapshot, symbolize: u64 -> Option<FrameInfo>)
    returns (frames: map<u64, FrameInfo>, samples: seq<LiveSample>)
    ensures frames == map a | a in AddressesOf(delta) :: InfoFor(symbolize, a)
    ensures forall i :: 0 <= i < |samples| ==> samples[i].stack != [] && forall a :: a in samples[i].stack ==>
      a in frames
    ensures forall k: Live.Key :: CountOf(samples, k) == CountAmong(delta, delta.Keys, k)
    ensures forall a :: a in frames <==> exists k :: k in delta && a in k.1
    ensures forall a :: a in frames ==> Symbolizes(frames, symbolize, a)
    ensures exists starts :: Unfolds(delta, delta.Keys, samples, starts)
  {
    hide CountOf, SamplesOf, InfoFor, Unfolds, Symbolizes;
    frames := map[];
    var addresses := AddressesOf(delta);
    while addresses != {}
      invariant addresses <= AddressesOf(delta)
      invariant frames == map a | a in AddressesOf(delta) - addresses :: InfoFor(symbolize, a)
    {
      var address :| address in addresses;
      addresses := addresses - {address};
      var info := symbolize(address);
      frames := frames[address := if info.Some? then info.value else Log.FrameInfo(HexName(address), [], 0)];
      assert frames[address] == InfoFor(symbolize, address) by {
        InfoIs(symbolize, address);
      }
    }
    assert AddressesOf(delta) - {} == AddressesOf(delta);
    SymbolizesAll(delta, frames, symbolize);
    samples := [];
    var todo := delta.Keys;
    ghost var starts: map<Live.Key, nat> := map[];
    NothingCounted(delta);
    assert delta.Keys - todo == {};
    while todo != {}
      invariant todo <= delta.Keys
      invariant forall i :: 0 <= i < |samples| ==> samples[i].stack != [] && forall a :: a in samples[i].stack ==>
        a in frames
      invariant forall k: Live.Key :: CountOf(samples, k) == CountAmong(delta, delta.Keys - todo, k)
      invariant Unfolds(delta, delta.Keys - todo, samples, starts)
    {
      var key :| key in todo;
      ghost var done := delta.Keys - todo;
      todo := todo - {key};
      assert delta.Keys - todo == done + {key};
      SeriesStacks(delta, key);
      ghost var before := samples;
      samples := samples + SamplesOf(key, delta[key]);
      CountNext(delta, done, key, before);
      ghost var next := if key.1 == [] then starts else starts[key := |before|];
      UnfoldsNext(delta, done, before, starts, key, next);
      starts := next;
    }
    assert delta.Keys - {} == delta.Keys;
  }

  lemma InfoIs(symbolize: u64 -> Option<FrameInfo>, address: u64)
    ensures InfoFor(symbolize, address) ==
      var info := symbolize(address); if info.Some? then info.value else Log.FrameInfo(HexName(address), [], 0)
  {
  }

  lemma NothingCounted(delta: Live.Snapshot)
    ensures forall k: Live.Key :: CountOf([], k) == CountAmong(delta, {}, k)
    ensures Unfolds(delta, {}, [], map[])
  {
  }

  lemma SeriesStacks(delta: Live.Snapshot, k: Live.Key)
    requires k in delta
    ensures forall i :: 0 <= i < |SamplesOf(k, delta[k])| ==>
      var s := SamplesOf(k, delta[k])[i]; s.stack != [] && forall a :: a in s.stack ==> a in AddressesOf(delta)
  {
  }

  lemma CountNext(delta: Live.Snapshot, done: set<Live.Key>, key: Live.Key, before: seq<LiveSample>)
    requires key in delta && key !in done
    requires forall k: Live.Key :: CountOf(before, k) == CountAmong(delta, done, k)
    ensures forall k: Live.Key :: CountOf(before + SamplesOf(key, delta[key]), k) == CountAmong(delta, done + {key}, k)
  {
    hide CountOf, SamplesOf, SeriesCount;
    forall k: Live.Key ensures CountOf(before + SamplesOf(key, delta[key]), k) == CountAmong(delta, done + {key}, k) {
      CountConcat(before, SamplesOf(key, delta[key]), k);
      CountSeries(key, delta[key], k);
    }
  }

  // ----- The update -----

  // What else goes into an update: the profile's images and thread names, its times, and the frequency.
  datatype Context = Context(images: seq<LoadedImage>, threads: map<u64, Text>, startNanos: i64, durationNanos: i64,
                             freq: u32)

  ghost predicate ContextOk(c: Context, symbolize: u64 -> Option<FrameInfo>) {
    && (forall i :: 0 <= i < |c.images| ==> Codec.ValidUtf8(c.images[i].path))
    && (forall t :: t in c.threads ==> Codec.ValidUtf8(c.threads[t]))
    && (forall a :: symbolize(a).Some? ==> InfoOk(symbolize(a).value))
  }

  // A profile that would stop the rendering: no frequency, or more than memory can hold.
  ghost predicate Unrendered(d: SymbolicatedProfile) {
    d.freq == 0 || TooLarge(d) || exists p :: Builds(p, d) && |Codec.Encode(p)| > I64_MAX
  }

  /** The symbolicated profile belongs to the delta. */
  ghost predicate Symbolicated(d: SymbolicatedProfile, delta: Live.Snapshot, c: Context,
                               symbolize: u64 -> Option<FrameInfo>) {
    && d == SymbolicatedProfile(c.images, d.frames, c.threads, d.samples, c.startNanos, c.durationNanos, c.freq)
    && d.frames == (map a | a in AddressesOf(delta) :: InfoFor(symbolize, a))
    && (forall a :: a in d.frames ==> Symbolizes(d.frames, symbolize, a))
    && (forall i :: 0 <= i < |d.samples| ==> AllFrames(d, d.samples[i]))
    && (exists starts :: Unfolds(delta, delta.Keys, d.samples, starts))
    && forall k: Live.Key :: CountOf(d.samples, k) == CountAmong(delta, delta.Keys, k)
  }

  /** These entries count what the delta counts, and nothing for a stack without an address. */
  ghost predicate Conveyed(entries: seq<Acc.Entry>, delta: Live.Snapshot) {
    forall k: Live.Key :: Selected(entries, OfKey(k), 0) == if k.1 == [] then 0 else Live.CountIn(delta, k)
  }

  // Every series has one timestamp per count, or none and a count that fits.
  predicate Sendable(delta: Live.Snapshot) {
    forall k :: k in delta && k.1 != [] ==> SeriesCount(delta[k]) == delta[k].count
  }

  /** `to_pprof` of a symbolicated delta: the app reads of it how often each thread was seen on each stack,
      exactly if the delta can be sent without loss. */
  method Render(delta: Live.Snapshot, c: Context, symbolize: u64 -> Option<FrameInfo>)
    returns (payload: Option<seq<u8>>, ghost d: SymbolicatedProfile)
    requires ContextOk(c, symbolize)
    ensures Symbolicated(d, delta, c, symbolize)
    ensures payload.None? ==> Unrendered(d)
    ensures payload.Some? ==>
      && |payload.value| <= I64_MAX
      && Acc.IncomingEntries(AppDecode(payload.value)) == EntriesFor(InOrder(d), |d.samples|)
      && (Sendable(delta) <==> Conveyed(Acc.IncomingEntries(AppDecode(payload.value)), delta))
  {
    hide Builds, CountOf, CountAmong, InfoFor, Unfolds, Symbolizes, InfoOk, Codec.ValidUtf8, Codec.Encode, AppDecode,
         EntriesFor, Sorted, TextOk, AppProfile;
    var frames, samples := Symbolicate(delta, symbolize);
    var profile := SymbolicatedProfile(c.images, frames, c.threads, samples, c.startNanos, c.durationNanos, c.freq);
    d := profile;
    SymbolicatedText(d, delta, c, symbolize);
    var p := BuildProto(profile);
    if p.None? {
      return None, d;
    }
    var bytes := Codec.EncodeProfile(p.value);
    if |bytes| > I64_MAX {
      return None, d;
    }
    BuiltArrives(p.value, profile);
    SymbolicatedConveys(d, delta, c, symbolize);
    payload := Some(bytes);
  }

  /** Merging a rendered delta moves the accumulator's count of every thread and stack by the delta's. */
  lemma MergeAddsDelta(before: seq<Acc.Entry>, after: seq<Acc.Entry>, payload: seq<u8>, delta: Live.Snapshot,
                       k: Live.Key)
    requires Conveyed(Acc.IncomingEntries(AppDecode(payload)), delta)
    requires Acc.AddsAll(before, after, Acc.IncomingEntries(AppDecode(payload)))
    ensures Selected(after, OfKey(k), 0) == Selected(before, OfKey(k), 0)
      + if k.1 == [] then 0 else Live.CountIn(delta, k)
  {
    hide Selected, OfKey, AppDecode, Acc.IncomingEntries, Acc.AddsAll;
    MergeAddsSelected(before, after, Acc.IncomingEntries(AppDecode(payload)), OfKey(k), 0);
  }

  lemma SymbolicatedText(d: SymbolicatedProfile, delta: Live.Snapshot, c: Context, symbolize: u64 -> Option<FrameInfo>)
    requires Symbolicated(d, delta, c, symbolize) && ContextOk(c, symbolize)
    ensures TextOk(d)
  {
    hide Codec.ValidUtf8, AddressesOf, CountOf, CountAmong, Unfolds, Symbolizes;
    forall a | a in d.frames ensures InfoOk(d.frames[a]) {
      HexNameWellFormed(a);
      assert Codec.ValidUtf8([]) by {
        EmptyWellFormed();
      }
    }
  }

  lemma EmptyWellFormed()
    ensures Codec.ValidUtf8([])
  {
  }

  lemma SymbolicatedConveys(d: SymbolicatedProfile, delta: Live.Snapshot, c: Context,
                            symbolize: u64 -> Option<FrameInfo>)
    requires Symbolicated(d, delta, c, symbolize)
    ensures Sendable(delta) <==> Conveyed(EntriesFor(InOrder(d), |d.samples|), delta)
  {
    hide CountOf, EntriesFor, Sorted, InfoFor, SeriesCount, AddressesOf, Selected, OfKey, Unfolds, Symbolizes;
    forall i | 0 <= i < |d.samples| ensures AllFrames(InOrder(d), d.samples[i]) {
      assert AllFrames(d, d.samples[i]);
    }
    assert d.samples[..|d.samples|] == d.samples;
    var entries := EntriesFor(InOrder(d), |d.samples|);
    forall k: Live.Key ensures Selected(entries, OfKey(k), 0) == CountAmong(delta, delta.Keys, k) {
      EntriesCount(InOrder(d), |d.samples|, k);
    }
    if Conveyed(entries, delta) {
      forall k | k in delta && k.1 != [] ensures SeriesCount(delta[k]) == delta[k].count {
        assert Selected(entries, OfKey(k), 0) == Live.CountIn(delta, k);
      }
    }
  }

  // ----- Frames and the machine's packets -----

  /** The frame says to the app what the packet stands for: its kind and number, and of a profile how often
      each thread is counted on each stack. */
  ghost predicate Conveys(f: Frame, p: Live.Packet) {
    && f.header.kind == p.kind && f.header.sequence == p.sequence
    && (Live.IsProfile(p) ==> Conveyed(FrameEntries(f), p.delta))
  }

  // The samples that the app reads of a profile frame.
  function FrameEntries(f: Frame): seq<Acc.Entry> {
    Acc.IncomingEntries(AppDecode(f.payload))
  }

  ghost predicate AllConvey(frames: seq<Frame>, packets: seq<Live.Packet>) {
    |frames| == |packets| && forall i :: 0 <= i < |frames| ==> Conveys(frames[i], packets[i])
  }
}
