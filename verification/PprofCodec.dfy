/** The pprof codec of `src/pprof.rs`: every message's `encode` and `decode`.

    The exact law is not the identity.  A repeated submessage that encodes to no bytes is dropped, from
    the leaves up, and so is a zero comment; `Normalise` says which. */
module PprofCodec {
  import opened Prelude
  import opened Wire
  import opened Pprof

  // ----- Text -----

  predicate Continuation(b: u8) {
    0x80 <= b < 0xC0
  }

  /** Well-formed UTF-8, Table 3-7 of the Unicode Standard: what `str::from_utf8` accepts. */
  predicate ValidUtf8(s: Text) {
    if s == [] then true
    else if s[0] < 0x80 then ValidUtf8(s[1..])
    else if 0xC2 <= s[0] < 0xE0 then
      |s| >= 2 && Continuation(s[1]) && ValidUtf8(s[2..])
    else if 0xE0 <= s[0] < 0xF0 then
      && |s| >= 3 && Continuation(s[1]) && Continuation(s[2])
      && (s[0] == 0xE0 ==> s[1] >= 0xA0) && (s[0] == 0xED ==> s[1] < 0xA0)
      && ValidUtf8(s[3..])
    else
      && 0xF0 <= s[0] < 0xF5
      && |s| >= 4 && Continuation(s[1]) && Continuation(s[2]) && Continuation(s[3])
      && (s[0] == 0xF0 ==> s[1] >= 0x90) && (s[0] == 0xF4 ==> s[1] < 0x90)
      && ValidUtf8(s[4..])
  }

  function Flag(b: bool): u64 {
    if b then 1 else 0
  }

  function AsU64s(values: seq<i64>): seq<u64> {
    if values == [] then [] else [AsU64(values[0])] + AsU64s(values[1..])
  }

  function AsI64s(values: seq<u64>): seq<i64> {
    if values == [] then [] else [AsI64(values[0])] + AsI64s(values[1..])
  }

  // ----- Fields of each message, in the order they are written -----

  function ValueTypeScalars(t: ValueType): seq<(u64, u64)> {
    [(1, t.typ), (2, t.unit)]
  }

  function LineScalars(l: Line): seq<(u64, u64)> {
    [(1, l.functionId), (2, AsU64(l.line)), (3, AsU64(l.column))]
  }

  function LabelScalars(l: Label): seq<(u64, u64)> {
    [(1, l.key), (2, l.strIndex), (3, AsU64(l.num)), (4, l.numUnit)]
  }

  function FunctionScalars(f: Function): seq<(u64, u64)> {
    [(1, f.id), (2, f.name), (3, f.systemName), (4, f.filename), (5, AsU64(f.startLine))]
  }

  function MappingScalars(m: Mapping): seq<(u64, u64)> {
    [(1, m.id), (2, m.memoryStart), (3, m.memoryLimit), (4, m.fileOffset), (5, m.filename), (6, m.buildId)]
  }

  function MappingFlags(m: Mapping): seq<(u64, u64)> {
    [(7, Flag(m.hasFunctions)), (8, Flag(m.hasFilenames)), (9, Flag(m.hasLineNumbers)), (10, Flag(m.hasInlineFrames))]
  }

  function Unflagged(m: Mapping): Mapping {
    m.(hasFunctions := false, hasFilenames := false, hasLineNumbers := false, hasInlineFrames := false)
  }

  function MappingFields(m: Mapping): seq<Field> {
    Scalars(MappingScalars(m)) + Scalars(MappingFlags(m))
  }

  function LocationHead(l: Location): seq<(u64, u64)> {
    [(1, l.id), (2, l.mappingId), (3, l.address)]
  }

  function LocationTail(l: Location): seq<(u64, u64)> {
    [(5, Flag(l.isFolded))]
  }

  function LocationFields(l: Location): seq<Field> {
    Scalars(LocationHead(l)) + (Repeated(4, l.lines, EncodeLine) + Scalars(LocationTail(l)))
  }

  function SampleFields(s: Sample): seq<Field> {
    Delimited(1, PackedBytes(s.locationIds)) + (Delimited(2, PackedBytes(AsU64s(s.values)))
    + (Repeated(3, s.labels, EncodeLabel) + []))
  }

  // `encode_string_field` writes empty strings too.
  function StringFields(strings: seq<Text>): seq<Field> {
    if strings == [] then [] else [Field(6, Bytes(strings[0]))] + StringFields(strings[1..])
  }

  function CommentFields(comments: seq<u64>): seq<Field> {
    if comments == [] then [] else Scalar(13, comments[0]) + CommentFields(comments[1..])
  }

  function TableFields(p: Profile): seq<Field> {
    Repeated(1, p.valueTypes, EncodeValueType) + (Repeated(2, p.samples, EncodeSample)
    + (Repeated(3, p.mappings, EncodeMapping) + (Repeated(4, p.locations, EncodeLocation)
    + (Repeated(5, p.functions, EncodeFunction) + StringFields(p.strings.strings)))))
  }

  function Times(p: Profile): seq<(u64, u64)> {
    [(7, p.dropFrames), (8, p.keepFrames), (9, AsU64(p.timeNanos)), (10, AsU64(p.durationNanos))]
  }

  function Period(p: Profile): seq<(u64, u64)> {
    [(12, AsU64(p.period))]
  }

  function Defaults(p: Profile): seq<(u64, u64)> {
    [(14, p.defaultSampleType), (15, p.docUrl)]
  }

  // Fields 12 to 15.
  function TailFields(p: Profile): seq<Field> {
    Scalars(Period(p)) + (CommentFields(p.comments) + Scalars(Defaults(p)))
  }

  function HeadFields(p: Profile): seq<Field> {
    Scalars(Times(p)) + (Delimited(11, EncodeValueType(p.periodType)) + TailFields(p))
  }

  function EncodeValueType(t: ValueType): seq<u8> { Emit(Scalars(ValueTypeScalars(t))) }

  function EncodeLine(l: Line): seq<u8> { Emit(Scalars(LineScalars(l))) }

  function EncodeLabel(l: Label): seq<u8> { Emit(Scalars(LabelScalars(l))) }

  function EncodeFunction(f: Function): seq<u8> { Emit(Scalars(FunctionScalars(f))) }

  function EncodeMapping(m: Mapping): seq<u8> { Emit(MappingFields(m)) }

  function EncodeLocation(l: Location): seq<u8> { Emit(LocationFields(l)) }

  function EncodeSample(s: Sample): seq<u8> { Emit(SampleFields(s)) }

  function Encode(p: Profile): seq<u8> { Emit(TableFields(p) + HeadFields(p)) }

  // ----- What one field does to each message: the decoders' `match` -----

  const NO_LINE: Line := Line(0, 0, 0)
  const NO_LABEL: Label := Label(0, 0, 0, 0)
  const NO_FUNCTION: Function := Function(0, 0, 0, 0, 0)
  const NO_MAPPING: Mapping := Mapping(0, 0, 0, 0, 0, 0, false, false, false, false)
  const NO_LOCATION: Location := Location(0, 0, 0, [], false)
  const NO_SAMPLE: Sample := Sample([], [], [])

  function ApplyValueType(t: ValueType, f: Field): Result<ValueType, WireError> {
    match f
    case Field(1, Varint(v)) => Ok(t.(typ := v))
    case Field(2, Varint(v)) => Ok(t.(unit := v))
    case _ => Ok(t)
  }

  function ApplyLine(l: Line, f: Field): Result<Line, WireError> {
    match f
    case Field(1, Varint(v)) => Ok(l.(functionId := v))
    case Field(2, Varint(v)) => Ok(l.(line := AsI64(v)))
    case Field(3, Varint(v)) => Ok(l.(column := AsI64(v)))
    case _ => Ok(l)
  }

  function ApplyLabel(l: Label, f: Field): Result<Label, WireError> {
    match f
    case Field(1, Varint(v)) => Ok(l.(key := v))
    case Field(2, Varint(v)) => Ok(l.(strIndex := v))
    case Field(3, Varint(v)) => Ok(l.(num := AsI64(v)))
    case Field(4, Varint(v)) => Ok(l.(numUnit := v))
    case _ => Ok(l)
  }

  function ApplyFunction(fn: Function, f: Field): Result<Function, WireError> {
    match f
    case Field(1, Varint(v)) => Ok(fn.(id := v))
    case Field(2, Varint(v)) => Ok(fn.(name := v))
    case Field(3, Varint(v)) => Ok(fn.(systemName := v))
    case Field(4, Varint(v)) => Ok(fn.(filename := v))
    case Field(5, Varint(v)) => Ok(fn.(startLine := AsI64(v)))
    case _ => Ok(fn)
  }

  function ApplyMapping(m: Mapping, f: Field): Result<Mapping, WireError> {
    match f
    case Field(1, Varint(v)) => Ok(m.(id := v))
    case Field(2, Varint(v)) => Ok(m.(memoryStart := v))
    case Field(3, Varint(v)) => Ok(m.(memoryLimit := v))
    case Field(4, Varint(v)) => Ok(m.(fileOffset := v))
    case Field(5, Varint(v)) => Ok(m.(filename := v))
    case Field(6, Varint(v)) => Ok(m.(buildId := v))
    case Field(7, Varint(v)) => Ok(m.(hasFunctions := v != 0))
    case Field(8, Varint(v)) => Ok(m.(hasFilenames := v != 0))
    case Field(9, Varint(v)) => Ok(m.(hasLineNumbers := v != 0))
    case Field(10, Varint(v)) => Ok(m.(hasInlineFrames := v != 0))
    case _ => Ok(m)
  }

  function ApplyLocation(l: Location, f: Field): Result<Location, WireError> {
    match f
    case Field(1, Varint(v)) => Ok(l.(id := v))
    case Field(2, Varint(v)) => Ok(l.(mappingId := v))
    case Field(3, Varint(v)) => Ok(l.(address := v))
    case Field(4, Bytes(b)) =>
      var line :- DecodeWith(ApplyLine, NO_LINE, b);
      Ok(l.(lines := l.lines + [line]))
    case Field(5, Varint(v)) => Ok(l.(isFolded := v != 0))
    case _ => Ok(l)
  }

  function ApplySample(s: Sample, f: Field): Result<Sample, WireError> {
    match f
    case Field(1, Bytes(b)) =>
      var ids :- TakePacked(b);
      Ok(s.(locationIds := s.locationIds + ids))
    case Field(1, Varint(v)) => Ok(s.(locationIds := s.locationIds + [v]))
    case Field(2, Bytes(b)) =>
      var values :- TakePacked(b);
      Ok(s.(values := s.values + AsI64s(values)))
    case Field(2, Varint(v)) => Ok(s.(values := s.values + [AsI64(v)]))
    case Field(3, Bytes(b)) =>
      var tag :- DecodeWith(ApplyLabel, NO_LABEL, b);
      Ok(s.(labels := s.labels + [tag]))
    case _ => Ok(s)
  }

  function PushString(t: StringTable, s: Text): StringTable {
    t.(strings := t.strings + [s])
  }

  function ApplyProfile(p: Profile, f: Field): Result<Profile, WireError> {
    if f.number <= 6 then ApplyTable(p, f) else ApplyHead(p, f)
  }

  // Fields 1 to 6: the tables.
  function ApplyTable(p: Profile, f: Field): Result<Profile, WireError> {
    match f
    case Field(1, Bytes(b)) =>
      var t :- DecodeWith(ApplyValueType, NO_TYPE, b);
      Ok(p.(valueTypes := p.valueTypes + [t]))
    case Field(2, Bytes(b)) =>
      var s :- DecodeWith(ApplySample, NO_SAMPLE, b);
      Ok(p.(samples := p.samples + [s]))
    case Field(3, Bytes(b)) =>
      var m :- DecodeWith(ApplyMapping, NO_MAPPING, b);
      Ok(p.(mappings := p.mappings + [m]))
    case Field(4, Bytes(b)) =>
      var l :- DecodeWith(ApplyLocation, NO_LOCATION, b);
      Ok(p.(locations := p.locations + [l]))
    case Field(5, Bytes(b)) =>
      var fn :- DecodeWith(ApplyFunction, NO_FUNCTION, b);
      Ok(p.(functions := p.functions + [fn]))
    case Field(6, Bytes(b)) =>
      if ValidUtf8(b) then Ok(p.(strings := PushString(p.strings, b))) else Err(InvalidUtf8)
    case _ => Ok(p)
  }

  // Fields 7 to 15.
  function ApplyHead(p: Profile, f: Field): Result<Profile, WireError> {
    match f
    case Field(7, Varint(v)) => Ok(p.(dropFrames := v))
    case Field(8, Varint(v)) => Ok(p.(keepFrames := v))
    case Field(9, Varint(v)) => Ok(p.(timeNanos := AsI64(v)))
    case Field(10, Varint(v)) => Ok(p.(durationNanos := AsI64(v)))
    case Field(11, Bytes(b)) =>
      var t :- DecodeWith(ApplyValueType, NO_TYPE, b);
      Ok(p.(periodType := t))
    case Field(12, Varint(v)) => Ok(p.(period := AsI64(v)))
    case Field(13, Bytes(b)) =>
      var comments :- TakePacked(b);
      Ok(p.(comments := p.comments + comments))
    case Field(13, Varint(v)) => Ok(p.(comments := p.comments + [v]))
    case Field(14, Varint(v)) => Ok(p.(defaultSampleType := v))
    case Field(15, Varint(v)) => Ok(p.(docUrl := v))
    case _ => Ok(p)
  }

  /** The last step of `decode`: rebuild the string cache. */
  function Finish(p: Profile): Result<Profile, WireError> {
    if p.strings.strings == [] || p.strings.strings[0] != [] then Err(InvalidStringTable)
    else Ok(p.(strings := StringTable(p.strings.strings, FirstIndices(p.strings.strings))))
  }

  function Decode(data: seq<u8>): Result<Profile, WireError> {
    var p :- DecodeWith(ApplyProfile, EMPTY_PROFILE, data);
    Finish(p)
  }

  // ----- What survives a round trip -----

  function KeepUnless<T(==)>(x: T, nothing: T): Option<T> {
    if x == nothing then None else Some(x)
  }

  function KeepValueType(t: ValueType): Option<ValueType> { KeepUnless(t, NO_TYPE) }

  function KeepLine(l: Line): Option<Line> { KeepUnless(l, NO_LINE) }

  function KeepLabel(l: Label): Option<Label> { KeepUnless(l, NO_LABEL) }

  function KeepFunction(f: Function): Option<Function> { KeepUnless(f, NO_FUNCTION) }

  function KeepMapping(m: Mapping): Option<Mapping> { KeepUnless(m, NO_MAPPING) }

  function NormalLocation(l: Location): Location {
    l.(lines := Keep(l.lines, KeepLine))
  }

  function KeepLocation(l: Location): Option<Location> { KeepUnless(NormalLocation(l), NO_LOCATION) }

  function NormalSample(s: Sample): Sample {
    s.(labels := Keep(s.labels, KeepLabel))
  }

  function KeepSample(s: Sample): Option<Sample> { KeepUnless(NormalSample(s), NO_SAMPLE) }

  function KeepComment(c: u64): Option<u64> { KeepUnless(c, 0) }

  /** Drop, from the leaves up, every repeated submessage equal to its default, and zero comments. */
  function Normalise(p: Profile): Profile {
    p.(valueTypes := Keep(p.valueTypes, KeepValueType),
       samples := Keep(p.samples, KeepSample),
       mappings := Keep(p.mappings, KeepMapping),
       locations := Keep(p.locations, KeepLocation),
       functions := Keep(p.functions, KeepFunction),
       comments := Keep(p.comments, KeepComment))
  }

  // ----- Round trips of the scalar messages -----

  lemma SignedRoundTrip(v: i64)
    ensures AsI64(AsU64(v)) == v && (AsU64(v) == 0 <==> v == 0)
  {
  }

  lemma ValueTypeRoundTrip(t: ValueType)
    ensures DecodeWith(ApplyValueType, NO_TYPE, EncodeValueType(t)) == Ok(t)
    ensures EncodeValueType(t) == [] <==> t == NO_TYPE
  {
    var t1 := NO_TYPE.(typ := t.typ);
    ScalarMessage(ApplyValueType, [NO_TYPE, t1, t], ValueTypeScalars(t));
    if t == NO_TYPE {
      NoScalars(ValueTypeScalars(t));
    }
  }

  lemma LineRoundTrip(l: Line)
    ensures DecodeWith(ApplyLine, NO_LINE, EncodeLine(l)) == Ok(l)
    ensures EncodeLine(l) == [] <==> l == NO_LINE
  {
    SignedRoundTrip(l.line);
    SignedRoundTrip(l.column);
    var l1 := NO_LINE.(functionId := l.functionId);
    var l2 := l1.(line := l.line);
    ScalarMessage(ApplyLine, [NO_LINE, l1, l2, l], LineScalars(l));
    if l == NO_LINE {
      NoScalars(LineScalars(l));
    }
  }

  lemma LabelRoundTrip(l: Label)
    ensures DecodeWith(ApplyLabel, NO_LABEL, EncodeLabel(l)) == Ok(l)
    ensures EncodeLabel(l) == [] <==> l == NO_LABEL
  {
    SignedRoundTrip(l.num);
    var l1 := NO_LABEL.(key := l.key);
    var l2 := l1.(strIndex := l.strIndex);
    var l3 := l2.(num := l.num);
    ScalarMessage(ApplyLabel, [NO_LABEL, l1, l2, l3, l], LabelScalars(l));
    if l == NO_LABEL {
      NoScalars(LabelScalars(l));
    }
  }

  lemma FunctionRoundTrip(f: Function)
    ensures DecodeWith(ApplyFunction, NO_FUNCTION, EncodeFunction(f)) == Ok(f)
    ensures EncodeFunction(f) == [] <==> f == NO_FUNCTION
  {
    SignedRoundTrip(f.startLine);
    var f1 := NO_FUNCTION.(id := f.id);
    var f2 := f1.(name := f.name);
    var f3 := f2.(systemName := f.systemName);
    var f4 := f3.(filename := f.filename);
    ScalarMessage(ApplyFunction, [NO_FUNCTION, f1, f2, f3, f4, f], FunctionScalars(f));
    if f == NO_FUNCTION {
      NoScalars(FunctionScalars(f));
    }
  }

  lemma MappingScalarsRead(m: Mapping)
    ensures ApplyAll(ApplyMapping, NO_MAPPING, Scalars(MappingScalars(m))) == Ok(Unflagged(m))
    ensures AllEmittable(Scalars(MappingScalars(m)))
  {
    var m1 := NO_MAPPING.(id := m.id);
    var m2 := m1.(memoryStart := m.memoryStart);
    var m3 := m2.(memoryLimit := m.memoryLimit);
    var m4 := m3.(fileOffset := m.fileOffset);
    var m5 := m4.(filename := m.filename);
    ScalarsReadBack(ApplyMapping, [NO_MAPPING, m1, m2, m3, m4, m5, Unflagged(m)], MappingScalars(m));
  }

  lemma MappingFlagsRead(m: Mapping)
    ensures ApplyAll(ApplyMapping, Unflagged(m), Scalars(MappingFlags(m))) == Ok(m)
    ensures AllEmittable(Scalars(MappingFlags(m)))
  {
    var m1 := Unflagged(m).(hasFunctions := m.hasFunctions);
    var m2 := m1.(hasFilenames := m.hasFilenames);
    var m3 := m2.(hasLineNumbers := m.hasLineNumbers);
    ScalarsReadBack(ApplyMapping, [Unflagged(m), m1, m2, m3, m], MappingFlags(m));
  }

  lemma MappingApplied(m: Mapping)
    ensures ApplyAll(ApplyMapping, NO_MAPPING, MappingFields(m)) == Ok(m)
    ensures AllEmittable(MappingFields(m))
  {
    MappingScalarsRead(m);
    MappingFlagsRead(m);
    ApplyAppend(ApplyMapping, NO_MAPPING, Scalars(MappingScalars(m)), Scalars(MappingFlags(m)));
  }

  lemma MappingRoundTrip(m: Mapping)
    ensures DecodeWith(ApplyMapping, NO_MAPPING, EncodeMapping(m)) == Ok(m)
    ensures EncodeMapping(m) == [] <==> m == NO_MAPPING
  {
    MappingApplied(m);
    DecodeEmitted(ApplyMapping, NO_MAPPING, MappingFields(m));
    if m == NO_MAPPING {
      NoMappingBytes();
    }
  }

  lemma NoMappingBytes()
    ensures EncodeMapping(NO_MAPPING) == []
  {
    NoScalars(MappingScalars(NO_MAPPING));
    NoScalars(MappingFlags(NO_MAPPING));
  }

  // ----- Round trips of locations and samples -----

  lemma LocationHeadRead(l: Location)
    ensures ApplyAll(ApplyLocation, NO_LOCATION, Scalars(LocationHead(l))) == Ok(l.(lines := [], isFolded := false))
  {
    var l1 := NO_LOCATION.(id := l.id);
    var l2 := l1.(mappingId := l.mappingId);
    ScalarsReadBack(ApplyLocation, [NO_LOCATION, l1, l2, l2.(address := l.address)], LocationHead(l));
  }

  lemma LocationTailRead(l: Location)
    ensures ApplyAll(ApplyLocation, l.(isFolded := false), Scalars(LocationTail(l))) == Ok(l)
  {
    ScalarsReadBack(ApplyLocation, [l.(isFolded := false), l], LocationTail(l));
  }

  lemma LocationApplied(l: Location)
    ensures ApplyAll(ApplyLocation, NO_LOCATION, LocationFields(l)) == Ok(NormalLocation(l))
  {
    var head, tail := Scalars(LocationHead(l)), Scalars(LocationTail(l));
    LocationHeadRead(l);
    ApplyAppend(ApplyLocation, NO_LOCATION, head, Repeated(4, l.lines, EncodeLine) + tail);
    LinesReadBack(l.(lines := [], isFolded := false), l.lines, tail);
    LocationTailRead(NormalLocation(l));
    assert [] + Keep(l.lines, KeepLine) == Keep(l.lines, KeepLine);
  }

  lemma LocationWritten(l: Location)
    ensures Written(LocationFields(l))
  {
    var lines, tail := Repeated(4, l.lines, EncodeLine), Scalars(LocationTail(l));
    ScalarsWritten(LocationHead(l));
    ScalarsWritten(LocationTail(l));
    RepeatedWritten(4, l.lines, EncodeLine);
    WrittenAppend(lines, tail);
    WrittenAppend(Scalars(LocationHead(l)), lines + tail);
  }

  lemma LocationEmpty(l: Location)
    requires NormalLocation(l) == NO_LOCATION
    ensures EncodeLocation(l) == []
  {
    NoScalars(LocationHead(l));
    NoScalars(LocationTail(l));
    forall x | x in l.lines ensures EncodeLine(x) == [] <==> x == NO_LINE {
      LineRoundTrip(x);
    }
    RepeatedEmpty(4, l.lines, EncodeLine, KeepLine);
  }

  lemma LocationRoundTrip(l: Location)
    requires |EncodeLocation(l)| <= I64_MAX
    ensures DecodeWith(ApplyLocation, NO_LOCATION, EncodeLocation(l)) == Ok(NormalLocation(l))
    ensures EncodeLocation(l) == [] <==> NormalLocation(l) == NO_LOCATION
  {
    LocationApplied(l);
    LocationWritten(l);
    WrittenFits(LocationFields(l));
    DecodeEmitted(ApplyLocation, NO_LOCATION, LocationFields(l));
    if NormalLocation(l) == NO_LOCATION {
      LocationEmpty(l);
    }
  }

  lemma LinesReadBack(l: Location, lines: seq<Line>, rest: seq<Field>)
    ensures ApplyAll(ApplyLocation, l, Repeated(4, lines, EncodeLine) + rest)
         == ApplyAll(ApplyLocation, l.(lines := l.lines + Keep(lines, KeepLine)), rest)
  {
    var put := (t: Location, ys: seq<Line>) => t.(lines := t.lines + ys);
    assert Appends(put) by {
      forall t: Location, a: seq<Line>, b: seq<Line> ensures put(put(t, a), b) == put(t, a + b) {
        assert t.lines + a + b == t.lines + (a + b);
      }
    }
    forall t: Location, x: Line | x in lines ensures PutsItem(ApplyLocation, 4, EncodeLine, KeepLine, put, t, x) {
      LineRoundTrip(x);
    }
    ApplyRepeated(ApplyLocation, l, 4, lines, EncodeLine, KeepLine, put, rest);
  }

  lemma LabelsReadBack(s: Sample, labels: seq<Label>, rest: seq<Field>)
    ensures ApplyAll(ApplySample, s, Repeated(3, labels, EncodeLabel) + rest)
         == ApplyAll(ApplySample, s.(labels := s.labels + Keep(labels, KeepLabel)), rest)
  {
    var put := (t: Sample, ys: seq<Label>) => t.(labels := t.labels + ys);
    assert Appends(put) by {
      forall t: Sample, a: seq<Label>, b: seq<Label> ensures put(put(t, a), b) == put(t, a + b) {
        assert t.labels + a + b == t.labels + (a + b);
      }
    }
    forall t: Sample, x: Label | x in labels ensures PutsItem(ApplySample, 3, EncodeLabel, KeepLabel, put, t, x) {
      LabelRoundTrip(x);
    }
    ApplyRepeated(ApplySample, s, 3, labels, EncodeLabel, KeepLabel, put, rest);
  }

  lemma {:induction false} SignedListRoundTrip(values: seq<i64>)
    ensures AsI64s(AsU64s(values)) == values
  {
    if values != [] {
      SignedListRoundTrip(values[1..]);
    }
  }

  lemma PackedEmpty(values: seq<u64>)
    ensures PackedBytes(values) == [] <==> values == []
  {
  }

  lemma IdsReadBack(ids: seq<u64>, rest: seq<Field>)
    ensures ApplyAll(ApplySample, NO_SAMPLE, Delimited(1, PackedBytes(ids)) + rest)
         == ApplyAll(ApplySample, NO_SAMPLE.(locationIds := ids), rest)
  {
    PackedReadsBack(ids);
    PackedEmpty(ids);
    assert [] + ids == ids;
    ApplyDelimited(ApplySample, NO_SAMPLE, NO_SAMPLE.(locationIds := ids), 1, PackedBytes(ids), rest);
  }

  lemma ValuesReadBack(s: Sample, values: seq<i64>, rest: seq<Field>)
    requires s.values == []
    ensures ApplyAll(ApplySample, s, Delimited(2, PackedBytes(AsU64s(values))) + rest)
         == ApplyAll(ApplySample, s.(values := values), rest)
  {
    PackedReadsBack(AsU64s(values));
    SignedListRoundTrip(values);
    PackedEmpty(AsU64s(values));
    assert [] + values == values;
    ApplyDelimited(ApplySample, s, s.(values := values), 2, PackedBytes(AsU64s(values)), rest);
  }

  lemma SampleApplied(s: Sample)
    ensures ApplyAll(ApplySample, NO_SAMPLE, SampleFields(s)) == Ok(NormalSample(s))
  {
    var labels := Repeated(3, s.labels, EncodeLabel) + [];
    var s1 := NO_SAMPLE.(locationIds := s.locationIds);
    IdsReadBack(s.locationIds, Delimited(2, PackedBytes(AsU64s(s.values))) + labels);
    ValuesReadBack(s1, s.values, labels);
    LabelsReadBack(s1.(values := s.values), s.labels, []);
    assert [] + Keep(s.labels, KeepLabel) == Keep(s.labels, KeepLabel);
  }

  lemma SampleWritten(s: Sample)
    ensures Written(SampleFields(s))
  {
    var labels := Repeated(3, s.labels, EncodeLabel) + [];
    var values := Delimited(2, PackedBytes(AsU64s(s.values)));
    RepeatedWritten(3, s.labels, EncodeLabel);
    WrittenAppend(values, labels);
    WrittenAppend(Delimited(1, PackedBytes(s.locationIds)), values + labels);
  }

  lemma SampleEmpty(s: Sample)
    requires NormalSample(s) == NO_SAMPLE
    ensures EncodeSample(s) == []
  {
    forall x | x in s.labels ensures EncodeLabel(x) == [] <==> x == NO_LABEL {
      LabelRoundTrip(x);
    }
    RepeatedEmpty(3, s.labels, EncodeLabel, KeepLabel);
  }

  lemma SampleRoundTrip(s: Sample)
    requires |EncodeSample(s)| <= I64_MAX
    ensures DecodeWith(ApplySample, NO_SAMPLE, EncodeSample(s)) == Ok(NormalSample(s))
    ensures EncodeSample(s) == [] <==> NormalSample(s) == NO_SAMPLE
  {
    SampleApplied(s);
    SampleWritten(s);
    WrittenFits(SampleFields(s));
    DecodeEmitted(ApplySample, NO_SAMPLE, SampleFields(s));
    if NormalSample(s) == NO_SAMPLE {
      SampleEmpty(s);
    }
  }

  // ----- Round trips of profiles -----

  lemma PushValueType(q: Profile, x: ValueType)
    ensures ApplyProfile(q, Field(1, Bytes(EncodeValueType(x)))) == Ok(q.(valueTypes := q.valueTypes + [x]))
    ensures EncodeValueType(x) == [] <==> KeepValueType(x) == None
  {
    hide DecodeWith, EncodeValueType, ApplyHead;
    ValueTypeRoundTrip(x);
  }

  lemma ValueTypesReadBack(p: Profile, items: seq<ValueType>, rest: seq<Field>)
    ensures ApplyAll(ApplyProfile, p, Repeated(1, items, EncodeValueType) + rest)
         == ApplyAll(ApplyProfile, p.(valueTypes := p.valueTypes + Keep(items, KeepValueType)), rest)
  {
    var put := (q: Profile, ys: seq<ValueType>) => q.(valueTypes := q.valueTypes + ys);
    assert Appends(put) by {
      forall q: Profile, a: seq<ValueType>, b: seq<ValueType> ensures put(put(q, a), b) == put(q, a + b) {
        assert q.valueTypes + a + b == q.valueTypes + (a + b);
      }
    }
    forall q: Profile, x: ValueType | x in items
      ensures PutsItem(ApplyProfile, 1, EncodeValueType, KeepValueType, put, q, x)
    {
      PushValueType(q, x);
    }
    ApplyRepeated(ApplyProfile, p, 1, items, EncodeValueType, KeepValueType, put, rest);
  }

  lemma PushSample(q: Profile, x: Sample)
    requires |EncodeSample(x)| <= I64_MAX
    ensures ApplyProfile(q, Field(2, Bytes(EncodeSample(x)))) == Ok(q.(samples := q.samples + [NormalSample(x)]))
    ensures EncodeSample(x) == [] <==> KeepSample(x) == None
  {
    hide DecodeWith, EncodeSample, ApplyHead;
    SampleRoundTrip(x);
  }

  lemma SamplesReadBack(p: Profile, items: seq<Sample>, rest: seq<Field>)
    requires forall x :: x in items ==> |EncodeSample(x)| <= I64_MAX
    ensures ApplyAll(ApplyProfile, p, Repeated(2, items, EncodeSample) + rest)
         == ApplyAll(ApplyProfile, p.(samples := p.samples + Keep(items, KeepSample)), rest)
  {
    var put := (q: Profile, ys: seq<Sample>) => q.(samples := q.samples + ys);
    assert Appends(put) by {
      forall q: Profile, a: seq<Sample>, b: seq<Sample> ensures put(put(q, a), b) == put(q, a + b) {
        assert q.samples + a + b == q.samples + (a + b);
      }
    }
    forall q: Profile, x: Sample | x in items
      ensures PutsItem(ApplyProfile, 2, EncodeSample, KeepSample, put, q, x)
    {
      PushSample(q, x);
    }
    ApplyRepeated(ApplyProfile, p, 2, items, EncodeSample, KeepSample, put, rest);
  }

  lemma PushMapping(q: Profile, x: Mapping)
    ensures ApplyProfile(q, Field(3, Bytes(EncodeMapping(x)))) == Ok(q.(mappings := q.mappings + [x]))
    ensures EncodeMapping(x) == [] <==> KeepMapping(x) == None
  {
    hide DecodeWith, EncodeMapping, ApplyHead;
    MappingRoundTrip(x);
  }

  lemma MappingsReadBack(p: Profile, items: seq<Mapping>, rest: seq<Field>)
    ensures ApplyAll(ApplyProfile, p, Repeated(3, items, EncodeMapping) + rest)
         == ApplyAll(ApplyProfile, p.(mappings := p.mappings + Keep(items, KeepMapping)), rest)
  {
    var put := (q: Profile, ys: seq<Mapping>) => q.(mappings := q.mappings + ys);
    assert Appends(put) by {
      forall q: Profile, a: seq<Mapping>, b: seq<Mapping> ensures put(put(q, a), b) == put(q, a + b) {
        assert q.mappings + a + b == q.mappings + (a + b);
      }
    }
    forall q: Profile, x: Mapping | x in items
      ensures PutsItem(ApplyProfile, 3, EncodeMapping, KeepMapping, put, q, x)
    {
      PushMapping(q, x);
    }
    ApplyRepeated(ApplyProfile, p, 3, items, EncodeMapping, KeepMapping, put, rest);
  }

  lemma PushLocation(q: Profile, x: Location)
    requires |EncodeLocation(x)| <= I64_MAX
    ensures ApplyProfile(q, Field(4, Bytes(EncodeLocation(x))))
      == Ok(q.(locations := q.locations + [NormalLocation(x)]))
    ensures EncodeLocation(x) == [] <==> KeepLocation(x) == None
  {
    hide DecodeWith, EncodeLocation, ApplyHead;
    LocationRoundTrip(x);
  }

  lemma LocationsReadBack(p: Profile, items: seq<Location>, rest: seq<Field>)
    requires forall x :: x in items ==> |EncodeLocation(x)| <= I64_MAX
    ensures ApplyAll(ApplyProfile, p, Repeated(4, items, EncodeLocation) + rest)
         == ApplyAll(ApplyProfile, p.(locations := p.locations + Keep(items, KeepLocation)), rest)
  {
    var put := (q: Profile, ys: seq<Location>) => q.(locations := q.locations + ys);
    assert Appends(put) by {
      forall q: Profile, a: seq<Location>, b: seq<Location> ensures put(put(q, a), b) == put(q, a + b) {
        assert q.locations + a + b == q.locations + (a + b);
      }
    }
    forall q: Profile, x: Location | x in items
      ensures PutsItem(ApplyProfile, 4, EncodeLocation, KeepLocation, put, q, x)
    {
      PushLocation(q, x);
    }
    ApplyRepeated(ApplyProfile, p, 4, items, EncodeLocation, KeepLocation, put, rest);
  }

  lemma PushFunction(q: Profile, x: Function)
    ensures ApplyProfile(q, Field(5, Bytes(EncodeFunction(x)))) == Ok(q.(functions := q.functions + [x]))
    ensures EncodeFunction(x) == [] <==> KeepFunction(x) == None
  {
    hide DecodeWith, EncodeFunction, ApplyHead;
    FunctionRoundTrip(x);
  }

  lemma FunctionsReadBack(p: Profile, items: seq<Function>, rest: seq<Field>)
    ensures ApplyAll(ApplyProfile, p, Repeated(5, items, EncodeFunction) + rest)
         == ApplyAll(ApplyProfile, p.(functions := p.functions + Keep(items, KeepFunction)), rest)
  {
    var put := (q: Profile, ys: seq<Function>) => q.(functions := q.functions + ys);
    assert Appends(put) by {
      forall q: Profile, a: seq<Function>, b: seq<Function> ensures put(put(q, a), b) == put(q, a + b) {
        assert q.functions + a + b == q.functions + (a + b);
      }
    }
    forall q: Profile, x: Function | x in items
      ensures PutsItem(ApplyProfile, 5, EncodeFunction, KeepFunction, put, q, x)
    {
      PushFunction(q, x);
    }
    ApplyRepeated(ApplyProfile, p, 5, items, EncodeFunction, KeepFunction, put, rest);
  }

  // Every Rust `String` is well-formed.
  ghost predicate WellFormedText(strings: seq<Text>) {
    forall i :: 0 <= i < |strings| ==> ValidUtf8(strings[i])
  }

  lemma StringRead(p: Profile, text: Text)
    requires ValidUtf8(text)
    ensures ApplyProfile(p, Field(6, Bytes(text))) == Ok(p.(strings := PushString(p.strings, text)))
  {
    hide ValidUtf8;
  }

  lemma {:induction false} StringsReadBack(p: Profile, strings: seq<Text>, rest: seq<Field>)
    requires WellFormedText(strings)
    ensures ApplyAll(ApplyProfile, p, StringFields(strings) + rest)
         == ApplyAll(ApplyProfile, p.(strings := StringTable(p.strings.strings + strings, p.strings.indices)), rest)
    decreases |strings|
  {
    hide ValidUtf8, ApplyProfile, ApplyAll, StringFields, PushString;
    if strings == [] {
      NoStrings(p, rest);
    } else {
      var q := p.(strings := PushString(p.strings, strings[0]));
      StringRead(p, strings[0]);
      StringsNext(p, strings, rest);
      ApplyOne(ApplyProfile, p, q, Field(6, Bytes(strings[0])), StringFields(strings[1..]) + rest);
      StringsReadBack(q, strings[1..], rest);
    }
  }

  lemma NoStrings(p: Profile, rest: seq<Field>)
    ensures StringFields([]) + rest == rest
    ensures p.(strings := StringTable(p.strings.strings + [], p.strings.indices)) == p
  {
    assert p.strings.strings + [] == p.strings.strings;
  }

  lemma StringsNext(p: Profile, strings: seq<Text>, rest: seq<Field>)
    requires strings != []
    ensures StringFields(strings) + rest == [Field(6, Bytes(strings[0]))] + (StringFields(strings[1..]) + rest)
    ensures var q := PushString(p.strings, strings[0]);
      StringTable(q.strings + strings[1..], q.indices) == StringTable(p.strings.strings + strings, p.strings.indices)
  {
    assert p.strings.strings + [strings[0]] + strings[1..] == p.strings.strings + strings;
  }

  lemma CommentSets(p: Profile, c: u64)
    ensures Sets(ApplyProfile, p, if c == 0 then p else p.(comments := p.comments + [c]), 13, c)
  {
  }

  lemma CommentFieldsNext(comments: seq<u64>, rest: seq<Field>)
    requires comments != []
    ensures CommentFields(comments) + rest == Scalar(13, comments[0]) + (CommentFields(comments[1..]) + rest)
  {
    var first, others := Scalar(13, comments[0]), CommentFields(comments[1..]);
    assert CommentFields(comments) == first + others;
    hide Scalar, CommentFields;
  }

  lemma KeepFirst<T, U>(items: seq<T>, f: T -> Option<U>)
    requires items != []
    ensures Keep(items, f) ==
      match f(items[0]) case None => Keep(items[1..], f) case Some(u) => [u] + Keep(items[1..], f)
  {
  }

  lemma MoveOver<T>(before: seq<T>, x: T, rest: seq<T>)
    ensures before + ([x] + rest) == (before + [x]) + rest
  {
  }

  lemma CommentsNext(before: seq<u64>, comments: seq<u64>)
    requires comments != []
    ensures before + Keep<u64, u64>(comments, KeepComment)
         == (if comments[0] == 0 then before else before + [comments[0]]) + Keep<u64, u64>(comments[1..], KeepComment)
  {
    hide Keep;
    KeepFirst<u64, u64>(comments, KeepComment);
    MoveOver(before, comments[0], Keep<u64, u64>(comments[1..], KeepComment));
  }

  lemma {:induction false} CommentsReadBack(p: Profile, comments: seq<u64>, rest: seq<Field>)
    ensures ApplyAll(ApplyProfile, p, CommentFields(comments) + rest)
         == ApplyAll(ApplyProfile, p.(comments := p.comments + Keep(comments, KeepComment)), rest)
    decreases |comments|
  {
    if comments == [] {
      assert CommentFields(comments) + rest == rest;
      assert p.comments + Keep<u64, u64>(comments, KeepComment) == p.comments;
    } else {
      var c := comments[0];
      var q := if c == 0 then p else p.(comments := p.comments + [c]);
      CommentSets(p, c);
      CommentFieldsNext(comments, rest);
      CommentsNext(p.comments, comments);
      hide Sets, Keep, CommentFields, Scalar;
      ApplyScalar(ApplyProfile, p, q, 13, c, CommentFields(comments[1..]) + rest);
      CommentsReadBack(q, comments[1..], rest);
    }
  }

  // What the table fields and the other fields decode to, on their own.
  function Tables(p: Profile): Profile {
    EMPTY_PROFILE.(
      valueTypes := Keep(p.valueTypes, KeepValueType),
      samples := Keep(p.samples, KeepSample),
      mappings := Keep(p.mappings, KeepMapping),
      locations := Keep(p.locations, KeepLocation),
      functions := Keep(p.functions, KeepFunction),
      strings := StringTable(p.strings.strings, map[]))
  }

  ghost predicate PartsFit(p: Profile) {
    && (forall x :: x in p.samples ==> |EncodeSample(x)| <= I64_MAX)
    && (forall x :: x in p.locations ==> |EncodeLocation(x)| <= I64_MAX)
  }

  lemma EmptyLeft<T>(s: seq<T>)
    ensures [] + s == s
  {
  }

  lemma TablesReadBack(p: Profile)
    requires PartsFit(p) && WellFormedText(p.strings.strings)
    ensures ApplyAll(ApplyProfile, EMPTY_PROFILE, TableFields(p)) == Ok(Tables(p))
  {
    var strings := StringFields(p.strings.strings);
    var functions := Repeated(5, p.functions, EncodeFunction) + strings;
    var locations := Repeated(4, p.locations, EncodeLocation) + functions;
    var mappings := Repeated(3, p.mappings, EncodeMapping) + locations;
    var samples := Repeated(2, p.samples, EncodeSample) + mappings;
    var p1 := EMPTY_PROFILE.(valueTypes := Tables(p).valueTypes);
    var p2 := p1.(samples := Tables(p).samples);
    var p3 := p2.(mappings := Tables(p).mappings);
    var p4 := p3.(locations := Tables(p).locations);
    var p5 := p4.(functions := Tables(p).functions);
    EmptyLeft(p1.valueTypes);
    EmptyLeft(p2.samples);
    EmptyLeft(p3.mappings);
    EmptyLeft(p4.locations);
    EmptyLeft(p5.functions);
    EmptyLeft(p.strings.strings);
    assert strings + [] == strings;
    ValueTypesReadBack(EMPTY_PROFILE, p.valueTypes, samples);
    SamplesReadBack(p1, p.samples, mappings);
    MappingsReadBack(p2, p.mappings, locations);
    LocationsReadBack(p3, p.locations, functions);
    FunctionsReadBack(p4, p.functions, strings);
    StringsReadBack(p5, p.strings.strings, []);
  }

  lemma TimesReadBack(t: Profile, p: Profile)
    requires t.dropFrames == t.keepFrames == t.timeNanos == t.durationNanos == 0
    ensures ApplyAll(ApplyProfile, t, Scalars(Times(p)))
         == Ok(t.(dropFrames := p.dropFrames, keepFrames := p.keepFrames,
                  timeNanos := p.timeNanos, durationNanos := p.durationNanos))
  {
    SignedRoundTrip(p.timeNanos);
    SignedRoundTrip(p.durationNanos);
    var t1 := t.(dropFrames := p.dropFrames);
    var t2 := t1.(keepFrames := p.keepFrames);
    var t3 := t2.(timeNanos := p.timeNanos);
    ScalarsReadBack(ApplyProfile, [t, t1, t2, t3, t3.(durationNanos := p.durationNanos)], Times(p));
  }

  lemma PeriodReadBack(t: Profile, p: Profile)
    requires t.period == 0
    ensures ApplyAll(ApplyProfile, t, Scalars(Period(p))) == Ok(t.(period := p.period))
  {
    SignedRoundTrip(p.period);
    ScalarsReadBack(ApplyProfile, [t, t.(period := p.period)], Period(p));
  }

  lemma DefaultsReadBack(t: Profile, p: Profile)
    requires t.defaultSampleType == t.docUrl == 0
    ensures ApplyAll(ApplyProfile, t, Scalars(Defaults(p)))
         == Ok(t.(defaultSampleType := p.defaultSampleType, docUrl := p.docUrl))
  {
    var t1 := t.(defaultSampleType := p.defaultSampleType);
    ScalarsReadBack(ApplyProfile, [t, t1, t1.(docUrl := p.docUrl)], Defaults(p));
  }

  // The profile before its string cache is rebuilt.
  function Uncached(p: Profile): Profile {
    p.(strings := StringTable(p.strings.strings, map[]))
  }

  lemma TailReadBack(t: Profile, p: Profile)
    requires t.period == t.defaultSampleType == t.docUrl == 0 && t.comments == []
    ensures ApplyAll(ApplyProfile, t, TailFields(p))
         == Ok(t.(period := p.period, comments := Keep(p.comments, KeepComment),
                  defaultSampleType := p.defaultSampleType, docUrl := p.docUrl))
  {
    var defaults := Scalars(Defaults(p));
    var t1 := t.(period := p.period);
    PeriodReadBack(t, p);
    ApplyAppend(ApplyProfile, t, Scalars(Period(p)), CommentFields(p.comments) + defaults);
    CommentsReadBack(t1, p.comments, defaults);
    EmptyLeft(Keep(p.comments, KeepComment));
    DefaultsReadBack(t1.(comments := Keep(p.comments, KeepComment)), p);
  }

  lemma PeriodTypeReadBack(t: Profile, periodType: ValueType, rest: seq<Field>)
    requires t.periodType == NO_TYPE
    ensures ApplyAll(ApplyProfile, t, Delimited(11, EncodeValueType(periodType)) + rest)
         == ApplyAll(ApplyProfile, t.(periodType := periodType), rest)
  {
    ValueTypeRoundTrip(periodType);
    ApplyDelimited(ApplyProfile, t, t.(periodType := periodType), 11, EncodeValueType(periodType), rest);
  }

  lemma HeadReadBack(p: Profile)
    ensures ApplyAll(ApplyProfile, Tables(p), HeadFields(p)) == Ok(Uncached(Normalise(p)))
  {
    var t := Tables(p).(dropFrames := p.dropFrames, keepFrames := p.keepFrames,
                        timeNanos := p.timeNanos, durationNanos := p.durationNanos);
    TimesReadBack(Tables(p), p);
    ApplyAppend(ApplyProfile, Tables(p), Scalars(Times(p)),
                Delimited(11, EncodeValueType(p.periodType)) + TailFields(p));
    PeriodTypeReadBack(t, p.periodType, TailFields(p));
    TailReadBack(t.(periodType := p.periodType), p);
  }

  // ----- Sizes -----

  lemma {:induction false} StringsWritten(strings: seq<Text>)
    ensures Written(StringFields(strings))
  {
    if strings != [] {
      StringsWritten(strings[1..]);
    }
  }

  lemma {:induction false} CommentsWritten(comments: seq<u64>)
    ensures Written(CommentFields(comments))
  {
    if comments != [] {
      CommentsWritten(comments[1..]);
    }
  }

  lemma TablesWritten(p: Profile)
    ensures Written(TableFields(p))
  {
    var strings := StringFields(p.strings.strings);
    var functions := Repeated(5, p.functions, EncodeFunction) + strings;
    var locations := Repeated(4, p.locations, EncodeLocation) + functions;
    var mappings := Repeated(3, p.mappings, EncodeMapping) + locations;
    RepeatedWritten(1, p.valueTypes, EncodeValueType);
    RepeatedWritten(2, p.samples, EncodeSample);
    RepeatedWritten(3, p.mappings, EncodeMapping);
    RepeatedWritten(4, p.locations, EncodeLocation);
    RepeatedWritten(5, p.functions, EncodeFunction);
    StringsWritten(p.strings.strings);
    WrittenAppend(Repeated(5, p.functions, EncodeFunction), strings);
    WrittenAppend(Repeated(4, p.locations, EncodeLocation), functions);
    WrittenAppend(Repeated(3, p.mappings, EncodeMapping), locations);
    WrittenAppend(Repeated(2, p.samples, EncodeSample), mappings);
    WrittenAppend(Repeated(1, p.valueTypes, EncodeValueType), Repeated(2, p.samples, EncodeSample) + mappings);
  }

  lemma HeadWritten(p: Profile)
    ensures Written(HeadFields(p))
  {
    var comments := CommentFields(p.comments) + Scalars(Defaults(p));
    ScalarsWritten(Times(p));
    ScalarsWritten(Period(p));
    ScalarsWritten(Defaults(p));
    CommentsWritten(p.comments);
    WrittenAppend(CommentFields(p.comments), Scalars(Defaults(p)));
    WrittenAppend(Scalars(Period(p)), comments);
    WrittenAppend(Delimited(11, EncodeValueType(p.periodType)), TailFields(p));
    WrittenAppend(Scalars(Times(p)), Delimited(11, EncodeValueType(p.periodType)) + TailFields(p));
  }

  lemma EncodedPartsFit(p: Profile)
    requires |Encode(p)| <= I64_MAX
    ensures PartsFit(p)
  {
    var functions := Repeated(5, p.functions, EncodeFunction) + StringFields(p.strings.strings);
    var locations := Repeated(4, p.locations, EncodeLocation) + functions;
    var mappings := Repeated(3, p.mappings, EncodeMapping) + locations;
    var samples := Repeated(2, p.samples, EncodeSample) + mappings;
    EmitAppend(TableFields(p), HeadFields(p));
    EmitAppend(Repeated(1, p.valueTypes, EncodeValueType), samples);
    EmitAppend(Repeated(2, p.samples, EncodeSample), mappings);
    EmitAppend(Repeated(3, p.mappings, EncodeMapping), locations);
    EmitAppend(Repeated(4, p.locations, EncodeLocation), functions);
    RepeatedCovers(2, p.samples, EncodeSample);
    RepeatedCovers(4, p.locations, EncodeLocation);
  }

  // ----- The laws -----

  /** Decoding an encoded profile gives it back without what encodes to nothing, its cache rebuilt;
      a table that does not start with the empty string is refused. */
  lemma RoundTrip(p: Profile)
    requires WellFormedText(p.strings.strings)
    requires |Encode(p)| <= I64_MAX
    ensures Decode(Encode(p))
         == if p.strings.strings != [] && p.strings.strings[0] == []
            then Ok(Normalise(p).(strings := StringTable(p.strings.strings, FirstIndices(p.strings.strings))))
            else Err(InvalidStringTable)
  {
    EncodedPartsFit(p);
    TablesWritten(p);
    HeadWritten(p);
    WrittenFits(TableFields(p) + HeadFields(p));
    DecodeEmitted(ApplyProfile, EMPTY_PROFILE, TableFields(p) + HeadFields(p));
    ApplyAppend(ApplyProfile, EMPTY_PROFILE, TableFields(p), HeadFields(p));
    TablesReadBack(p);
    HeadReadBack(p);
  }

  /** Nothing in the profile encodes to nothing. */
  ghost predicate NothingToDrop(p: Profile) {
    && NO_TYPE !in p.valueTypes
    && (forall s :: s in p.samples ==> s != NO_SAMPLE && NO_LABEL !in s.labels)
    && NO_MAPPING !in p.mappings
    && (forall l :: l in p.locations ==> l != NO_LOCATION && NO_LINE !in l.lines)
    && NO_FUNCTION !in p.functions
    && 0 !in p.comments
  }

  lemma {:induction false} KeepsAll<T>(items: seq<T>, f: T -> Option<T>)
    ensures |Keep(items, f)| <= |items|
    ensures (forall x :: x in items ==> f(x) == Some(x)) <==> Keep(items, f) == items
  {
    if items != [] {
      var rest := Keep(items[1..], f);
      KeepsAll(items[1..], f);
      if Keep(items, f) == items {
        assert f(items[0]).Some?;
        assert Keep(items, f)[1..] == rest == items[1..];
        assert Keep(items, f)[0] == items[0];
      } else if forall x :: x in items ==> f(x) == Some(x) {
        assert rest == items[1..];
      }
    }
  }

  lemma SamplesKept(samples: seq<Sample>)
    ensures (forall s :: s in samples ==> s != NO_SAMPLE && NO_LABEL !in s.labels)
       <==> Keep(samples, KeepSample) == samples
  {
    forall s | s in samples ensures KeepSample(s) == Some(s) <==> s != NO_SAMPLE && NO_LABEL !in s.labels {
      KeepsAll(s.labels, KeepLabel);
    }
    KeepsAll(samples, KeepSample);
  }

  lemma LocationsKept(locations: seq<Location>)
    ensures (forall l :: l in locations ==> l != NO_LOCATION && NO_LINE !in l.lines)
       <==> Keep(locations, KeepLocation) == locations
  {
    forall l | l in locations ensures KeepLocation(l) == Some(l) <==> l != NO_LOCATION && NO_LINE !in l.lines {
      KeepsAll(l.lines, KeepLine);
    }
    KeepsAll(locations, KeepLocation);
  }

  lemma NormaliseIsIdentity(p: Profile)
    ensures Normalise(p) == p <==> NothingToDrop(p)
  {
    SamplesKept(p.samples);
    LocationsKept(p.locations);
    KeepsAll(p.valueTypes, KeepValueType);
    KeepsAll(p.mappings, KeepMapping);
    KeepsAll(p.functions, KeepFunction);
    KeepsAll(p.comments, KeepComment);
  }

  /** The exact condition for the round trip to be the identity. */
  lemma RoundTripIsIdentity(p: Profile)
    requires WellFormedText(p.strings.strings)
    requires |Encode(p)| <= I64_MAX
    ensures Decode(Encode(p)) == Ok(p) <==>
      && p.strings.strings != [] && p.strings.strings[0] == []
      && p.strings.indices == FirstIndices(p.strings.strings)
      && NothingToDrop(p)
  {
    RoundTrip(p);
    NormaliseIsIdentity(p);
  }

  // ----- Encoding forgets what the round trip drops -----

  lemma LocationEncodesNormal(l: Location)
    ensures EncodeLocation(NormalLocation(l)) == EncodeLocation(l)
  {
    forall x | x in l.lines ensures EncodeLine(x) == [] <==> x == NO_LINE {
      LineRoundTrip(x);
    }
    RepeatedKeep(4, l.lines, EncodeLine, KeepLine);
  }

  lemma SampleEncodesNormal(s: Sample)
    ensures EncodeSample(NormalSample(s)) == EncodeSample(s)
  {
    forall x | x in s.labels ensures EncodeLabel(x) == [] <==> x == NO_LABEL {
      LabelRoundTrip(x);
    }
    RepeatedKeep(3, s.labels, EncodeLabel, KeepLabel);
  }

  lemma {:induction false} CommentsKeep(comments: seq<u64>)
    ensures CommentFields(Keep(comments, KeepComment)) == CommentFields(comments)
  {
    if comments != [] {
      CommentsKeep(comments[1..]);
      if comments[0] != 0 {
        assert Keep(comments, KeepComment)[1..] == Keep(comments[1..], KeepComment);
      }
    }
  }

  lemma SamplesEncodeNormal(samples: seq<Sample>)
    ensures Repeated(2, Keep(samples, KeepSample), EncodeSample) == Repeated(2, samples, EncodeSample)
  {
    forall x | x in samples
      ensures EncodeSample(x) == (match KeepSample(x) case None => [] case Some(y) => EncodeSample(y))
    {
      SampleEncodesNormal(x);
      if NormalSample(x) == NO_SAMPLE {
        SampleEmpty(x);
      }
    }
    RepeatedKeep(2, samples, EncodeSample, KeepSample);
  }

  lemma LocationsEncodeNormal(locations: seq<Location>)
    ensures Repeated(4, Keep(locations, KeepLocation), EncodeLocation) == Repeated(4, locations, EncodeLocation)
  {
    forall x | x in locations
      ensures EncodeLocation(x) == (match KeepLocation(x) case None => [] case Some(y) => EncodeLocation(y))
    {
      LocationEncodesNormal(x);
      if NormalLocation(x) == NO_LOCATION {
        LocationEmpty(x);
      }
    }
    RepeatedKeep(4, locations, EncodeLocation, KeepLocation);
  }

  lemma ValueTypesEncodeNormal(items: seq<ValueType>)
    ensures Repeated(1, Keep(items, KeepValueType), EncodeValueType) == Repeated(1, items, EncodeValueType)
  {
    ValueTypeRoundTrip(NO_TYPE);
    RepeatedKeep(1, items, EncodeValueType, KeepValueType);
  }

  lemma MappingsEncodeNormal(items: seq<Mapping>)
    ensures Repeated(3, Keep(items, KeepMapping), EncodeMapping) == Repeated(3, items, EncodeMapping)
  {
    MappingRoundTrip(NO_MAPPING);
    hide EncodeMapping, Repeated;
    RepeatedKeep(3, items, EncodeMapping, KeepMapping);
  }

  lemma FunctionsEncodeNormal(items: seq<Function>)
    ensures Repeated(5, Keep(items, KeepFunction), EncodeFunction) == Repeated(5, items, EncodeFunction)
  {
    FunctionRoundTrip(NO_FUNCTION);
    RepeatedKeep(5, items, EncodeFunction, KeepFunction);
  }

  /** What is dropped leaves no trace in the bytes. */
  lemma EncodesNormal(p: Profile)
    ensures Encode(Normalise(p)) == Encode(p)
  {
    ValueTypesEncodeNormal(p.valueTypes);
    MappingsEncodeNormal(p.mappings);
    FunctionsEncodeNormal(p.functions);
    SamplesEncodeNormal(p.samples);
    LocationsEncodeNormal(p.locations);
    CommentsKeep(p.comments);
    assert TableFields(Normalise(p)) == TableFields(p);
    assert HeadFields(Normalise(p)) == HeadFields(p);
  }

  // The decoder only accepts well-formed text.
  lemma FieldText(p: Profile, f: Field)
    requires WellFormedText(p.strings.strings) && ApplyProfile(p, f).Ok?
    ensures WellFormedText(ApplyProfile(p, f).value.strings.strings)
  {
    if f.number <= 6 {
      if f.number != 6 {
        assert ApplyProfile(p, f).value.strings == p.strings;
      }
    } else {
      assert ApplyProfile(p, f).value.strings == p.strings;
    }
  }

  lemma {:induction false} DecodedText(p: Profile, data: seq<u8>)
    requires WellFormedText(p.strings.strings)
    requires DecodeWith(ApplyProfile, p, data).Ok?
    ensures WellFormedText(DecodeWith(ApplyProfile, p, data).value.strings.strings)
    decreases |data|
  {
    if data != [] {
      var step := TakeField(data).value;
      FieldText(p, step.item);
      DecodedText(ApplyProfile(p, step.item).value, data[step.length..]);
    }
  }

  /** Any accepted input re-encodes to a fixed point: decoding and encoding it again changes nothing. */
  lemma ReencodingIsStable(data: seq<u8>)
    requires Decode(data).Ok? && |Encode(Decode(data).value)| <= I64_MAX
    ensures var again := Decode(Encode(Decode(data).value));
      again == Ok(Normalise(Decode(data).value)) && Encode(again.value) == Encode(Decode(data).value)
  {
    DecodedText(EMPTY_PROFILE, data);
    RoundTrip(Decode(data).value);
    EncodesNormal(Decode(data).value);
  }

  // ----- Concatenated inputs -----

  /** The numbers of the singular fields that `data` sets. */
  function SingularFields(data: seq<u8>): set<u64>
    decreases |data|
  {
    if data == [] then {}
    else match TakeField(data)
         case Err(_) => {}
         case Ok(step) => Singular(step.item) + SingularFields(data[step.length..])
  }

  function Singular(f: Field): set<u64> {
    match f
    case Field(n, Varint(_)) => if n in {7, 8, 9, 10, 12, 14, 15} then {n} else {}
    case Field(11, Bytes(_)) => {11}
    case _ => {}
  }

  /** `q` on top of `p`: lists run on, and a singular field that `q`'s input sets replaces `p`'s. */
  function Overlay(p: Profile, q: Profile, present: set<u64>): Profile {
    Profile(
      StringTable(p.strings.strings + q.strings.strings, p.strings.indices),
      p.valueTypes + q.valueTypes,
      p.samples + q.samples,
      p.mappings + q.mappings,
      p.locations + q.locations,
      p.functions + q.functions,
      if 9 in present then q.timeNanos else p.timeNanos,
      if 10 in present then q.durationNanos else p.durationNanos,
      if 11 in present then q.periodType else p.periodType,
      if 12 in present then q.period else p.period,
      if 7 in present then q.dropFrames else p.dropFrames,
      if 8 in present then q.keepFrames else p.keepFrames,
      p.comments + q.comments,
      if 14 in present then q.defaultSampleType else p.defaultSampleType,
      if 15 in present then q.docUrl else p.docUrl)
  }

  // One field has the same effect on any profile.
  ghost predicate Overlays(p: Profile, f: Field) {
    match ApplyProfile(EMPTY_PROFILE, f)
    case Ok(q) => ApplyProfile(p, f) == Ok(Overlay(p, q, Singular(f)))
    case Err(e) => ApplyProfile(p, f) == Err(e)
  }

  lemma TableOverlays(p: Profile, f: Field)
    requires 4 <= f.number <= 6
    ensures Overlays(p, f)
  {
    hide DecodeWith, ValidUtf8, ApplyHead;
    match ApplyTable(EMPTY_PROFILE, f) {
      case Ok(q) =>
        assert Singular(f) == {};
        assert ApplyTable(p, f).value == Overlay(p, q, {});
      case Err(_) =>
    }
  }

  lemma FirstTablesOverlay(p: Profile, f: Field)
    requires f.number <= 3
    ensures Overlays(p, f)
  {
    hide DecodeWith, ApplyHead;
    match ApplyTable(EMPTY_PROFILE, f) {
      case Ok(q) =>
        assert Singular(f) == {};
        assert ApplyTable(p, f).value == Overlay(p, q, {});
      case Err(_) =>
    }
  }

  lemma CommentOverlays(p: Profile, f: Field)
    requires f.number == 13
    ensures Overlays(p, f)
  {
    if ApplyHead(EMPTY_PROFILE, f).Ok? {
      assert Singular(f) == {};
      assert ApplyHead(p, f).value == Overlay(p, ApplyHead(EMPTY_PROFILE, f).value, {});
    }
  }

  lemma PeriodTypeOverlays(p: Profile, f: Field)
    requires f.number == 11
    ensures Overlays(p, f)
  {
    match ApplyHead(EMPTY_PROFILE, f) {
      case Ok(q) => assert ApplyHead(p, f).value == Overlay(p, q, Singular(f));
      case Err(_) =>
    }
  }

  lemma FilterOverlays(p: Profile, f: Field)
    requires f.number == 7 || f.number == 8
    ensures Overlays(p, f)
  {
    hide DecodeWith, TakePacked, ApplyTable;
    var q := ApplyHead(EMPTY_PROFILE, f).value;
    assert ApplyHead(p, f).value == Overlay(p, q, Singular(f));
  }

  lemma TimeOverlays(p: Profile, f: Field)
    requires f.number == 9 || f.number == 10
    ensures Overlays(p, f)
  {
    hide DecodeWith, TakePacked, ApplyTable;
    var q := ApplyHead(EMPTY_PROFILE, f).value;
    assert ApplyHead(p, f).value == Overlay(p, q, Singular(f));
  }

  lemma OtherOverlays(p: Profile, f: Field)
    requires f.number > 6 && f.number !in {7, 8, 9, 10, 11, 13}
    ensures Overlays(p, f)
  {
    hide DecodeWith, TakePacked, ApplyTable;
    var q := ApplyHead(EMPTY_PROFILE, f).value;
    assert ApplyHead(p, f).value == Overlay(p, q, Singular(f));
  }

  lemma ApplyOverlays(p: Profile, f: Field)
    ensures Overlays(p, f)
  {
    if f.number <= 3 {
      FirstTablesOverlay(p, f);
    } else if f.number <= 6 {
      TableOverlays(p, f);
    } else if f.number == 13 {
      CommentOverlays(p, f);
    } else if f.number == 11 {
      PeriodTypeOverlays(p, f);
    } else if f.number <= 8 {
      FilterOverlays(p, f);
    } else if f.number <= 10 {
      TimeOverlays(p, f);
    } else {
      OtherOverlays(p, f);
    }
  }

  lemma OverlayAssociates(p: Profile, q: Profile, r: Profile, a: set<u64>, b: set<u64>)
    ensures Overlay(Overlay(p, q, a), r, b) == Overlay(p, Overlay(q, r, b), a + b)
  {
  }

  lemma {:induction false} DecodeOverlays(p: Profile, data: seq<u8>)
    ensures DecodeWith(ApplyProfile, p, data)
         == match DecodeWith(ApplyProfile, EMPTY_PROFILE, data)
            case Ok(q) => Ok(Overlay(p, q, SingularFields(data)))
            case Err(e) => Err(e)
    decreases |data|
  {
    if data == [] {
      assert Overlay(p, EMPTY_PROFILE, {}) == p;
    } else if TakeField(data).Ok? {
      var step := TakeField(data).value;
      var rest := data[step.length..];
      ApplyOverlays(p, step.item);
      if ApplyProfile(EMPTY_PROFILE, step.item).Ok? {
        var q := ApplyProfile(EMPTY_PROFILE, step.item).value;
        DecodeOverlays(ApplyProfile(p, step.item).value, rest);
        DecodeOverlays(q, rest);
        if DecodeWith(ApplyProfile, EMPTY_PROFILE, rest).Ok? {
          OverlayAssociates(p, q, DecodeWith(ApplyProfile, EMPTY_PROFILE, rest).value,
                            Singular(step.item), SingularFields(rest));
        }
      }
    }
  }

  /** Concatenating two accepted inputs appends the lists, takes the last present singular fields and
      rebuilds the string cache over both tables. */
  lemma DecodeConcatenation(a: seq<u8>, b: seq<u8>)
    requires Decode(a).Ok? && Decode(b).Ok?
    ensures var p, q := Decode(a).value, Decode(b).value;
      Decode(a + b) == Ok(Overlay(p, q, SingularFields(b)).(strings :=
        StringTable(p.strings.strings + q.strings.strings, FirstIndices(p.strings.strings + q.strings.strings))))
  {
    DecodeAppend(ApplyProfile, EMPTY_PROFILE, a, b);
    DecodeOverlays(DecodeWith(ApplyProfile, EMPTY_PROFILE, a).value, b);
  }

  // ----- The codec's entry points -----

  method WriteTables(buf: ByteBuffer, p: Profile)
    modifies buf
    ensures buf.bytes == old(buf.bytes) + Emit(TableFields(p))
  {
    ghost var strings := StringFields(p.strings.strings);
    ghost var functions := Repeated(5, p.functions, EncodeFunction) + strings;
    ghost var locations := Repeated(4, p.locations, EncodeLocation) + functions;
    ghost var mappings := Repeated(3, p.mappings, EncodeMapping) + locations;
    ghost var samples := Repeated(2, p.samples, EncodeSample) + mappings;
    EmitStep(buf.bytes, Repeated(1, p.valueTypes, EncodeValueType), samples, TableFields(p));
    EncodeRepeated(buf, 1, p.valueTypes, EncodeValueType);
    EmitStep(buf.bytes, Repeated(2, p.samples, EncodeSample), mappings, samples);
    EncodeRepeated(buf, 2, p.samples, EncodeSample);
    EmitStep(buf.bytes, Repeated(3, p.mappings, EncodeMapping), locations, mappings);
    EncodeRepeated(buf, 3, p.mappings, EncodeMapping);
    EmitStep(buf.bytes, Repeated(4, p.locations, EncodeLocation), functions, locations);
    EncodeRepeated(buf, 4, p.locations, EncodeLocation);
    EmitStep(buf.bytes, Repeated(5, p.functions, EncodeFunction), strings, functions);
    EncodeRepeated(buf, 5, p.functions, EncodeFunction);
    WriteStrings(buf, p.strings.strings);
  }

  lemma StringsSplit(strings: seq<Text>, i: nat)
    requires i < |strings|
    ensures StringFields(strings[i..]) == [Field(6, Bytes(strings[i]))] + StringFields(strings[i + 1..])
  {
    assert strings[i..][1..] == strings[i + 1..];
  }

  method WriteStrings(buf: ByteBuffer, strings: seq<Text>)
    modifies buf
    ensures buf.bytes == old(buf.bytes) + Emit(StringFields(strings))
  {
    for i := 0 to |strings|
      invariant buf.bytes + Emit(StringFields(strings[i..])) == old(buf.bytes) + Emit(StringFields(strings))
    {
      ghost var before := buf.bytes;
      EncodeBytesField(buf, 6, strings[i]);
      StringsSplit(strings, i);
      EmitStep(before, [Field(6, Bytes(strings[i]))], StringFields(strings[i + 1..]), StringFields(strings[i..]));
    }
  }

  lemma CommentsSplit(comments: seq<u64>, i: nat)
    requires i < |comments|
    ensures CommentFields(comments[i..]) == Scalar(13, comments[i]) + CommentFields(comments[i + 1..])
  {
    assert comments[i..][1..] == comments[i + 1..];
  }

  method WriteComments(buf: ByteBuffer, comments: seq<u64>)
    modifies buf
    ensures buf.bytes == old(buf.bytes) + Emit(CommentFields(comments))
  {
    for i := 0 to |comments|
      invariant buf.bytes + Emit(CommentFields(comments[i..])) == old(buf.bytes) + Emit(CommentFields(comments))
    {
      ghost var before := buf.bytes;
      EncodeVarintField(buf, 13, comments[i]);
      CommentsSplit(comments, i);
      EmitStep(before, Scalar(13, comments[i]), CommentFields(comments[i + 1..]), CommentFields(comments[i..]));
    }
  }

  // Fields 12 to 15.
  method WriteTail(buf: ByteBuffer, p: Profile)
    modifies buf
    ensures buf.bytes == old(buf.bytes) + Emit(TailFields(p))
  {
    ghost var defaults := Scalars(Defaults(p));
    EmitStep(buf.bytes, Scalars(Period(p)), CommentFields(p.comments) + defaults, TailFields(p));
    EncodeScalars(buf, Period(p));
    EmitStep(buf.bytes, CommentFields(p.comments), defaults, CommentFields(p.comments) + defaults);
    WriteComments(buf, p.comments);
    EncodeScalars(buf, Defaults(p));
  }

  method WriteHead(buf: ByteBuffer, p: Profile)
    modifies buf
    ensures buf.bytes == old(buf.bytes) + Emit(HeadFields(p))
  {
    ghost var periodType := Delimited(11, EncodeValueType(p.periodType));
    EmitStep(buf.bytes, Scalars(Times(p)), periodType + TailFields(p), HeadFields(p));
    EncodeScalars(buf, Times(p));
    EmitStep(buf.bytes, periodType, TailFields(p), periodType + TailFields(p));
    EncodeLengthDelimited(buf, 11, EncodeValueType(p.periodType));
    WriteTail(buf, p);
  }

  /** `PprofProfile::encode`. */
  method EncodeProfile(p: Profile) returns (bytes: seq<u8>)
    ensures bytes == Encode(p)
  {
    var buf := new ByteBuffer();
    EmitStep([], TableFields(p), HeadFields(p), TableFields(p) + HeadFields(p));
    EmptyLeft(Encode(p));
    WriteTables(buf, p);
    WriteHead(buf, p);
    bytes := buf.bytes;
  }

  /** `PprofProfile::decode`. */
  method DecodeProfile(data: seq<u8>) returns (r: Result<Profile, WireError>)
    ensures r == Decode(data)
  {
    var decoded := DecodeMessage(ApplyProfile, EMPTY_PROFILE, data);
    if decoded.Err? {
      return Err(decoded.error);
    }
    var table := FromStrings(decoded.value.strings.strings);
    match table {
      case None => return Err(InvalidStringTable);
      case Some(strings) => return Ok(decoded.value.(strings := strings));
    }
  }
}
