/** The bytes of an encoded profile, by the protobuf encoding and the field numbers of `profile.proto`: what
    `src/pprof.rs` writes is read here without its own functions, byte by byte and field by field. */
module PprofWire {
  import opened Prelude
  import opened Wire
  import opened Pprof
  import opened PprofCodec

  // ----- Bytes -----

  // The groups of seven bits, the least significant first.
  function GroupsValue(b: seq<u8>): int {
    if b == [] then 0 else b[0] % 128 + 128 * GroupsValue(b[1..])
  }

  /** These bytes are the shortest varint of `v`: all but the last have their high bit set. */
  ghost predicate IsVarint(b: seq<u8>, v: u64) {
    && b != [] && GroupsValue(b) == v
    && (forall i :: 0 <= i < |b| - 1 ==> b[i] >= 128) && b[|b| - 1] < 128
    && (|b| > 1 ==> b[|b| - 1] != 0)
  }

  /** These bytes are one field: its number and wire type in the first, then the number, or the length and the
      bytes. */
  ghost predicate IsField(b: seq<u8>, f: Field) {
    && b != []
    && match f.value
       case Varint(v) => b[0] == 8 * f.number && IsVarint(b[1..], v)
       case Bytes(s) =>
         && b[0] == 8 * f.number + 2
         && exists n :: 1 < n <= |b| && IsVarint(b[1..n], |s| % U64_SIZE) && b[n..] == s
       case _ => false
  }

  /** The message consists of these fields, one after the other. */
  ghost predicate HasFields(b: seq<u8>, fields: seq<Field>)
    decreases |fields|
  {
    if fields == [] then b == []
    else exists n :: 0 < n <= |b| && IsField(b[..n], fields[0]) && HasFields(b[n..], fields[1..])
  }

  lemma {:induction false} VarintIsVarint(v: u64)
    ensures IsVarint(VarintBytes(v), v)
    decreases v
  {
    var b := VarintBytes(v);
    if v >= 128 {
      VarintIsVarint(v / 128);
      var rest := VarintBytes(v / 128);
      assert b[1..] == rest;
      assert b[0] % 128 == v % 128;
      forall i | 0 <= i < |b| - 1 ensures b[i] >= 128 {
        assert i > 0 ==> b[i] == rest[i - 1];
      }
      assert b[|b| - 1] == rest[|rest| - 1];
      assert |rest| == 1 ==> rest[0] == v / 128;
    }
  }

  lemma FieldIsField(f: Field)
    requires Emittable(f)
    ensures IsField(EmitField(f), f)
  {
    hide GroupsValue, VarintBytes, IsVarint;
    var b := EmitField(f);
    assert b[1..] == ValueBytes(f.value);
    match f.value {
      case Varint(v) =>
        VarintIsVarint(v);
      case Bytes(s) =>
        VarintIsVarint(|s|);
        var n := 1 + |VarintBytes(|s|)|;
        assert b == [b[0]] + VarintBytes(|s|) + s;
        assert b[1..n] == VarintBytes(|s|) && b[n..] == s;
    }
  }

  lemma {:induction false} EmittedFields(fields: seq<Field>)
    requires AllEmittable(fields)
    ensures HasFields(Emit(fields), fields)
    decreases |fields|
  {
    hide EmitField, Emittable, IsField;
    if fields != [] {
      var first, rest := EmitField(fields[0]), Emit(fields[1..]);
      EmittedFields(fields[1..]);
      FieldIsField(fields[0]);
      FieldNotEmpty(fields[0]);
      assert (first + rest)[..|first|] == first && (first + rest)[|first|..] == rest;
    }
  }

  lemma FieldNotEmpty(f: Field)
    ensures |EmitField(f)| > 0
  {
  }

  // ----- Fields -----

  /** The values under a number, in their order. */
  function ValuesAt(fields: seq<Field>, number: int): seq<FieldValue> {
    if fields == [] then []
    else (if fields[0].number == number then [fields[0].value] else []) + ValuesAt(fields[1..], number)
  }

  /** Zero is not written, any other number once. */
  ghost predicate Carries(fields: seq<Field>, number: int, v: int) {
    if v == 0 then ValuesAt(fields, number) == []
    else 0 <= v < U64_SIZE && ValuesAt(fields, number) == [Varint(v)]
  }

  // A signed number is written as its two's complement, a flag as one.
  ghost predicate CarriesSigned(fields: seq<Field>, number: int, v: i64) {
    Carries(fields, number, if v < 0 then v + 0x1_0000_0000_0000_0000 else v)
  }

  ghost predicate CarriesFlag(fields: seq<Field>, number: int, flag: bool) {
    Carries(fields, number, if flag then 1 else 0)
  }

  /** The items whose encoding is not empty, in their order. */
  ghost predicate CarriesItems<T>(fields: seq<Field>, number: int, items: seq<T>, encode: T -> seq<u8>) {
    exists at :: ItemsAt(ValuesAt(fields, number), items, encode, 0, at)
  }

  ghost predicate ItemsAt<T>(values: seq<FieldValue>, items: seq<T>, encode: T -> seq<u8>, from: nat, at: seq<nat>) {
    && |at| == |values| && Rises(at) && Picks(items, encode, from, at)
    && (forall k :: 0 <= k < |at| ==> from <= at[k] < |items| && values[k] == Bytes(encode(items[at[k]])))
  }

  ghost predicate Rises(at: seq<nat>) {
    forall k, m :: 0 <= k < m < |at| ==> at[k] < at[m]
  }

  ghost predicate Picks<T>(items: seq<T>, encode: T -> seq<u8>, from: nat, at: seq<nat>) {
    forall i: nat :: i in at <==> from <= i < |items| && encode(items[i]) != []
  }

  /** The numbers ascend, and lie in a range. */
  ghost predicate Part(fields: seq<Field>, lo: int, hi: int) {
    && (forall i :: 0 <= i < |fields| ==> lo <= fields[i].number <= hi)
    && (forall i, j :: 0 <= i < j < |fields| ==> fields[i].number <= fields[j].number)
  }

  lemma {:induction false} ValuesAppend(a: seq<Field>, b: seq<Field>, number: int)
    ensures ValuesAt(a + b, number) == ValuesAt(a, number) + ValuesAt(b, number)
    decreases |a|
  {
    if a == [] {
      assert a + b == b;
    } else {
      assert (a + b)[1..] == a[1..] + b && (a + b)[0] == a[0];
      ValuesAppend(a[1..], b, number);
      ValuesStep(a, number);
      ValuesStep(a + b, number);
      hide ValuesAt;
    }
  }

  lemma ValuesStep(fields: seq<Field>, number: int)
    requires fields != []
    ensures ValuesAt(fields, number)
         == (if fields[0].number == number then [fields[0].value] else []) + ValuesAt(fields[1..], number)
  {
  }

  lemma {:induction false} NoValues(fields: seq<Field>, lo: int, hi: int, number: int)
    requires Part(fields, lo, hi) && !(lo <= number <= hi)
    ensures ValuesAt(fields, number) == []
    decreases |fields|
  {
    if fields != [] {
      NoValues(fields[1..], lo, hi, number);
    }
  }

  // One part behind the other.
  lemma PartsAppend(a: seq<Field>, lo: int, middle: int, b: seq<Field>, hi: int)
    requires Part(a, lo, middle) && Part(b, middle + 1, hi) && lo <= middle + 1 <= hi + 1
    ensures Part(a + b, lo, hi)
    ensures forall number :: number <= middle ==> ValuesAt(a + b, number) == ValuesAt(a, number)
    ensures forall number :: number > middle ==> ValuesAt(a + b, number) == ValuesAt(b, number)
  {
    forall number
      ensures number <= middle ==> ValuesAt(a + b, number) == ValuesAt(a, number)
      ensures number > middle ==> ValuesAt(a + b, number) == ValuesAt(b, number)
    {
      ValuesAppend(a, b, number);
      if number <= middle {
        NoValues(b, middle + 1, hi, number);
      } else {
        NoValues(a, lo, middle, number);
      }
    }
  }

  // Numbers one by one, from `lo` to `hi`.
  ghost predicate Numbered(scalars: seq<(u64, u64)>, lo: int) {
    forall i :: 0 <= i < |scalars| ==> scalars[i].0 == lo + i
  }

  lemma {:induction false} ScalarsPart(scalars: seq<(u64, u64)>, lo: int)
    requires Numbered(scalars, lo)
    ensures Part(Scalars(scalars), lo, lo + |scalars| - 1)
    ensures forall i :: 0 <= i < |scalars| ==> Carries(Scalars(scalars), lo + i, scalars[i].1)
    decreases |scalars|
  {
    if scalars != [] {
      var first, rest := Scalar(scalars[0].0, scalars[0].1), scalars[1..];
      ScalarsPart(rest, lo + 1);
      assert Scalars(scalars) == first + Scalars(rest);
      OneScalar(scalars[0].0, scalars[0].1);
      PartsAppend(first, lo, lo, Scalars(rest), lo + |scalars| - 1);
      forall i | 0 <= i < |scalars| ensures Carries(Scalars(scalars), lo + i, scalars[i].1) {
        if i > 0 {
          assert rest[i - 1] == scalars[i] && Carries(Scalars(rest), lo + 1 + (i - 1), rest[i - 1].1);
        }
      }
    }
  }

  lemma OneScalar(number: u64, v: u64)
    ensures Part(Scalar(number, v), number, number) && Carries(Scalar(number, v), number, v)
  {
    if v != 0 {
      assert Scalar(number, v)[1..] == [];
    }
  }

  lemma {:induction false} RepeatedPart<T>(number: u64, items: seq<T>, encode: T -> seq<u8>)
    ensures Part(Repeated(number, items, encode), number, number)
    decreases |items|
  {
    if items != [] {
      RepeatedPart(number, items[1..], encode);
    }
  }

  lemma {:induction false} RepeatedAt<T>(number: u64, items: seq<T>, encode: T -> seq<u8>, from: nat)
      returns (at: seq<nat>)
    requires from <= |items|
    ensures ItemsAt(ValuesAt(Repeated(number, items[from..], encode), number), items, encode, from, at)
    decreases |items| - from
  {
    if from == |items| {
      at := [];
    } else {
      var rest := RepeatedAt(number, items, encode, from + 1);
      RepeatedValues(number, items, encode, from);
      hide Repeated, ValuesAt, ItemsAt;
      var values := ValuesAt(Repeated(number, items[from + 1..], encode), number);
      if encode(items[from]) == [] {
        at := rest;
        assert [] + values == values;
        ItemSkipped(values, items, encode, from, rest);
      } else {
        at := [from] + rest;
        ItemNext(values, items, encode, from, rest);
      }
    }
  }

  lemma RepeatedValues<T>(number: u64, items: seq<T>, encode: T -> seq<u8>, from: nat)
    requires from < |items|
    ensures ValuesAt(Repeated(number, items[from..], encode), number)
         == (if encode(items[from]) == [] then [] else [Bytes(encode(items[from]))])
           + ValuesAt(Repeated(number, items[from + 1..], encode), number)
  {
    var first, others := Delimited(number, encode(items[from])), Repeated(number, items[from + 1..], encode);
    assert items[from..][1..] == items[from + 1..];
    assert Repeated(number, items[from..], encode) == first + others;
    hide Repeated;
    ValuesAppend(first, others, number);
    OneItem(number, encode(items[from]));
  }

  lemma ItemSkipped<T>(values: seq<FieldValue>, items: seq<T>, encode: T -> seq<u8>, from: nat, rest: seq<nat>)
    requires from < |items| && encode(items[from]) == [] && ItemsAt(values, items, encode, from + 1, rest)
    ensures ItemsAt(values, items, encode, from, rest)
  {
  }

  lemma ItemNext<T>(values: seq<FieldValue>, items: seq<T>, encode: T -> seq<u8>, from: nat, rest: seq<nat>)
    requires from < |items| && encode(items[from]) != [] && ItemsAt(values, items, encode, from + 1, rest)
    ensures ItemsAt([Bytes(encode(items[from]))] + values, items, encode, from, [from] + rest)
  {
    hide Rises, Picks;
    PicksNext(items, encode, from, rest);
    RisesNext(from, rest);
  }

  lemma RisesNext(from: nat, rest: seq<nat>)
    requires Rises(rest) && forall k :: 0 <= k < |rest| ==> from < rest[k]
    ensures Rises([from] + rest)
  {
  }

  lemma PicksNext<T>(items: seq<T>, encode: T -> seq<u8>, from: nat, rest: seq<nat>)
    requires from < |items| && encode(items[from]) != [] && Picks(items, encode, from + 1, rest)
    ensures Picks(items, encode, from, [from] + rest)
  {
    forall i: nat ensures i in [from] + rest <==> from <= i < |items| && encode(items[i]) != [] {
      assert i in [from] + rest <==> i == from || i in rest;
    }
  }

  lemma RepeatedItems<T>(number: u64, items: seq<T>, encode: T -> seq<u8>)
    ensures Part(Repeated(number, items, encode), number, number)
    ensures CarriesItems(Repeated(number, items, encode), number, items, encode)
  {
    RepeatedPart(number, items, encode);
    var at := RepeatedAt(number, items, encode, 0);
    assert items[0..] == items;
  }

  lemma OneItem(number: u64, bytes: seq<u8>)
    ensures Part(Delimited(number, bytes), number, number)
    ensures ValuesAt(Delimited(number, bytes), number) == if bytes == [] then [] else [Bytes(bytes)]
  {
    if bytes != [] {
      assert Delimited(number, bytes)[1..] == [];
    }
  }

  // ----- The scalar messages -----

  lemma {:induction false} ScalarsEmittable(scalars: seq<(u64, u64)>)
    requires forall i :: 0 <= i < |scalars| ==> 0 < scalars[i].0 < 16
    ensures AllEmittable(Scalars(scalars))
    decreases |scalars|
  {
    if scalars != [] {
      ScalarsEmittable(scalars[1..]);
    }
  }

  // A message of scalars numbered from one.
  lemma ScalarMessageFields(scalars: seq<(u64, u64)>)
    requires Numbered(scalars, 1) && |scalars| < 16
    ensures HasFields(Emit(Scalars(scalars)), Scalars(scalars)) && Part(Scalars(scalars), 1, |scalars|)
    ensures forall i :: 0 <= i < |scalars| ==> Carries(Scalars(scalars), 1 + i, scalars[i].1)
  {
    hide Part, Carries, HasFields;
    ScalarsEmittable(scalars);
    EmittedFields(Scalars(scalars));
    ScalarsPart(scalars, 1);
  }

  ghost predicate IsValueType(fields: seq<Field>, t: ValueType) {
    Part(fields, 1, 2) && Carries(fields, 1, t.typ) && Carries(fields, 2, t.unit)
  }

  ghost predicate IsLine(fields: seq<Field>, l: Line) {
    && Part(fields, 1, 3) && Carries(fields, 1, l.functionId) && CarriesSigned(fields, 2, l.line)
    && CarriesSigned(fields, 3, l.column)
  }

  ghost predicate IsLabel(fields: seq<Field>, l: Label) {
    && Part(fields, 1, 4) && Carries(fields, 1, l.key) && Carries(fields, 2, l.strIndex)
    && CarriesSigned(fields, 3, l.num) && Carries(fields, 4, l.numUnit)
  }

  ghost predicate IsFunction(fields: seq<Field>, f: Function) {
    && Part(fields, 1, 5) && Carries(fields, 1, f.id) && Carries(fields, 2, f.name)
    && Carries(fields, 3, f.systemName) && Carries(fields, 4, f.filename) && CarriesSigned(fields, 5, f.startLine)
  }

  ghost predicate IsMapping(fields: seq<Field>, m: Mapping) {
    && Part(fields, 1, 10) && Carries(fields, 1, m.id) && Carries(fields, 2, m.memoryStart)
    && Carries(fields, 3, m.memoryLimit) && Carries(fields, 4, m.fileOffset)
    && Carries(fields, 5, m.filename) && Carries(fields, 6, m.buildId)
    && CarriesFlag(fields, 7, m.hasFunctions) && CarriesFlag(fields, 8, m.hasFilenames)
    && CarriesFlag(fields, 9, m.hasLineNumbers) && CarriesFlag(fields, 10, m.hasInlineFrames)
  }

  lemma ValueTypeOnWire(t: ValueType)
    ensures exists fields :: HasFields(EncodeValueType(t), fields) && IsValueType(fields, t)
  {
    hide Part, Carries, HasFields, Scalars;
    var scalars := ValueTypeScalars(t);
    ScalarMessageFields(scalars);
    assert scalars[0].1 == t.typ && scalars[1].1 == t.unit;
    assert IsValueType(Scalars(scalars), t);
  }

  lemma LineOnWire(l: Line)
    ensures exists fields :: HasFields(EncodeLine(l), fields) && IsLine(fields, l)
  {
    hide Part, Carries, HasFields, Scalars;
    var scalars := LineScalars(l);
    ScalarMessageFields(scalars);
    assert scalars[0].1 == l.functionId && scalars[1].1 == AsU64(l.line) && scalars[2].1 == AsU64(l.column);
    assert IsLine(Scalars(scalars), l);
  }

  lemma LabelOnWire(l: Label)
    ensures exists fields :: HasFields(EncodeLabel(l), fields) && IsLabel(fields, l)
  {
    hide Part, Carries, HasFields, Scalars;
    var scalars := LabelScalars(l);
    ScalarMessageFields(scalars);
    assert scalars[0].1 == l.key && scalars[1].1 == l.strIndex && scalars[2].1 == AsU64(l.num)
      && scalars[3].1 == l.numUnit;
    assert IsLabel(Scalars(scalars), l);
  }

  lemma FunctionOnWire(f: Function)
    ensures exists fields :: HasFields(EncodeFunction(f), fields) && IsFunction(fields, f)
  {
    hide Part, Carries, HasFields, Scalars;
    var scalars := FunctionScalars(f);
    ScalarMessageFields(scalars);
    assert scalars[0].1 == f.id && scalars[1].1 == f.name && scalars[2].1 == f.systemName
      && scalars[3].1 == f.filename && scalars[4].1 == AsU64(f.startLine);
    assert IsFunction(Scalars(scalars), f);
  }

  lemma CarriesSame(a: seq<Field>, b: seq<Field>, number: int, v: int)
    requires Carries(a, number, v) && ValuesAt(b, number) == ValuesAt(a, number)
    ensures Carries(b, number, v)
  {
  }

  lemma MappingOnWire(m: Mapping)
    ensures exists fields :: HasFields(EncodeMapping(m), fields) && IsMapping(fields, m)
  {
    hide Part, Carries, HasFields, Scalars, ValuesAt;
    var scalars, flags := MappingScalars(m), MappingFlags(m);
    var fields := Scalars(scalars) + Scalars(flags);
    ScalarsPart(scalars, 1);
    ScalarsPart(flags, 7);
    PartsAppend(Scalars(scalars), 1, 6, Scalars(flags), 10);
    MappingApplied(m);
    EmittedFields(fields);
    forall i | 0 <= i < 6 ensures Carries(fields, 1 + i, scalars[i].1) {
      CarriesSame(Scalars(scalars), fields, 1 + i, scalars[i].1);
    }
    forall i | 0 <= i < 4 ensures Carries(fields, 7 + i, flags[i].1) {
      CarriesSame(Scalars(flags), fields, 7 + i, flags[i].1);
    }
    assert scalars[0].1 == m.id && scalars[1].1 == m.memoryStart && scalars[2].1 == m.memoryLimit
      && scalars[3].1 == m.fileOffset && scalars[4].1 == m.filename && scalars[5].1 == m.buildId;
    assert flags[0].1 == Flag(m.hasFunctions) && flags[1].1 == Flag(m.hasFilenames)
      && flags[2].1 == Flag(m.hasLineNumbers) && flags[3].1 == Flag(m.hasInlineFrames);
    assert IsMapping(fields, m);
  }

  // ----- Locations and samples -----

  ghost predicate IsLocation(fields: seq<Field>, l: Location) {
    && Part(fields, 1, 5)
    && Carries(fields, 1, l.id) && Carries(fields, 2, l.mappingId) && Carries(fields, 3, l.address)
    && CarriesItems(fields, 4, l.lines, EncodeLine) && CarriesFlag(fields, 5, l.isFolded)
  }

  /** Varints one after the other. */
  ghost predicate IsPacked(b: seq<u8>, values: seq<int>)
    decreases |values|
  {
    if values == [] then b == []
    else
      && 0 <= values[0] < U64_SIZE
      && exists n :: 0 < n <= |b| && IsVarint(b[..n], values[0]) && IsPacked(b[n..], values[1..])
  }

  // One packed field, or none for an empty list.
  ghost predicate CarriesPacked(fields: seq<Field>, number: int, values: seq<int>) {
    if values == [] then ValuesAt(fields, number) == []
    else
      var found := ValuesAt(fields, number);
      |found| == 1 && found[0].Bytes? && IsPacked(found[0].bytes, values)
  }

  ghost predicate IsSample(fields: seq<Field>, s: Sample) {
    && Part(fields, 1, 3)
    && CarriesPacked(fields, 1, seq(|s.locationIds|, i requires 0 <= i < |s.locationIds| => s.locationIds[i] as int))
    && CarriesPacked(fields, 2, seq(|s.values|, i requires 0 <= i < |s.values| =>
      if s.values[i] < 0 then s.values[i] + 0x1_0000_0000_0000_0000 else s.values[i] as int))
    && CarriesItems(fields, 3, s.labels, EncodeLabel)
  }

  lemma {:induction false} PackedIsPacked(values: seq<u64>, numbers: seq<int>)
    requires |values| == |numbers| && forall i :: 0 <= i < |values| ==> numbers[i] == values[i]
    ensures IsPacked(PackedBytes(values), numbers)
    ensures PackedBytes(values) == [] <==> values == []
    decreases |values|
  {
    hide VarintBytes, IsVarint;
    if values != [] {
      var first, rest := VarintBytes(values[0]), PackedBytes(values[1..]);
      VarintIsVarint(values[0]);
      PackedIsPacked(values[1..], numbers[1..]);
      assert (first + rest)[..|first|] == first && (first + rest)[|first|..] == rest;
    }
  }

  lemma {:induction false} SignedAre(values: seq<i64>)
    ensures |AsU64s(values)| == |values|
    ensures forall i :: 0 <= i < |values| ==> AsU64s(values)[i] == AsU64(values[i])
  {
    if values != [] {
      SignedAre(values[1..]);
    }
  }

  lemma LocationOnWire(l: Location)
    requires |EncodeLocation(l)| <= I64_MAX
    ensures exists fields :: HasFields(EncodeLocation(l), fields) && IsLocation(fields, l)
  {
    hide Part, HasFields, Scalars, ValuesAt, Repeated, EncodeLine, ItemsAt;
    var head, tail, lines := LocationHead(l), LocationTail(l), Repeated(4, l.lines, EncodeLine);
    ScalarsPart(head, 1);
    ScalarsPart(tail, 5);
    RepeatedItems(4, l.lines, EncodeLine);
    PartsAppend(lines, 4, 4, Scalars(tail), 5);
    PartsAppend(Scalars(head), 1, 3, lines + Scalars(tail), 5);
    LocationWritten(l);
    WrittenFits(LocationFields(l));
    EmittedFields(LocationFields(l));
    var fields := LocationFields(l);
    assert Carries(Scalars(head), 1 + 0, head[0].1) && Carries(Scalars(head), 1 + 1, head[1].1)
      && Carries(Scalars(head), 1 + 2, head[2].1) && Carries(Scalars(tail), 5 + 0, tail[0].1);
    assert IsLocation(fields, l);
  }

  lemma SampleOnWire(s: Sample)
    requires |EncodeSample(s)| <= I64_MAX
    ensures exists fields :: HasFields(EncodeSample(s), fields) && IsSample(fields, s)
  {
    hide Part, HasFields, ValuesAt, Repeated, EncodeLabel, ItemsAt, PackedBytes, Delimited, IsPacked, AsU64s;
    var ids := seq(|s.locationIds|, i requires 0 <= i < |s.locationIds| => s.locationIds[i] as int);
    var values := seq(|s.values|, i requires 0 <= i < |s.values| =>
      if s.values[i] < 0 then s.values[i] + 0x1_0000_0000_0000_0000 else s.values[i] as int);
    SignedAre(s.values);
    PackedIsPacked(s.locationIds, ids);
    PackedIsPacked(AsU64s(s.values), values);
    var first, second, third := Delimited(1, PackedBytes(s.locationIds)), Delimited(2, PackedBytes(AsU64s(s.values))),
      Repeated(3, s.labels, EncodeLabel);
    OneItem(1, PackedBytes(s.locationIds));
    OneItem(2, PackedBytes(AsU64s(s.values)));
    RepeatedItems(3, s.labels, EncodeLabel);
    PartsAppend(second, 2, 2, third, 3);
    PartsAppend(first, 1, 1, second + third, 3);
    SampleWritten(s);
    WrittenFits(SampleFields(s));
    EmittedFields(SampleFields(s));
    assert third + [] == third;
    assert SampleFields(s) == first + (second + third);
    assert IsSample(first + (second + third), s);
  }

  // ----- The profile -----

  // All texts, empty ones too.
  ghost predicate CarriesTexts(fields: seq<Field>, number: int, texts: seq<Text>) {
    var found := ValuesAt(fields, number);
    |found| == |texts| && forall i :: 0 <= i < |texts| ==> found[i] == Bytes(texts[i])
  }

  // The comments that are not zero, each for itself.
  ghost predicate CarriesNumbers(fields: seq<Field>, number: int, values: seq<u64>) {
    exists at :: NumbersAt(ValuesAt(fields, number), values, 0, at)
  }

  ghost predicate NumbersAt(found: seq<FieldValue>, values: seq<u64>, from: nat, at: seq<nat>) {
    && |at| == |found| && Rises(at) && (forall i: nat :: i in at <==> from <= i < |values| && values[i] != 0)
    && (forall k :: 0 <= k < |at| ==> from <= at[k] < |values| && found[k] == Varint(values[at[k]]))
  }

  /** A profile's fields, by the numbers of `profile.proto`. */
  ghost predicate IsProfile(fields: seq<Field>, p: Profile) {
    && Part(fields, 1, 15)
    && CarriesItems(fields, 1, p.valueTypes, EncodeValueType) && CarriesItems(fields, 2, p.samples, EncodeSample)
    && CarriesItems(fields, 3, p.mappings, EncodeMapping) && CarriesItems(fields, 4, p.locations, EncodeLocation)
    && CarriesItems(fields, 5, p.functions, EncodeFunction) && CarriesTexts(fields, 6, p.strings.strings)
    && Carries(fields, 7, p.dropFrames) && Carries(fields, 8, p.keepFrames)
    && CarriesSigned(fields, 9, p.timeNanos) && CarriesSigned(fields, 10, p.durationNanos)
    && CarriesItems(fields, 11, [p.periodType], EncodeValueType) && CarriesSigned(fields, 12, p.period)
    && CarriesNumbers(fields, 13, p.comments)
    && Carries(fields, 14, p.defaultSampleType) && Carries(fields, 15, p.docUrl)
  }

  lemma {:induction false} StringsPart(strings: seq<Text>)
    ensures Part(StringFields(strings), 6, 6) && CarriesTexts(StringFields(strings), 6, strings)
    decreases |strings|
  {
    if strings != [] {
      StringsPart(strings[1..]);
      ValuesStep(StringFields(strings), 6);
      assert StringFields(strings)[1..] == StringFields(strings[1..]);
    }
  }

  lemma {:induction false} CommentsPart(comments: seq<u64>, from: nat) returns (at: seq<nat>)
    requires from <= |comments|
    ensures Part(CommentFields(comments[from..]), 13, 13)
    ensures NumbersAt(ValuesAt(CommentFields(comments[from..]), 13), comments, from, at)
    decreases |comments| - from
  {
    if from == |comments| {
      at := [];
    } else {
      var rest := CommentsPart(comments, from + 1);
      CommentValues(comments, from);
      hide CommentFields, ValuesAt, NumbersAt, Part;
      var found := ValuesAt(CommentFields(comments[from + 1..]), 13);
      if comments[from] == 0 {
        at := rest;
        assert [] + found == found;
        NumberSkipped(found, comments, from, rest);
      } else {
        at := [from] + rest;
        NumberNext(found, comments, from, rest);
      }
    }
  }

  lemma CommentValues(comments: seq<u64>, from: nat)
    requires from < |comments|
    ensures ValuesAt(CommentFields(comments[from..]), 13)
         == (if comments[from] == 0 then [] else [Varint(comments[from])])
           + ValuesAt(CommentFields(comments[from + 1..]), 13)
    ensures Part(CommentFields(comments[from + 1..]), 13, 13) ==> Part(CommentFields(comments[from..]), 13, 13)
  {
    var first, others := Scalar(13, comments[from]), CommentFields(comments[from + 1..]);
    assert comments[from..][1..] == comments[from + 1..];
    assert CommentFields(comments[from..]) == first + others;
    hide CommentFields;
    ValuesAppend(first, others, 13);
    OneScalar(13, comments[from]);
    hide ValuesAt;
  }

  lemma NumberSkipped(found: seq<FieldValue>, values: seq<u64>, from: nat, rest: seq<nat>)
    requires from < |values| && values[from] == 0 && NumbersAt(found, values, from + 1, rest)
    ensures NumbersAt(found, values, from, rest)
  {
    hide Rises;
  }

  lemma NumberNext(found: seq<FieldValue>, values: seq<u64>, from: nat, rest: seq<nat>)
    requires from < |values| && values[from] != 0 && NumbersAt(found, values, from + 1, rest)
    ensures NumbersAt([Varint(values[from])] + found, values, from, [from] + rest)
  {
    hide Rises;
    RisesNext(from, rest);
    forall i: nat ensures i in [from] + rest <==> from <= i < |values| && values[i] != 0 {
      assert i in [from] + rest <==> i == from || i in rest;
    }
  }

  // The tables, fields 1 to 6.
  lemma TablesPart(p: Profile)
    ensures var fields := TableFields(p);
      && Part(fields, 1, 6)
      && CarriesItems(fields, 1, p.valueTypes, EncodeValueType) && CarriesItems(fields, 2, p.samples, EncodeSample)
      && CarriesItems(fields, 3, p.mappings, EncodeMapping) && CarriesItems(fields, 4, p.locations, EncodeLocation)
      && CarriesItems(fields, 5, p.functions, EncodeFunction) && CarriesTexts(fields, 6, p.strings.strings)
  {
    hide Part, ValuesAt, Repeated, ItemsAt, StringFields, EncodeValueType, EncodeSample, EncodeMapping, EncodeLocation,
         EncodeFunction;
    var strings := StringFields(p.strings.strings);
    var functions := Repeated(5, p.functions, EncodeFunction) + strings;
    var locations := Repeated(4, p.locations, EncodeLocation) + functions;
    var mappings := Repeated(3, p.mappings, EncodeMapping) + locations;
    var samples := Repeated(2, p.samples, EncodeSample) + mappings;
    StringsPart(p.strings.strings);
    RepeatedItems(5, p.functions, EncodeFunction);
    PartsAppend(Repeated(5, p.functions, EncodeFunction), 5, 5, strings, 6);
    RepeatedItems(4, p.locations, EncodeLocation);
    PartsAppend(Repeated(4, p.locations, EncodeLocation), 4, 4, functions, 6);
    RepeatedItems(3, p.mappings, EncodeMapping);
    PartsAppend(Repeated(3, p.mappings, EncodeMapping), 3, 3, locations, 6);
    RepeatedItems(2, p.samples, EncodeSample);
    PartsAppend(Repeated(2, p.samples, EncodeSample), 2, 2, mappings, 6);
    RepeatedItems(1, p.valueTypes, EncodeValueType);
    PartsAppend(Repeated(1, p.valueTypes, EncodeValueType), 1, 1, samples, 6);
  }

  lemma TailPart(p: Profile)
    ensures var fields := TailFields(p);
      && Part(fields, 12, 15) && CarriesSigned(fields, 12, p.period) && CarriesNumbers(fields, 13, p.comments)
      && Carries(fields, 14, p.defaultSampleType) && Carries(fields, 15, p.docUrl)
  {
    hide Part, ValuesAt, Scalars, CommentFields, NumbersAt;
    var period, comments, defaults := Scalars(Period(p)), CommentFields(p.comments), Scalars(Defaults(p));
    ScalarsPart(Period(p), 12);
    ScalarsPart(Defaults(p), 14);
    var at := CommentsPart(p.comments, 0);
    assert p.comments[0..] == p.comments;
    PartsAppend(comments, 13, 13, defaults, 15);
    PartsAppend(period, 12, 12, comments + defaults, 15);
    assert Carries(period, 12 + 0, Period(p)[0].1) && Carries(defaults, 14 + 0, Defaults(p)[0].1)
      && Carries(defaults, 14 + 1, Defaults(p)[1].1);
  }

  lemma HeadPart(p: Profile)
    ensures var fields := HeadFields(p);
      && Part(fields, 7, 15) && Carries(fields, 7, p.dropFrames) && Carries(fields, 8, p.keepFrames)
      && CarriesSigned(fields, 9, p.timeNanos) && CarriesSigned(fields, 10, p.durationNanos)
      && CarriesItems(fields, 11, [p.periodType], EncodeValueType) && CarriesSigned(fields, 12, p.period)
      && CarriesNumbers(fields, 13, p.comments)
      && Carries(fields, 14, p.defaultSampleType) && Carries(fields, 15, p.docUrl)
  {
    hide Part, ValuesAt, Scalars, TailFields, ItemsAt, NumbersAt, Delimited, EncodeValueType;
    var times, typ := Scalars(Times(p)), Delimited(11, EncodeValueType(p.periodType));
    ScalarsPart(Times(p), 7);
    OnePeriodType(p.periodType);
    TailPart(p);
    PartsAppend(typ, 11, 11, TailFields(p), 15);
    PartsAppend(times, 7, 10, typ + TailFields(p), 15);
    assert Carries(times, 7 + 0, Times(p)[0].1) && Carries(times, 7 + 1, Times(p)[1].1)
      && Carries(times, 7 + 2, Times(p)[2].1) && Carries(times, 7 + 3, Times(p)[3].1);
  }

  lemma OnePeriodType(t: ValueType)
    ensures Part(Delimited(11, EncodeValueType(t)), 11, 11)
    ensures CarriesItems(Delimited(11, EncodeValueType(t)), 11, [t], EncodeValueType)
  {
    hide EncodeValueType, Delimited, Part, CarriesItems;
    RepeatedItems(11, [t], EncodeValueType);
    RepeatedOne(11, t, EncodeValueType);
  }

  lemma RepeatedOne<T>(number: u64, x: T, encode: T -> seq<u8>)
    ensures Repeated(number, [x], encode) == Delimited(number, encode(x))
  {
    hide Delimited;
    assert [x][1..] == [];
    assert Repeated(number, [x], encode) == Delimited(number, encode(x)) + [];
  }

  /** The whole profile: its bytes are these fields, in the order of their numbers. */
  lemma ProfileOnWire(p: Profile)
    requires |Encode(p)| <= I64_MAX
    ensures exists fields :: HasFields(Encode(p), fields) && IsProfile(fields, p)
  {
    hide Part, HasFields, ValuesAt, ItemsAt, NumbersAt, TableFields, HeadFields, Carries, EncodeValueType, EncodeSample,
         EncodeMapping, EncodeLocation, EncodeFunction;
    var tables, head := TableFields(p), HeadFields(p);
    TablesPart(p);
    HeadPart(p);
    PartsAppend(tables, 1, 6, head, 15);
    TablesWritten(p);
    HeadWritten(p);
    WrittenAppend(tables, head);
    WrittenFits(tables + head);
    EmittedFields(tables + head);
    assert Encode(p) == Emit(tables + head);
    hide Encode, Emit;
    HeadCarried(tables, head, p);
    assert IsProfile(tables + head, p);
  }

  lemma HeadCarried(tables: seq<Field>, head: seq<Field>, p: Profile)
    requires forall number :: number > 6 ==> ValuesAt(tables + head, number) == ValuesAt(head, number)
    requires Carries(head, 7, p.dropFrames) && Carries(head, 8, p.keepFrames)
    requires CarriesSigned(head, 9, p.timeNanos) && CarriesSigned(head, 10, p.durationNanos)
    requires CarriesSigned(head, 12, p.period)
    requires Carries(head, 14, p.defaultSampleType) && Carries(head, 15, p.docUrl)
    ensures var fields := tables + head;
      && Carries(fields, 7, p.dropFrames) && Carries(fields, 8, p.keepFrames)
      && CarriesSigned(fields, 9, p.timeNanos) && CarriesSigned(fields, 10, p.durationNanos)
      && CarriesSigned(fields, 12, p.period)
      && Carries(fields, 14, p.defaultSampleType) && Carries(fields, 15, p.docUrl)
  {
    hide ValuesAt;
  }

  // ----- Other forms of the same -----

  // The values one by one, each in a field of its own.
  function Unpacked(number: u64, values: seq<u64>): seq<Field> {
    if values == [] then [] else [Field(number, Varint(values[0]))] + Unpacked(number, values[1..])
  }

  lemma UnpackedStep<M>(apply: Decoder<M>, m: M, number: u64, values: seq<u64>)
    requires values != []
    ensures ApplyAll(apply, m, Unpacked(number, values))
         == match apply(m, Field(number, Varint(values[0])))
            case Ok(next) => ApplyAll(apply, next, Unpacked(number, values[1..]))
            case Err(e) => Err(e)
  {
    var fields := Unpacked(number, values);
    assert fields[0] == Field(number, Varint(values[0])) && fields[1..] == Unpacked(number, values[1..]);
  }

  // What a list of ids, of values or of comments adds.
  function WithIds(s: Sample, values: seq<u64>): Sample {
    s.(locationIds := s.locationIds + values)
  }

  function WithValues(s: Sample, values: seq<u64>): Sample {
    s.(values := s.values + AsI64s(values))
  }

  function WithComments(p: Profile, values: seq<u64>): Profile {
    p.(comments := p.comments + values)
  }

  /** Lists of numbers may come packed into one field, or one by one in fields of their own: they are read alike. */
  lemma PackedOrNot(s: Sample, p: Profile, values: seq<u64>)
    ensures ApplyAll(ApplySample, s, Unpacked(1, values)) == ApplySample(s, Field(1, Bytes(PackedBytes(values))))
      == Ok(WithIds(s, values))
    ensures ApplyAll(ApplySample, s, Unpacked(2, values)) == ApplySample(s, Field(2, Bytes(PackedBytes(values))))
      == Ok(WithValues(s, values))
    ensures ApplyAll(ApplyProfile, p, Unpacked(13, values)) == ApplyProfile(p, Field(13, Bytes(PackedBytes(values))))
      == Ok(WithComments(p, values))
  {
    PackedReadsBack(values);
    UnpackedIds(s, values);
    UnpackedValues(s, values);
    UnpackedComments(p, values);
    hide PackedBytes, TakePacked, AsI64s, ApplyAll, Unpacked;
  }

  lemma {:induction false} UnpackedIds(s: Sample, values: seq<u64>)
    ensures ApplyAll(ApplySample, s, Unpacked(1, values)) == Ok(WithIds(s, values))
    decreases |values|
  {
    if values == [] {
      assert s.locationIds + values == s.locationIds;
    } else {
      UnpackedStep(ApplySample, s, 1, values);
      UnpackedIds(WithIds(s, [values[0]]), values[1..]);
      hide ApplyAll, Unpacked;
      assert s.locationIds + [values[0]] + values[1..] == s.locationIds + values;
    }
  }

  lemma {:induction false} UnpackedValues(s: Sample, values: seq<u64>)
    ensures ApplyAll(ApplySample, s, Unpacked(2, values)) == Ok(WithValues(s, values))
    decreases |values|
  {
    if values == [] {
      assert s.values + AsI64s(values) == s.values;
    } else {
      UnpackedStep(ApplySample, s, 2, values);
      var t := s.(values := s.values + [AsI64(values[0])]);
      UnpackedValues(t, values[1..]);
      WithMoreValues(s, values);
      hide ApplyAll, Unpacked, WithValues;
    }
  }

  lemma WithMoreValues(s: Sample, values: seq<u64>)
    requires values != []
    ensures WithValues(s.(values := s.values + [AsI64(values[0])]), values[1..]) == WithValues(s, values)
  {
    assert s.values + [AsI64(values[0])] + AsI64s(values[1..]) == s.values + AsI64s(values);
  }

  lemma {:induction false} UnpackedComments(p: Profile, values: seq<u64>)
    ensures ApplyAll(ApplyProfile, p, Unpacked(13, values)) == Ok(WithComments(p, values))
    decreases |values|
  {
    if values == [] {
      assert p.comments + values == p.comments;
    } else {
      UnpackedStep(ApplyProfile, p, 13, values);
      UnpackedComments(WithComments(p, [values[0]]), values[1..]);
      hide ApplyAll, Unpacked;
      assert p.comments + [values[0]] + values[1..] == p.comments + values;
    }
  }
}
