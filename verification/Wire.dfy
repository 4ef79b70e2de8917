/** The protobuf wire format that `src/pprof.rs` reads and writes: Base 128 varints, tags,
    length-delimited values, and a walk over the fields of a message.

    A message is described by the list of its fields.  `Emit` gives the bytes of such a list and
    `DecodeWith` is the decoders' loop: take the next field, apply it to the message, go on. */
module Wire {
  import opened Prelude

  datatype WireError =
    | Truncated
    | VarintOverflow
    | FieldNumberZero
    | UnsupportedWireType
    | InvalidUtf8
    | InvalidStringTable

  datatype FieldValue =
    | Varint(value: u64)
    | Bytes(bytes: seq<u8>)
    | Fixed32
    | Fixed64

  datatype Field = Field(number: u64, value: FieldValue)

  // A value read from the front of some bytes, and how many bytes it took.
  datatype Taken<+T> = Taken(item: T, length: nat)

  // ----- Specification: varints -----

  /** Little-endian groups of seven bits, the high bit set on all but the last. */
  function VarintBytes(v: u64): (b: seq<u8>)
    ensures |b| > 0
    decreases v
  {
    if v < 128 then [v] else [v % 128 + 128] + VarintBytes(v / 128)
  }

  /** 2^(64 - 7k): the bound on what a varint may still hold after `k` of its bytes. */
  function VarintRoom(k: nat): int
    requires k <= 9
    decreases 9 - k
  {
    if k == 9 then 2 else 128 * VarintRoom(k + 1)
  }

  /** Read a varint of which `k` bytes have been read already.  The tenth byte may only be 0 or 1. */
  function TakeVarintFrom(data: seq<u8>, k: nat): (r: Result<Taken<u64>, WireError>)
    requires k <= 9
    ensures r.Ok? ==> 0 < r.value.length <= |data| && r.value.item < VarintRoom(k) <= U64_SIZE
    decreases |data|
  {
    if data == [] then Err(Truncated)
    else if k == 9 && data[0] > 1 then Err(VarintOverflow)
    else if data[0] < 128 then
      RoomBounds(k);
      Ok(Taken(data[0], 1))
    else
      RoomBounds(k);
      var rest :- TakeVarintFrom(data[1..], k + 1);
      Ok(Taken(data[0] % 128 + 128 * rest.item, rest.length + 1))
  }

  lemma RoomBounds(k: nat)
    requires k <= 9
    ensures VarintRoom(k) <= U64_SIZE
    ensures k < 9 ==> VarintRoom(k) >= 256
  {
    if k < 9 {
      assert VarintRoom(9) == 2;
      assert VarintRoom(8) == 256;
      assert VarintRoom(7) == 32768;
      assert VarintRoom(6) == 4194304;
      assert VarintRoom(5) == 536870912;
      assert VarintRoom(4) == 68719476736;
      assert VarintRoom(3) == 8796093022208;
      assert VarintRoom(2) == 1125899906842624;
      assert VarintRoom(1) == 144115188075855872;
      assert VarintRoom(0) == U64_SIZE;
    }
  }

  function TakeVarint(data: seq<u8>): Result<Taken<u64>, WireError> {
    TakeVarintFrom(data, 0)
  }

  // ----- Specification: fields -----

  function TakeBytes(data: seq<u8>, length: nat): (r: Result<seq<u8>, WireError>)
    ensures r.Ok? ==> length <= |data|
  {
    if length <= |data| then Ok(data[..length]) else Err(Truncated)
  }

  /** The value that follows a tag, by its wire type. */
  function TakeValue(wire: int, data: seq<u8>): (r: Result<Taken<FieldValue>, WireError>)
    ensures r.Ok? ==> r.value.length <= |data|
  {
    match wire
    case 0 =>
      var v :- TakeVarint(data);
      Ok(Taken(Varint(v.item), v.length))
    case 1 =>
      var _ :- TakeBytes(data, 8);
      Ok(Taken(Fixed64, 8))
    case 2 =>
      var length :- TakeVarint(data);
      var bytes :- TakeBytes(data[length.length..], length.item);
      Ok(Taken(Bytes(bytes), length.length + length.item))
    case 5 =>
      var _ :- TakeBytes(data, 4);
      Ok(Taken(Fixed32, 4))
    case _ => Err(UnsupportedWireType)
  }

  /** The field at the front of `data`: a tag, then a value. */
  function TakeField(data: seq<u8>): (r: Result<Taken<Field>, WireError>)
    ensures r.Ok? ==> 0 < r.value.length <= |data|
  {
    var tag :- TakeVarint(data);
    if tag.item / 8 == 0 then Err(FieldNumberZero)
    else
      var v :- TakeValue(tag.item % 8, data[tag.length..]);
      Ok(Taken(Field(tag.item / 8, v.item), tag.length + v.length))
  }

  /** What one step of a decoder does to its message. */
  type Decoder<!M> = (M, Field) -> Result<M, WireError>

  /** The decoders' loop. */
  function DecodeWith<M>(apply: Decoder<M>, m: M, data: seq<u8>): Result<M, WireError>
    decreases |data|
  {
    if data == [] then Ok(m)
    else
      var step :- TakeField(data);
      var m' :- apply(m, step.item);
      DecodeWith(apply, m', data[step.length..])
  }

  /** The same loop over fields that are already split. */
  function ApplyAll<M>(apply: Decoder<M>, m: M, fields: seq<Field>): Result<M, WireError> {
    if fields == [] then Ok(m)
    else
      var m' :- apply(m, fields[0]);
      ApplyAll(apply, m', fields[1..])
  }

  /** Go on with `fields` unless an earlier step failed. */
  function Continue<M>(apply: Decoder<M>, r: Result<M, WireError>, fields: seq<Field>): Result<M, WireError> {
    var m :- r;
    ApplyAll(apply, m, fields)
  }

  function WireType(v: FieldValue): int {
    match v
    case Varint(_) => 0
    case Bytes(_) => 2
    case Fixed32 => 5
    case Fixed64 => 1
  }

  // The writers never emit a fixed-width value.
  function ValueBytes(v: FieldValue): seq<u8> {
    match v
    case Varint(n) => VarintBytes(n)
    case Bytes(b) => VarintBytes(|b| % U64_SIZE) + b
    case _ => []
  }

  /** The bytes of one field: a one-byte tag, then the value. */
  function EmitField(f: Field): seq<u8> {
    [(f.number * 8 + WireType(f.value)) % 256] + ValueBytes(f.value)
  }

  function Emit(fields: seq<Field>): seq<u8> {
    if fields == [] then [] else EmitField(fields[0]) + Emit(fields[1..])
  }

  /** `encode_varint_field`: nothing for zero. */
  function Scalar(number: u64, v: u64): seq<Field> {
    if v == 0 then [] else [Field(number, Varint(v))]
  }

  /** Consecutive scalar fields: numbers and values. */
  function Scalars(scalars: seq<(u64, u64)>): seq<Field> {
    if scalars == [] then [] else Scalar(scalars[0].0, scalars[0].1) + Scalars(scalars[1..])
  }

  /** `encode_length_delimited`: nothing for an empty value. */
  function Delimited(number: u64, bytes: seq<u8>): seq<Field> {
    if bytes == [] then [] else [Field(number, Bytes(bytes))]
  }

  /** One length-delimited field for each item whose encoding is not empty. */
  function Repeated<T>(number: u64, items: seq<T>, encode: T -> seq<u8>): seq<Field> {
    if items == [] then []
    else Delimited(number, encode(items[0])) + Repeated(number, items[1..], encode)
  }

  function PackedBytes(values: seq<u64>): seq<u8> {
    if values == [] then [] else VarintBytes(values[0]) + PackedBytes(values[1..])
  }

  /** `decode_packed`. */
  function TakePacked(data: seq<u8>): Result<seq<u64>, WireError>
    decreases |data|
  {
    if data == [] then Ok([])
    else
      var v :- TakeVarint(data);
      var rest :- TakePacked(data[v.length..]);
      Ok([v.item] + rest)
  }

  // Every pprof field number is below 16, and a Rust slice is shorter than 2^63.
  predicate Emittable(f: Field) {
    && 0 < f.number < 16
    && match f.value
       case Varint(_) => true
       case Bytes(b) => |b| <= I64_MAX
       case _ => false
  }

  ghost predicate AllEmittable(fields: seq<Field>) {
    forall i :: 0 <= i < |fields| ==> Emittable(fields[i])
  }

  // ----- Reading back what was written -----

  lemma {:induction false} VarintReadsBack(v: u64, k: nat, rest: seq<u8>)
    requires k <= 9 && v < VarintRoom(k)
    ensures TakeVarintFrom(VarintBytes(v) + rest, k) == Ok(Taken(v, |VarintBytes(v)|))
    decreases v
  {
    RoomBounds(k);
    var data := VarintBytes(v) + rest;
    if v >= 128 {
      assert k < 9;
      VarintReadsBack(v / 128, k + 1, rest);
      assert data[1..] == VarintBytes(v / 128) + rest;
      assert data[0] % 128 == v % 128;
    }
  }

  lemma VarintRoundTrip(v: u64, rest: seq<u8>)
    ensures TakeVarint(VarintBytes(v) + rest) == Ok(Taken(v, |VarintBytes(v)|))
  {
    assert VarintRoom(0) == U64_SIZE by { RoomIsAll(); }
    VarintReadsBack(v, 0, rest);
  }

  lemma RoomIsAll()
    ensures VarintRoom(0) == U64_SIZE
  {
    assert VarintRoom(6) == 4194304;
    assert VarintRoom(3) == 8796093022208;
  }

  lemma {:induction false} PackedReadsBack(values: seq<u64>)
    ensures TakePacked(PackedBytes(values)) == Ok(values)
  {
    if values != [] {
      var rest := PackedBytes(values[1..]);
      VarintRoundTrip(values[0], rest);
      PackedReadsBack(values[1..]);
      assert [values[0]] + values[1..] == values;
      assert PackedBytes(values)[|VarintBytes(values[0])|..] == rest;
    }
  }

  lemma BytesReadBack(b: seq<u8>, rest: seq<u8>)
    requires |b| <= I64_MAX
    ensures TakeValue(2, VarintBytes(|b|) + b + rest) == Ok(Taken(Bytes(b), |VarintBytes(|b|)| + |b|))
  {
    var data := VarintBytes(|b|) + b + rest;
    assert data == VarintBytes(|b|) + (b + rest);
    VarintRoundTrip(|b|, b + rest);
    assert data[|VarintBytes(|b|)|..] == b + rest;
    assert (b + rest)[..|b|] == b;
  }

  lemma ValueReadsBack(v: FieldValue, rest: seq<u8>)
    requires v.Varint? || (v.Bytes? && |v.bytes| <= I64_MAX)
    ensures TakeValue(WireType(v), ValueBytes(v) + rest) == Ok(Taken(v, |ValueBytes(v)|))
  {
    if v.Varint? {
      VarintRoundTrip(v.value, rest);
    } else {
      assert ValueBytes(v) == VarintBytes(|v.bytes|) + v.bytes;
      BytesReadBack(v.bytes, rest);
    }
  }

  lemma FieldReadsBack(f: Field, rest: seq<u8>)
    requires Emittable(f)
    ensures TakeField(EmitField(f) + rest) == Ok(Taken(f, |EmitField(f)|))
  {
    hide TakeValue, ValueBytes, TakeVarintFrom;
    var data := EmitField(f) + rest;
    var tag: u64 := f.number * 8 + WireType(f.value);
    assert data == VarintBytes(tag) + (ValueBytes(f.value) + rest);
    VarintRoundTrip(tag, ValueBytes(f.value) + rest);
    assert data[1..] == ValueBytes(f.value) + rest;
    ValueReadsBack(f.value, rest);
  }

  /** Reading the bytes of a field list applies exactly those fields. */
  lemma {:induction false} DecodeEmitted<M>(apply: Decoder<M>, m: M, fields: seq<Field>)
    requires AllEmittable(fields)
    ensures DecodeWith(apply, m, Emit(fields)) == ApplyAll(apply, m, fields)
    decreases |fields|
  {
    if fields != [] {
      var f := fields[0];
      var rest := Emit(fields[1..]);
      FieldReadsBack(f, rest);
      assert Emit(fields)[|EmitField(f)|..] == rest;
      match apply(m, f) {
        case Ok(m') => DecodeEmitted(apply, m', fields[1..]);
        case Err(_) =>
      }
    }
  }

  // ----- Field lists -----

  lemma {:induction false} ApplyAppend<M>(apply: Decoder<M>, m: M, a: seq<Field>, b: seq<Field>)
    ensures ApplyAll(apply, m, a + b)
         == Continue(apply, ApplyAll(apply, m, a), b)
    decreases |a|
  {
    if a == [] {
      assert a + b == b;
    } else {
      assert (a + b)[1..] == a[1..] + b;
      match apply(m, a[0]) {
        case Ok(m') => ApplyAppend(apply, m', a[1..], b);
        case Err(_) =>
      }
    }
  }

  lemma {:induction false} EmitAppend(a: seq<Field>, b: seq<Field>)
    ensures Emit(a + b) == Emit(a) + Emit(b)
  {
    if a == [] {
      assert a + b == b;
    } else {
      assert (a + b)[1..] == a[1..] + b;
      EmitAppend(a[1..], b);
    }
  }

  // Reading one scalar takes `m` to `m'`; one that is zero is not there to read.
  ghost predicate Sets<M>(apply: Decoder<M>, m: M, m': M, number: u64, v: u64) {
    && 0 < number < 16
    && if v == 0 then m' == m else apply(m, Field(number, Varint(v))) == Ok(m')
  }

  /** Reading consecutive scalars takes the message through `states`. */
  lemma {:induction false} ScalarsReadBack<M>(apply: Decoder<M>, states: seq<M>, scalars: seq<(u64, u64)>)
    requires |states| == |scalars| + 1
    requires forall i :: 0 <= i < |scalars| ==> Sets(apply, states[i], states[i + 1], scalars[i].0, scalars[i].1)
    ensures ApplyAll(apply, states[0], Scalars(scalars)) == Ok(states[|scalars|])
    ensures AllEmittable(Scalars(scalars))
  {
    if scalars != [] {
      var (number, v) := scalars[0];
      var rest := Scalars(scalars[1..]);
      ScalarsReadBack(apply, states[1..], scalars[1..]);
      assert Sets(apply, states[0], states[1], number, v);
      if v == 0 {
        assert Scalars(scalars) == rest;
      } else {
        assert Scalars(scalars)[1..] == rest;
      }
    }
  }

  /** A message of scalars reads back; it is empty exactly when its first state is its last. */
  lemma ScalarMessage<M>(apply: Decoder<M>, states: seq<M>, scalars: seq<(u64, u64)>)
    requires |states| == |scalars| + 1
    requires forall i :: 0 <= i < |scalars| ==> Sets(apply, states[i], states[i + 1], scalars[i].0, scalars[i].1)
    ensures DecodeWith(apply, states[0], Emit(Scalars(scalars))) == Ok(states[|scalars|])
  {
    ScalarsReadBack(apply, states, scalars);
    DecodeEmitted(apply, states[0], Scalars(scalars));
  }

  lemma {:induction false} NoScalars(scalars: seq<(u64, u64)>)
    requires forall i :: 0 <= i < |scalars| ==> scalars[i].1 == 0
    ensures Scalars(scalars) == []
  {
    if scalars != [] {
      NoScalars(scalars[1..]);
    }
  }

  /** Reading a scalar takes `m` to `m'`. */
  lemma ApplyScalar<M>(apply: Decoder<M>, m: M, m': M, number: u64, v: u64, rest: seq<Field>)
    requires Sets(apply, m, m', number, v)
    ensures ApplyAll(apply, m, Scalar(number, v) + rest) == ApplyAll(apply, m', rest)
  {
    if v == 0 {
      assert Scalar(number, v) + rest == rest;
    } else {
      assert (Scalar(number, v) + rest)[1..] == rest;
    }
  }

  lemma ApplyOne<M>(apply: Decoder<M>, m: M, m': M, f: Field, rest: seq<Field>)
    requires apply(m, f) == Ok(m')
    ensures ApplyAll(apply, m, [f] + rest) == ApplyAll(apply, m', rest)
  {
    assert ([f] + rest)[1..] == rest;
  }

  /** Reading a length-delimited value takes `m` to `m'`; one that is empty is not there to read. */
  lemma ApplyDelimited<M>(apply: Decoder<M>, m: M, m': M, number: u64, bytes: seq<u8>, rest: seq<Field>)
    requires if bytes == [] then m' == m else apply(m, Field(number, Bytes(bytes))) == Ok(m')
    ensures ApplyAll(apply, m, Delimited(number, bytes) + rest) == ApplyAll(apply, m', rest)
  {
    if bytes == [] {
      assert Delimited(number, bytes) + rest == rest;
    } else {
      assert (Delimited(number, bytes) + rest)[1..] == rest;
    }
  }

  /** One encoded item of a repeated field: nothing, or a field that appends what `kept` makes of it. */
  ghost predicate PutsItem<M, T>(apply: Decoder<M>, number: u64, encode: T -> seq<u8>,
                                 kept: T -> Option<T>, put: (M, seq<T>) -> M, m: M, x: T)
  {
    match kept(x)
    case None => encode(x) == []
    case Some(y) => encode(x) != [] && apply(m, Field(number, Bytes(encode(x)))) == Ok(put(m, [y]))
  }

  /** `put` appends decoded items to a message. */
  ghost predicate Appends<M(!new), T(!new)>(put: (M, seq<T>) -> M) {
    && (forall m: M :: put(m, []) == m)
    && (forall m: M, a: seq<T>, b: seq<T> :: put(put(m, a), b) == put(m, a + b))
  }

  /** Reading a repeated field appends the items that encode to something, each as `kept` has it. */
  lemma {:induction false} ApplyRepeated<M(!new), T(!new)>(
      apply: Decoder<M>, m: M, number: u64, items: seq<T>, encode: T -> seq<u8>,
      kept: T -> Option<T>, put: (M, seq<T>) -> M, rest: seq<Field>)
    requires Appends(put)
    requires forall t: M, x: T :: x in items ==> PutsItem(apply, number, encode, kept, put, t, x)
    ensures ApplyAll(apply, m, Repeated(number, items, encode) + rest)
         == ApplyAll(apply, put(m, Keep(items, kept)), rest)
    decreases |items|
  {
    if items == [] {
      assert Repeated(number, items, encode) + rest == rest;
    } else {
      var tail := Repeated(number, items[1..], encode) + rest;
      assert Repeated(number, items, encode) + rest == Delimited(number, encode(items[0])) + tail;
      assert PutsItem(apply, number, encode, kept, put, m, items[0]);
      match kept(items[0]) {
        case None =>
          ApplyDelimited(apply, m, m, number, encode(items[0]), tail);
          ApplyRepeated(apply, m, number, items[1..], encode, kept, put, rest);
        case Some(y) =>
          ApplyDelimited(apply, m, put(m, [y]), number, encode(items[0]), tail);
          var ys := Keep(items[1..], kept);
          assert put(put(m, [y]), ys) == put(m, [y] + ys) == put(m, Keep(items, kept));
          ApplyRepeated(apply, put(m, [y]), number, items[1..], encode, kept, put, rest);
      }
    }
  }

  // Fields with a number and a value that the writers produce.
  ghost predicate Written(fields: seq<Field>) {
    forall i :: 0 <= i < |fields| ==>
      0 < fields[i].number < 16 && (fields[i].value.Varint? || fields[i].value.Bytes?)
  }

  lemma {:induction false} ScalarsWritten(scalars: seq<(u64, u64)>)
    requires forall i :: 0 <= i < |scalars| ==> 0 < scalars[i].0 < 16
    ensures Written(Scalars(scalars))
  {
    if scalars != [] {
      ScalarsWritten(scalars[1..]);
    }
  }

  lemma WrittenAppend(a: seq<Field>, b: seq<Field>)
    requires Written(a) && Written(b)
    ensures Written(a + b)
  {
  }

  /** What fits in a slice as a whole fits in its parts. */
  lemma {:induction false} WrittenFits(fields: seq<Field>)
    requires Written(fields) && |Emit(fields)| <= I64_MAX
    ensures AllEmittable(fields)
  {
    if fields != [] {
      assert fields[1..] + [] == fields[1..];
      WrittenFits(fields[1..]);
      assert Emittable(fields[0]);
      assert forall i :: 0 < i < |fields| ==> fields[i] == fields[1..][i - 1];
    }
  }

  lemma {:induction false} RepeatedWritten<T>(number: u64, items: seq<T>, encode: T -> seq<u8>)
    requires 0 < number < 16
    ensures Written(Repeated(number, items, encode))
  {
    if items != [] {
      RepeatedWritten(number, items[1..], encode);
    }
  }

  lemma {:induction false} RepeatedCovers<T>(number: u64, items: seq<T>, encode: T -> seq<u8>)
    ensures forall x :: x in items ==> |encode(x)| <= |Emit(Repeated(number, items, encode))|
  {
    if items != [] {
      RepeatedCovers(number, items[1..], encode);
      EmitAppend(Delimited(number, encode(items[0])), Repeated(number, items[1..], encode));
      if encode(items[0]) != [] {
        assert |Emit(Delimited(number, encode(items[0])))| >= |EmitField(Field(number, Bytes(encode(items[0]))))|;
      }
    }
  }

  lemma {:induction false} RepeatedEmpty<T>(number: u64, items: seq<T>, encode: T -> seq<u8>, kept: T -> Option<T>)
    requires forall x :: x in items && kept(x).None? ==> encode(x) == []
    requires Keep(items, kept) == []
    ensures Repeated(number, items, encode) == []
  {
    if items != [] {
      RepeatedEmpty(number, items[1..], encode, kept);
    }
  }

  /** Dropping what encodes to nothing, and replacing items by ones that encode alike, changes no byte. */
  lemma {:induction false} RepeatedKeep<T>(number: u64, items: seq<T>, encode: T -> seq<u8>, kept: T -> Option<T>)
    requires forall x :: x in items ==> encode(x) == (match kept(x) case None => [] case Some(y) => encode(y))
    ensures Repeated(number, Keep(items, kept), encode) == Repeated(number, items, encode)
  {
    if items != [] {
      RepeatedKeep(number, items[1..], encode, kept);
      match kept(items[0]) {
        case None =>
        case Some(y) =>
          assert Keep(items, kept)[1..] == Keep(items[1..], kept);
      }
    }
  }

  // ----- Concatenated inputs -----

  lemma {:induction false} VarintPrefix(a: seq<u8>, b: seq<u8>, k: nat)
    requires k <= 9 && TakeVarintFrom(a, k).Ok?
    ensures TakeVarintFrom(a + b, k) == TakeVarintFrom(a, k)
    decreases 9 - k
  {
    if a[0] >= 128 {
      assert (a + b)[1..] == a[1..] + b;
      VarintPrefix(a[1..], b, k + 1);
    }
  }

  lemma DelimitedPrefix(a: seq<u8>, b: seq<u8>)
    requires TakeValue(2, a).Ok?
    ensures TakeValue(2, a + b) == TakeValue(2, a)
  {
    VarintPrefix(a, b, 0);
    var v := TakeVarint(a).value;
    var rest := a[v.length..];
    assert (a + b)[v.length..] == rest + b;
    assert (rest + b)[..v.item] == rest[..v.item];
  }

  lemma ValuePrefix(wire: int, a: seq<u8>, b: seq<u8>)
    requires TakeValue(wire, a).Ok?
    ensures TakeValue(wire, a + b) == TakeValue(wire, a)
  {
    match wire {
      case 0 => VarintPrefix(a, b, 0);
      case 2 => DelimitedPrefix(a, b);
      case _ =>
    }
  }

  lemma FieldPrefix(a: seq<u8>, b: seq<u8>)
    requires TakeField(a).Ok?
    ensures TakeField(a + b) == TakeField(a)
  {
    VarintPrefix(a, b, 0);
    var tag := TakeVarint(a).value;
    assert (a + b)[tag.length..] == a[tag.length..] + b;
    ValuePrefix(tag.item % 8, a[tag.length..], b);
  }

  /** Decoding one input after the other is decoding the second into the first's message. */
  lemma {:induction false} DecodeAppend<M>(apply: Decoder<M>, m: M, a: seq<u8>, b: seq<u8>)
    requires DecodeWith(apply, m, a).Ok?
    ensures DecodeWith(apply, m, a + b) == DecodeWith(apply, DecodeWith(apply, m, a).value, b)
    decreases |a|
  {
    if a == [] {
      assert a + b == b;
    } else {
      FieldPrefix(a, b);
      var step := TakeField(a).value;
      assert (a + b)[step.length..] == a[step.length..] + b;
      DecodeAppend(apply, apply(m, step.item).value, a[step.length..], b);
    }
  }

  // ----- The writers and readers -----

  /** The `Vec<u8>` that the encoders append to. */
  class ByteBuffer {
    var bytes: seq<u8>

    constructor ()
      ensures bytes == []
    {
      bytes := [];
    }
  }

  method EncodeVarint(buf: ByteBuffer, value: u64)
    modifies buf
    ensures buf.bytes == old(buf.bytes) + VarintBytes(value)
  {
    var v := value;
    while v >= 128
      invariant 0 <= v <= value
      invariant buf.bytes + VarintBytes(v) == old(buf.bytes) + VarintBytes(value)
    {
      ghost var before := buf.bytes;
      buf.bytes := buf.bytes + [v % 128 + 128];
      assert before + VarintBytes(v) == buf.bytes + VarintBytes(v / 128);
      v := v / 128;
    }
    buf.bytes := buf.bytes + [v];
  }

  method EncodeVarintField(buf: ByteBuffer, number: u64, value: u64)
    requires 0 < number < 16
    modifies buf
    ensures buf.bytes == old(buf.bytes) + Emit(Scalar(number, value))
  {
    if value == 0 {
      return;
    }
    buf.bytes := buf.bytes + [number * 8];
    EncodeVarint(buf, value);
    EmitOne(Field(number, Varint(value)));
  }

  lemma EmitOne(f: Field)
    requires 0 < f.number < 16 && (f.value.Varint? || f.value.Bytes?)
    ensures Emit([f]) == [f.number * 8 + WireType(f.value)] + ValueBytes(f.value)
  {
    assert [f][1..] == [];
    assert EmitField(f) + [] == EmitField(f);
  }

  method EncodeBytesField(buf: ByteBuffer, number: u64, data: seq<u8>)
    requires 0 < number < 16
    modifies buf
    ensures buf.bytes == old(buf.bytes) + Emit([Field(number, Bytes(data))])
  {
    buf.bytes := buf.bytes + [number * 8 + 2];
    EncodeVarint(buf, |data| % U64_SIZE);
    buf.bytes := buf.bytes + data;
    EmitOne(Field(number, Bytes(data)));
  }

  method EncodeLengthDelimited(buf: ByteBuffer, number: u64, data: seq<u8>)
    requires 0 < number < 16
    modifies buf
    ensures buf.bytes == old(buf.bytes) + Emit(Delimited(number, data))
  {
    if data == [] {
      return;
    }
    EncodeBytesField(buf, number, data);
  }

  method PackVarints(values: seq<u64>) returns (packed: seq<u8>)
    ensures packed == PackedBytes(values)
  {
    var inner := new ByteBuffer();
    for i := 0 to |values|
      invariant fresh(inner)
      invariant inner.bytes + PackedBytes(values[i..]) == PackedBytes(values)
    {
      ghost var before := inner.bytes;
      EncodeVarint(inner, values[i]);
      assert before + PackedBytes(values[i..]) == inner.bytes + PackedBytes(values[i + 1..]);
    }
    packed := inner.bytes;
  }

  method EncodePacked(buf: ByteBuffer, number: u64, values: seq<u64>)
    requires 0 < number < 16
    modifies buf
    ensures buf.bytes == old(buf.bytes) + Emit(Delimited(number, PackedBytes(values)))
  {
    var inner := PackVarints(values);
    EncodeLengthDelimited(buf, number, inner);
  }

  // Writing `first` and then `rest` is writing `all`.
  lemma EmitStep(before: seq<u8>, first: seq<Field>, rest: seq<Field>, all: seq<Field>)
    requires all == first + rest
    ensures before + Emit(all) == (before + Emit(first)) + Emit(rest)
  {
    EmitAppend(first, rest);
    SeqAssociates(before, Emit(first), Emit(rest));
  }

  lemma SeqAssociates<T>(a: seq<T>, b: seq<T>, c: seq<T>)
    ensures a + (b + c) == (a + b) + c
  {
  }

  lemma ScalarsSplit(scalars: seq<(u64, u64)>, i: nat)
    requires i < |scalars|
    ensures Scalars(scalars[i..]) == Scalar(scalars[i].0, scalars[i].1) + Scalars(scalars[i + 1..])
  {
    assert scalars[i..][1..] == scalars[i + 1..];
  }

  lemma RepeatedSplit<T>(number: u64, items: seq<T>, encode: T -> seq<u8>, i: nat)
    requires i < |items|
    ensures Repeated(number, items[i..], encode)
         == Delimited(number, encode(items[i])) + Repeated(number, items[i + 1..], encode)
  {
    assert items[i..][1..] == items[i + 1..];
  }

  /** Consecutive scalar fields. */
  method EncodeScalars(buf: ByteBuffer, scalars: seq<(u64, u64)>)
    requires forall i :: 0 <= i < |scalars| ==> 0 < scalars[i].0 < 16
    modifies buf
    ensures buf.bytes == old(buf.bytes) + Emit(Scalars(scalars))
  {
    for i := 0 to |scalars|
      invariant buf.bytes + Emit(Scalars(scalars[i..])) == old(buf.bytes) + Emit(Scalars(scalars))
    {
      ghost var before := buf.bytes;
      EncodeVarintField(buf, scalars[i].0, scalars[i].1);
      ScalarsSplit(scalars, i);
      EmitStep(before, Scalar(scalars[i].0, scalars[i].1), Scalars(scalars[i + 1..]), Scalars(scalars[i..]));
    }
  }

  /** A repeated submessage: each item in a buffer of its own, then length-delimited. */
  method EncodeRepeated<T>(buf: ByteBuffer, number: u64, items: seq<T>, encode: T -> seq<u8>)
    requires 0 < number < 16
    modifies buf
    ensures buf.bytes == old(buf.bytes) + Emit(Repeated(number, items, encode))
  {
    for i := 0 to |items|
      invariant buf.bytes + Emit(Repeated(number, items[i..], encode))
             == old(buf.bytes) + Emit(Repeated(number, items, encode))
    {
      ghost var before := buf.bytes;
      var inner := encode(items[i]);
      EncodeLengthDelimited(buf, number, inner);
      RepeatedSplit(number, items, encode, i);
      EmitStep(before, Delimited(number, inner), Repeated(number, items[i + 1..], encode),
               Repeated(number, items[i..], encode));
    }
  }

  function Shifted(k: nat): (p: int)
    ensures p > 0
  {
    if k == 0 then 1 else 128 * Shifted(k - 1)
  }

  // What a whole varint is when `k` of its bytes gave `value` and the others give `rest`.
  function Resumed(value: int, k: nat, rest: Result<Taken<u64>, WireError>): Result<Taken<int>, WireError> {
    var t :- rest;
    Ok(Taken(value + Shifted(k) * t.item, k + t.length))
  }

  lemma ResumeStep(value: int, k: nat, data: seq<u8>)
    requires k < 9 && data != [] && data[0] >= 128
    ensures Resumed(value, k, TakeVarintFrom(data, k))
         == Resumed(value + Shifted(k) * (data[0] % 128), k + 1, TakeVarintFrom(data[1..], k + 1))
  {
    var rest := TakeVarintFrom(data[1..], k + 1);
    if rest.Ok? {
      var p, low, x := Shifted(k), data[0] % 128, rest.value.item;
      assert p * (low + 128 * x) == p * low + (128 * p) * x;
    }
  }

  lemma ResumeFinish(value: int, k: nat, data: seq<u8>)
    requires k <= 9 && data != [] && data[0] < 128 && !(k == 9 && data[0] > 1)
    ensures Resumed(value, k, TakeVarintFrom(data, k)) == Ok(Taken(value + Shifted(k) * data[0], k + 1))
  {
  }

  lemma ResumeStart(whole: Result<Taken<u64>, WireError>)
    ensures Resumed(0, 0, whole) == (match whole case Ok(t) => Ok(Taken(t.item as int, t.length)) case Err(e) => Err(e))
  {
  }

  /** `read_varint`: ten bytes at most, seven bits each.  The bits a byte adds are new, so the source's
      `|=` is an addition. */
  method ReadVarint(data: seq<u8>, offset: nat) returns (r: Result<u64, WireError>, end: nat)
    requires offset <= |data|
    ensures offset <= end <= |data|
    ensures r == (match TakeVarint(data[offset..]) case Ok(t) => Ok(t.item) case Err(e) => Err(e))
    ensures r.Ok? ==> end == offset + TakeVarint(data[offset..]).value.length
  {
    ghost var whole := TakeVarint(data[offset..]);
    ResumeStart(whole);
    var value: int := 0;
    var shifted: int := 1;
    end := offset;
    for k := 0 to 10
      invariant end == offset + k <= |data|
      invariant shifted == Shifted(k)
      invariant k < 10
      invariant Resumed(0, 0, whole) == Resumed(value, k, TakeVarintFrom(data[end..], k))
    {
      if end == |data| {
        return Err(Truncated), end;
      }
      var byte: int := data[end];
      ghost var here := data[end..];
      end := end + 1;
      if k == 9 && byte > 1 {
        return Err(VarintOverflow), end;
      }
      if byte < 128 {
        ResumeFinish(value, k, here);
        return Ok(value + shifted * byte), end;
      }
      ResumeStep(value, k, here);
      assert here[1..] == data[end..];
      value := value + shifted * (byte % 128);
      shifted := shifted * 128;
    }
    return Err(VarintOverflow), end;
  }

  /** The field iterator. */
  class Fields {
    const data: seq<u8>
    var offset: nat

    ghost predicate Valid()
      reads this
    {
      offset <= |data|
    }

    constructor (data: seq<u8>)
      ensures Valid() && this.data == data && offset == 0
    {
      this.data := data;
      offset := 0;
    }

    method Take(length: nat) returns (r: Result<seq<u8>, WireError>)
      requires Valid()
      modifies this
      ensures Valid()
      ensures r == TakeBytes(data[old(offset)..], length)
      ensures offset == if r.Ok? then old(offset) + length else old(offset)
    {
      if offset + length > |data| {
        return Err(Truncated);
      }
      r := Ok(data[offset..offset + length]);
      assert data[offset..offset + length] == data[offset..][..length];
      offset := offset + length;
    }

    // The value of a field, by its wire type.
    method NextValue(wire: int) returns (r: Result<FieldValue, WireError>)
      requires Valid()
      modifies this
      ensures Valid()
      ensures match TakeValue(wire, data[old(offset)..])
              case Ok(v) => r == Ok(v.item) && offset == old(offset) + v.length
              case Err(e) => r == Err(e)
    {
      match wire {
        case 0 =>
          var v, stop := ReadVarint(data, offset);
          offset := stop;
          return if v.Ok? then Ok(Varint(v.value)) else Err(v.error);
        case 1 =>
          var skipped := Take(8);
          return if skipped.Ok? then Ok(Fixed64) else Err(skipped.error);
        case 2 =>
          var length, stop := ReadVarint(data, offset);
          if length.Err? {
            return Err(length.error);
          }
          assert data[offset..][stop - offset..] == data[stop..];
          offset := stop;
          var bytes := Take(length.value);
          return if bytes.Ok? then Ok(Bytes(bytes.value)) else Err(bytes.error);
        case 5 =>
          var skipped := Take(4);
          return if skipped.Ok? then Ok(Fixed32) else Err(skipped.error);
        case _ =>
          return Err(UnsupportedWireType);
      }
    }

    /** Strictly advances and never passes the end. */
    method Next() returns (r: Result<Option<Field>, WireError>)
      requires Valid()
      modifies this
      ensures Valid()
      ensures old(offset) == |data| ==> r == Ok(None) && offset == old(offset)
      ensures old(offset) < |data| ==>
        match TakeField(data[old(offset)..])
        case Ok(step) => r == Ok(Some(step.item)) && offset == old(offset) + step.length > old(offset)
        case Err(e) => r == Err(e)
    {
      if offset == |data| {
        return Ok(None);
      }
      var tag, end := ReadVarint(data, offset);
      if tag.Err? {
        return Err(tag.error);
      }
      assert data[offset..][end - offset..] == data[end..];
      offset := end;
      var number := tag.value / 8;
      if number == 0 {
        return Err(FieldNumberZero);
      }
      var value := NextValue(tag.value % 8);
      if value.Err? {
        return Err(value.error);
      }
      r := Ok(Some(Field(number, value.value)));
    }
  }

  lemma DecodeStep<M>(apply: Decoder<M>, m: M, data: seq<u8>)
    ensures data == [] ==> DecodeWith(apply, m, data) == Ok(m)
    ensures data != [] && TakeField(data).Err? ==> DecodeWith(apply, m, data) == Err(TakeField(data).error)
    ensures data != [] && TakeField(data).Ok? ==>
      var step := TakeField(data).value;
      var applied := apply(m, step.item);
      && (applied.Err? ==> DecodeWith(apply, m, data) == Err(applied.error))
      && (applied.Ok? ==> DecodeWith(apply, m, data) == DecodeWith(apply, applied.value, data[step.length..]))
  {
    hide TakeField;
  }

  /** Every decoder's loop, over the fields as they are read. */
  method DecodeMessage<M>(apply: Decoder<M>, start: M, data: seq<u8>) returns (r: Result<M, WireError>)
    ensures r == DecodeWith(apply, start, data)
  {
    hide TakeField, DecodeWith;
    assert data[0..] == data;
    var m := start;
    var fields := new Fields(data);
    while true
      invariant fields.Valid() && fields.data == data && fresh(fields)
      invariant DecodeWith(apply, m, data[fields.offset..]) == DecodeWith(apply, start, data)
      decreases |data| - fields.offset
    {
      ghost var here := fields.offset;
      DecodeStep(apply, m, data[here..]);
      var next := fields.Next();
      match next {
        case Err(e) => return Err(e);
        case Ok(None) => return Ok(m);
        case Ok(Some(field)) =>
          assert data[here..][fields.offset - here..] == data[fields.offset..];
          var applied := apply(m, field);
          if applied.Err? {
            return Err(applied.error);
          }
          m := applied.value;
      }
    }
  }

  // The whole list when `values` were read and `rest` is what the other bytes give.
  function Prepended(values: seq<u64>, rest: Result<seq<u64>, WireError>): Result<seq<u64>, WireError> {
    var vs :- rest;
    Ok(values + vs)
  }

  lemma PackedStep(values: seq<u64>, data: seq<u8>)
    requires data != [] && TakeVarint(data).Ok?
    ensures var v := TakeVarint(data).value;
      Prepended(values, TakePacked(data)) == Prepended(values + [v.item], TakePacked(data[v.length..]))
  {
    var v := TakeVarint(data).value;
    var rest := TakePacked(data[v.length..]);
    if rest.Ok? {
      assert values + ([v.item] + rest.value) == values + [v.item] + rest.value;
    }
  }

  lemma PackedStart(data: seq<u8>)
    ensures Prepended([], TakePacked(data[0..])) == TakePacked(data)
  {
    assert data[0..] == data;
    if TakePacked(data).Ok? {
      assert [] + TakePacked(data).value == TakePacked(data).value;
    }
  }

  method DecodePacked(data: seq<u8>) returns (r: Result<seq<u64>, WireError>)
    ensures r == TakePacked(data)
  {
    var values: seq<u64> := [];
    var offset := 0;
    PackedStart(data);
    while offset < |data|
      invariant offset <= |data|
      invariant Prepended(values, TakePacked(data[offset..])) == TakePacked(data)
    {
      ghost var here := data[offset..];
      var v, end := ReadVarint(data, offset);
      if v.Err? {
        return Err(v.error);
      }
      PackedStep(values, here);
      assert here[end - offset..] == data[end..];
      values := values + [v.value];
      offset := end;
    }
    assert values + [] == values;
    return Ok(values);
  }
}
