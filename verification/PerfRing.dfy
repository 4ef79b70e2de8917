/** The reader of the kernel's perf ring of `src/sampler/linux.rs`: the kernel writes whole records behind
    one another into a ring of bytes, and the reader takes out what lies between its tail and the kernel's
    head.  Words are little-endian, as on every machine the profiler supports. */
module PerfRing {
  import opened Prelude
  import opened Words

  const RECORD_SAMPLE: int := 9
  const CONTEXT_MARKER_MIN: int := U64_SIZE - 4096
  const MAX_FRAMES: int := 4096

  datatype PerfSample = PerfSample(threadId: int, stack: seq<u64>)

  // ----- Sample records -----

  // Addresses, without zeros and the markers that say kernel or user.
  function Addresses(frames: seq<u64>): seq<u64> {
    if frames == [] then []
    else
      var last := frames[|frames| - 1];
      Addresses(frames[..|frames| - 1]) + if last != 0 && last < CONTEXT_MARKER_MIN then [last] else []
  }

  // The instruction pointer leads the stack, and not twice.
  function WithPointer(stack: seq<u64>, pointer: u64): seq<u64> {
    if pointer != 0 && (stack == [] || stack[0] != pointer) then [pointer] + stack else stack
  }

  /** The positions of the addresses: rising, and exactly those of a value that is neither zero nor one of the
      markers in the last page of the address space. */
  ghost predicate AddressesAt(frames: seq<u64>, at: seq<nat>) {
    && (forall k, m :: 0 <= k < m < |at| ==> at[k] < at[m])
    && (forall i: nat :: i in at <==> i < |frames| && 0 < frames[i] < 0xFFFF_FFFF_FFFF_F000)
  }

  /** The stack is the addresses of the chain in their order; the instruction pointer stands in front exactly if it
      is there and not already the first of them. */
  ghost predicate CallChain(stack: seq<u64>, pointer: u64, frames: seq<u64>, at: seq<nat>) {
    && AddressesAt(frames, at)
    && (forall k :: 0 <= k < |at| ==> at[k] < |frames|)
    && var lead := if pointer == 0 || (at != [] && frames[at[0]] == pointer) then 0 else 1;
      && |stack| == lead + |at|
      && (lead == 1 ==> stack[0] == pointer)
      && forall k :: 0 <= k < |at| ==> stack[lead + k] == frames[at[k]]
  }

  ghost predicate IsCallChain(stack: seq<u64>, pointer: u64, frames: seq<u64>) {
    exists at :: CallChain(stack, pointer, frames, at)
  }

  // The addresses stand at these positions.
  ghost predicate StandAt(stack: seq<u64>, frames: seq<u64>, at: seq<nat>) {
    |stack| == |at| && forall k :: 0 <= k < |at| ==> at[k] < |frames| && stack[k] == frames[at[k]]
  }

  lemma {:induction false} AddressesPlaced(frames: seq<u64>) returns (at: seq<nat>)
    ensures AddressesAt(frames, at) && StandAt(Addresses(frames), frames, at)
  {
    if frames == [] {
      at := [];
    } else {
      hide AddressesAt, StandAt;
      var n := |frames| - 1;
      var before := AddressesPlaced(frames[..n]);
      AddressesNext(frames, before);
      StandNext(Addresses(frames[..n]), frames, before);
      at := before + if 0 < frames[n] < 0xFFFF_FFFF_FFFF_F000 then [n] else [];
    }
  }

  lemma AddressesNext(frames: seq<u64>, at: seq<nat>)
    requires frames != [] && AddressesAt(frames[..|frames| - 1], at)
    ensures AddressesAt(frames, at + if 0 < frames[|frames| - 1] < 0xFFFF_FFFF_FFFF_F000 then [|frames| - 1] else [])
  {
    var n := |frames| - 1;
    var here: seq<nat> := if 0 < frames[n] < 0xFFFF_FFFF_FFFF_F000 then [n] else [];
    forall k | 0 <= k < |at| ensures at[k] < n {
      assert at[k] in at;
    }
    forall i: nat ensures i in at + here <==> i < |frames| && 0 < frames[i] < 0xFFFF_FFFF_FFFF_F000 {
      assert i < n ==> frames[..n][i] == frames[i];
      assert i in at + here <==> i in at || i in here;
    }
  }

  lemma StandNext(stack: seq<u64>, frames: seq<u64>, at: seq<nat>)
    requires frames != [] && StandAt(stack, frames[..|frames| - 1], at)
    ensures StandAt(stack + [frames[|frames| - 1]], frames, at + [|frames| - 1])
    ensures StandAt(stack + [], frames, at + [])
  {
    var n := |frames| - 1;
    forall k | 0 <= k < |at| ensures at[k] < n && stack[k] == frames[at[k]] {
      assert frames[..n][at[k]] == frames[at[k]];
    }
    assert stack + [] == stack && at + [] == at;
  }

  lemma StackIsCallChain(frames: seq<u64>, pointer: u64)
    ensures IsCallChain(WithPointer(Addresses(frames), pointer), pointer, frames)
  {
    hide Addresses, AddressesAt;
    var at := AddressesPlaced(frames);
    assert CallChain(WithPointer(Addresses(frames), pointer), pointer, frames, at);
  }

  function FrameWords(record: seq<u8>, n: nat): (frames: seq<u64>)
    requires 32 + 8 * n <= |record|
    ensures |frames| == n
  {
    seq(n, i requires 0 <= i < n => Word(record, 32 + 8 * i))
  }

  /** `parse_perf_sample`. */
  function ParseSample(record: seq<u8>): Option<PerfSample> {
    if |record| < 32 then None
    else
      var count := Word(record, 24);
      if count > MAX_FRAMES || |record| < 32 + 8 * count then None
      else Some(PerfSample(Half(record, 20), WithPointer(Addresses(FrameWords(record, count)), Word(record, 8))))
  }

  // `take_u64` and `take_u32`: nothing past the end.
  method TakeU64(bytes: seq<u8>, offset: nat) returns (v: Option<u64>, next: nat)
    ensures offset + 8 <= |bytes| ==> v == Some(Word(bytes, offset)) && next == offset + 8
    ensures offset + 8 > |bytes| ==> v == None && next == offset
  {
    if offset + 8 > |bytes| {
      return None, offset;
    }
    return Some(Word(bytes, offset)), offset + 8;
  }

  method TakeU32(bytes: seq<u8>, offset: nat) returns (v: Option<int>, next: nat)
    ensures offset + 4 <= |bytes| ==> v == Some(Half(bytes, offset)) && next == offset + 4
    ensures offset + 4 > |bytes| ==> v == None && next == offset
  {
    if offset + 4 > |bytes| {
      return None, offset;
    }
    return Some(Half(bytes, offset)), offset + 4;
  }

  method ParsePerfSample(record: seq<u8>) returns (r: Option<PerfSample>)
    ensures r == ParseSample(record)
    ensures r.Some? <==> |record| >= 32 && Word(record, 24) <= 4096 && |record| >= 32 + 8 * Word(record, 24)
    ensures r.Some? ==>
      && r.value.threadId == Half(record, 20)
      && IsCallChain(r.value.stack, Word(record, 8), FrameWords(record, Word(record, 24)))
  {
    hide Word, Half, IsCallChain;
    var offset := 8;
    var pointer: Option<u64>, count: Option<u64>, process: Option<int>, thread: Option<int>;
    pointer, offset := TakeU64(record, offset);
    if pointer.None? {
      return None;
    }
    process, offset := TakeU32(record, offset);
    if process.None? {
      return None;
    }
    thread, offset := TakeU32(record, offset);
    if thread.None? {
      return None;
    }
    count, offset := TakeU64(record, offset);
    if count.None? || count.value > MAX_FRAMES {
      return None;
    }
    var stack: seq<u64> := [];
    for i := 0 to count.value
      invariant offset == 32 + 8 * i <= |record|
      invariant stack == Addresses(FrameWords(record, i))
    {
      var address: Option<u64>;
      address, offset := TakeU64(record, offset);
      if address.None? {
        return None;
      }
      assert FrameWords(record, i + 1)[..i] == FrameWords(record, i);
      if address.value != 0 && address.value < CONTEXT_MARKER_MIN {
        stack := stack + [address.value];
      }
    }
    if pointer.value != 0 && (stack == [] || stack[0] != pointer.value) {
      stack := [pointer.value] + stack;
    }
    StackIsCallChain(FrameWords(record, count.value), pointer.value);
    r := Some(PerfSample(thread.value, stack));
  }

  /** A sample record as the kernel lays it out: header, instruction pointer, process and thread, then the
      number of frames and the frames. */
  function SampleBytes(header: seq<u8>, pointer: u64, process: nat, thread: nat, frames: seq<u64>,
                       rest: seq<u8>): (b: seq<u8>)
    requires |header| == 8 && process < 0x1_0000_0000 && thread < 0x1_0000_0000 && |frames| < U64_SIZE
  {
    header + ToLe(pointer, 8) + (ToLe(process, 4) + ToLe(thread, 4)) + ToLe(|frames|, 8) + WordsBytes(frames) + rest
  }

  lemma HalfReadsBack(before: seq<u8>, v: nat, after: seq<u8>)
    requires v < 0x1_0000_0000
    ensures Half(before + ToLe(v, 4) + after, |before|) == v
  {
    Widths();
    LeRoundTrip(v, 4);
    assert (before + ToLe(v, 4) + after)[|before|..|before| + 4] == ToLe(v, 4);
  }

  lemma FixedFieldsReadBack(header: seq<u8>, pointer: u64, process: nat, thread: nat, frames: seq<u64>, rest: seq<u8>)
    requires |header| == 8 && process < 0x1_0000_0000 && thread < 0x1_0000_0000 && |frames| < U64_SIZE
    ensures var b := SampleBytes(header, pointer, process, thread, frames, rest);
      |b| == 32 + 8 * |frames| + |rest| && Word(b, 8) == pointer && Half(b, 20) == thread && Word(b, 24) == |frames|
  {
    hide ToLe, FromLe, Word, Half;
    var b := SampleBytes(header, pointer, process, thread, frames, rest);
    var words := WordsBytes(frames);
    WordReadsBack(header, pointer, ToLe(process, 4) + ToLe(thread, 4) + ToLe(|frames|, 8) + words + rest);
    assert b == header + ToLe(pointer, 8) + (ToLe(process, 4) + ToLe(thread, 4) + ToLe(|frames|, 8) + words + rest);
    HalfReadsBack(header + ToLe(pointer, 8) + ToLe(process, 4), thread, ToLe(|frames|, 8) + words + rest);
    assert b == (header + ToLe(pointer, 8) + ToLe(process, 4)) + ToLe(thread, 4) + (ToLe(|frames|, 8) + words + rest);
    WordReadsBack(header + ToLe(pointer, 8) + (ToLe(process, 4) + ToLe(thread, 4)), |frames|, words + rest);
    assert b == (header + ToLe(pointer, 8) + (ToLe(process, 4) + ToLe(thread, 4))) + ToLe(|frames|, 8) + (words + rest);
  }

  lemma FramesReadBack(header: seq<u8>, pointer: u64, process: nat, thread: nat, frames: seq<u64>, rest: seq<u8>)
    requires |header| == 8 && process < 0x1_0000_0000 && thread < 0x1_0000_0000 && |frames| < U64_SIZE
    ensures var b := SampleBytes(header, pointer, process, thread, frames, rest);
      32 + 8 * |frames| <= |b| && FrameWords(b, |frames|) == frames
  {
    hide Word, ToLe, WordsBytes;
    var b := SampleBytes(header, pointer, process, thread, frames, rest);
    var before := header + ToLe(pointer, 8) + (ToLe(process, 4) + ToLe(thread, 4)) + ToLe(|frames|, 8);
    forall i | 0 <= i < |frames| ensures Word(b, 32 + 8 * i) == frames[i] {
      WordsReadBack(before, frames, rest, i);
    }
  }

  /** What the kernel put into a sample record is what comes out: the thread, and its frames without zeros
      and markers, in their order behind the instruction pointer.  A record with too many frames gives nothing. */
  lemma SampleReadsBack(header: seq<u8>, pointer: u64, process: nat, thread: nat, frames: seq<u64>, rest: seq<u8>)
    requires |header| == 8 && process < 0x1_0000_0000 && thread < 0x1_0000_0000 && |frames| < U64_SIZE
    ensures ParseSample(SampleBytes(header, pointer, process, thread, frames, rest))
      == if |frames| > MAX_FRAMES then None else Some(PerfSample(thread, WithPointer(Addresses(frames), pointer)))
    ensures var r := ParseSample(SampleBytes(header, pointer, process, thread, frames, rest));
      && (r.None? <==> |frames| > 4096)
      && (r.Some? ==> r.value.threadId == thread && IsCallChain(r.value.stack, pointer, frames))
  {
    hide Word, Half, Addresses, WithPointer, SampleBytes, FrameWords, IsCallChain;
    StackIsCallChain(frames, pointer);
    FixedFieldsReadBack(header, pointer, process, thread, frames, rest);
    FramesReadBack(header, pointer, process, thread, frames, rest);
  }

  // ----- Records in a stream of bytes -----

  datatype Record = Record(typ: int, misc: int, body: seq<u8>)

  // A record as the kernel can write it: its size, header included, fits 16 bits.
  predicate Fits(r: Record) {
    0 <= r.typ < 0x1_0000_0000 && 0 <= r.misc < 0x1_0000 && 8 + |r.body| < 0x1_0000
  }

  function RecordBytes(r: Record): (b: seq<u8>)
    requires Fits(r)
    ensures |b| == 8 + |r.body|
  {
    ToLe(r.typ, 4) + ToLe(r.misc, 2) + ToLe(8 + |r.body|, 2) + r.body
  }

  function StreamOf(records: seq<Record>): seq<u8>
    requires forall r :: r in records ==> Fits(r)
  {
    if records == [] then [] else RecordBytes(records[0]) + StreamOf(records[1..])
  }

  function SampleOf(r: Record): Option<PerfSample>
    requires Fits(r)
  {
    if r.typ == RECORD_SAMPLE then ParseSample(RecordBytes(r)) else None
  }

  /** The samples among some records, in order. */
  function SamplesOf(records: seq<Record>): seq<PerfSample>
    requires forall r :: r in records ==> Fits(r)
  {
    if records == [] then []
    else (match SampleOf(records[0]) case None => [] case Some(s) => [s]) + SamplesOf(records[1..])
  }

  datatype Drained = Drained(samples: seq<PerfSample>, consumed: nat)

  /** What the reader makes of the bytes between tail and head: records until fewer than a header is left
      or a size makes no sense. */
  function Drain(b: seq<u8>): (d: Drained)
    ensures d.consumed <= |b|
    decreases |b|
  {
    if |b| < 8 then Drained([], 0)
    else
      var size := Quarter(b, 6);
      if size < 8 || size > |b| then Drained([], 0)
      else
        var rest := Drain(b[size..]);
        var sample := if Half(b, 0) == RECORD_SAMPLE then ParseSample(b[..size]) else None;
        Drained((match sample case None => [] case Some(s) => [s]) + rest.samples, size + rest.consumed)
  }

  lemma HeaderOf(b: seq<u8>)
    requires |b| >= 8
    ensures Half(b[..8], 0) == Half(b, 0) && Quarter(b[..8], 6) == Quarter(b, 6)
  {
    hide FromLe;
    SliceOfSlice(b, 0, 8, 0, 4);
    SliceOfSlice(b, 0, 8, 6, 8);
    assert b[0..8] == b[..8] && b[0..8][0..4] == b[..8][0..4];
  }

  // Where the next record ends, if there is a whole one.
  function NextRecord(b: seq<u8>): (size: Option<nat>)
    ensures size.Some? ==> 8 <= size.value <= |b| && Quarter(b, 6) == size.value
    ensures size.None? && |b| >= 8 ==> Quarter(b, 6) < 8 || Quarter(b, 6) > |b|
  {
    if |b| < 8 || Quarter(b, 6) < 8 || Quarter(b, 6) > |b| then None else Some(Quarter(b, 6))
  }

  lemma NoHeader(b: seq<u8>)
    ensures |b| < 8 ==> NextRecord(b).None?
  {
  }

  lemma DrainStep(b: seq<u8>)
    ensures match NextRecord(b)
            case None => Drain(b) == Drained([], 0)
            case Some(size) =>
              var rest := Drain(b[size..]);
              var sample := if Half(b, 0) == RECORD_SAMPLE then ParseSample(b[..size]) else None;
              Drain(b) == Drained((match sample case None => [] case Some(s) => [s]) + rest.samples, size
                                  + rest.consumed)
  {
    hide Half, Quarter, ParseSample;
  }

  lemma RecordHeader(r: Record, more: seq<u8>)
    requires Fits(r)
    ensures var b := RecordBytes(r) + more;
      Half(b, 0) == r.typ && Quarter(b, 6) == 8 + |r.body| && b[..8 + |r.body|] == RecordBytes(r)
        && b[8 + |r.body|..] == more
  {
    var b := RecordBytes(r) + more;
    Widths();
    LeRoundTrip(r.typ, 4);
    LeRoundTrip(8 + |r.body|, 2);
    hide ToLe, FromLe, Pow256;
    assert b[0..4] == ToLe(r.typ, 4);
    assert b[6..8] == ToLe(8 + |r.body|, 2);
  }

  /** Whole records are all consumed, and every parseable sample among them comes out once, in order. */
  lemma {:induction false} RecordsDrain(records: seq<Record>)
    requires forall r :: r in records ==> Fits(r)
    ensures Drain(StreamOf(records)) == Drained(SamplesOf(records), |StreamOf(records)|)
    decreases |records|
  {
    hide RecordBytes, Half, Quarter, ParseSample;
    if records != [] {
      RecordHeader(records[0], StreamOf(records[1..]));
      RecordsDrain(records[1..]);
    }
  }

  // ----- The ring -----

  // The ring's bytes from one position of the stream to another.
  ghost function Window(ring: seq<u8>, from: nat, length: nat): (b: seq<u8>)
    requires ring != []
    ensures |b| == length
  {
    seq(length, i requires 0 <= i < length => ring[(from + i) % |ring|])
  }

  /** The kernel's promise: the ring holds the end of everything it ever wrote. */
  ghost predicate Holds(ring: seq<u8>, stream: seq<u8>)
    requires ring != []
  {
    forall p :: 0 <= p < |stream| && |stream| - |ring| <= p ==> ring[p % |ring|] == stream[p]
  }

  /** What was written after a position does not matter to what stands before it, until the writer is a ring
      ahead: the kernel may write while the reader reads. */
  lemma WindowIsStream(ring: seq<u8>, stream: seq<u8>, more: seq<u8>, from: nat)
    requires ring != [] && Holds(ring, stream + more) && |stream + more| - |ring| <= from <= |stream|
    ensures Window(ring, from, |stream| - from) == stream[from..]
  {
    forall i | 0 <= i < |stream| - from ensures Window(ring, from, |stream| - from)[i] == stream[from..][i] {
      assert ring[(from + i) % |ring|] == (stream + more)[from + i];
    }
  }

  lemma WindowPart(ring: seq<u8>, from: nat, length: nat, skip: nat)
    requires ring != [] && skip <= length
    ensures Window(ring, from, length)[..skip] == Window(ring, from, skip)
    ensures Window(ring, from, length)[skip..] == Window(ring, from + skip, length - skip)
  {
    forall i | 0 <= i < length - skip
      ensures Window(ring, from, length)[skip..][i] == Window(ring, from + skip, length - skip)[i]
    {
      assert from + (skip + i) == (from + skip) + i;
    }
  }

  lemma {:induction false} AtLeast(n: nat, k: nat)
    requires k > 0
    ensures n * k >= n
    decreases k
  {
    if k > 1 {
      AtLeast(n, k - 1);
      assert n * k == n * (k - 1) + n;
    }
  }

  // A remainder is the only one.
  lemma Unique(n: nat, a: int, r: nat, b: int, s: nat)
    requires r < n && s < n && n * a + r == n * b + s
    ensures r == s
  {
    assert n * (a - b) == n * a - n * b && n * (b - a) == n * b - n * a;
    if a > b {
      AtLeast(n, a - b);
    } else if a < b {
      AtLeast(n, b - a);
    }
  }

  lemma Wrapped(p: nat, n: nat, i: nat)
    requires n > 0 && i < n
    ensures (p + i) % n == if p % n + i < n then p % n + i else p % n + i - n
  {
    var q, r := p / n, p % n;
    assert p + i == n * ((p + i) / n) + (p + i) % n;
    if r + i < n {
      Unique(n, (p + i) / n, (p + i) % n, q, r + i);
    } else {
      assert n * (q + 1) == n * q + n;
      Unique(n, (p + i) / n, (p + i) % n, q + 1, r + i - n);
    }
  }

  /** What was found so far, and what is still to find, is what there is from `from` on. */
  ghost predicate OnTrack(ring: seq<u8>, from: nat, head: nat, at: nat, samples: seq<PerfSample>)
    requires ring != [] && from <= at <= head
  {
    var all, rest := Drain(Window(ring, from, head - from)), Drain(Window(ring, at, head - at));
    samples + rest.samples == all.samples && at + rest.consumed == from + all.consumed
  }

  lemma StartOnTrack(ring: seq<u8>, from: nat, head: nat)
    requires ring != [] && from <= head
    ensures OnTrack(ring, from, head, from, [])
  {
    hide Window, Drain;
    assert [] + Drain(Window(ring, from, head - from)).samples == Drain(Window(ring, from, head - from)).samples;
  }

  lemma StayOnTrack(ring: seq<u8>, from: nat, head: nat, was: nat, at: nat, samples: seq<PerfSample>,
                    sample: Option<PerfSample>)
    requires ring != [] && from <= was <= at <= head && OnTrack(ring, from, head, was, samples)
    requires var window := Window(ring, was, head - was);
      && NextRecord(window) == Some(at - was)
      && sample == if Half(window, 0) == RECORD_SAMPLE then ParseSample(window[..at - was]) else None
    ensures OnTrack(ring, from, head, at, if sample.Some? then samples + [sample.value] else samples)
  {
    hide Window, Drain, Half, Quarter, ParseSample, NextRecord;
    DrainStep(Window(ring, was, head - was));
    WindowPart(ring, was, head - was, at - was);
    var rest := Drain(Window(ring, at, head - at)).samples;
    if sample.Some? {
      assert samples + ([sample.value] + rest) == (samples + [sample.value]) + rest;
    } else {
      assert [] + rest == rest;
    }
  }

  lemma EndOnTrack(ring: seq<u8>, from: nat, head: nat, at: nat, samples: seq<PerfSample>)
    requires ring != [] && from <= at <= head && OnTrack(ring, from, head, at, samples)
    requires NextRecord(Window(ring, at, head - at)).None?
    ensures Drain(Window(ring, from, head - from)) == Drained(samples, at - from)
  {
    hide Window, Drain, Half, Quarter, ParseSample, NextRecord;
    DrainStep(Window(ring, at, head - at));
  }

  class PerfEvent {
    const data: array<u8>
    var tail: u64

    ghost predicate Valid()
      reads this
    {
      data.Length > 0
    }

    // The tail is read from the mapped page.
    constructor (data: array<u8>, tail: u64)
      requires data.Length > 0
      ensures Valid() && this.data == data && this.tail == tail
    {
      this.data := data;
      this.tail := tail;
    }

    /** `copy_ring`: one slice up to the ring's end, and one from its start if that is not enough.  Both lie
        inside the ring. */
    method CopyRing(position: nat, length: nat) returns (output: seq<u8>)
      requires Valid() && length <= data.Length
      ensures output == Window(data[..], position, length)
    {
      var start := position % data.Length;
      var first := Min(length, data.Length - start);
      output := data[start..start + first];
      if first < length {
        output := output + data[..length - first];
      }
      forall i | 0 <= i < length ensures output[i] == Window(data[..], position, length)[i] {
        Wrapped(position, data.Length, i);
      }
    }

    // One round of the loop: the record at the tail, if a whole one is there.
    method TakeRecord(head: u64) returns (taken: bool, sample: Option<PerfSample>)
      requires Valid() && tail + 8 <= head <= tail + data.Length
      modifies this`tail
      ensures var window := Window(data[..], old(tail), head - old(tail));
        match NextRecord(window)
        case None => !taken && tail == old(tail)
        case Some(size) =>
          && taken && tail == old(tail) + size
          && sample == if Half(window, 0) == RECORD_SAMPLE then ParseSample(window[..size]) else None
    {
      hide Window, Half, Quarter, ParseSample;
      ghost var window := Window(data[..], tail, head - tail);
      var header := CopyRing(tail, 8);
      WindowPart(data[..], tail, head - tail, 8);
      HeaderOf(window);
      var typ, size := Half(header, 0), Quarter(header, 6);
      if size < 8 || size > head - tail {
        return false, None;
      }
      var record := CopyRing(tail, size);
      WindowPart(data[..], tail, head - tail, size);
      tail := tail + size;
      taken, sample := true, None;
      if typ == RECORD_SAMPLE {
        sample := ParsePerfSample(record);
      }
    }

    /** `drain_samples`: everything between tail and head, or, if the kernel has lapped the reader, as much as
        the ring can hold; the tail moves past what was consumed. */
    method DrainSamples(head: u64) returns (samples: seq<PerfSample>)
      requires Valid()
      modifies this`tail
      ensures old(tail) > head ==> samples == [] && tail == old(tail)
      ensures old(tail) <= head ==>
        var from := if head - old(tail) > data.Length then head - data.Length else old(tail);
        var d := Drain(Window(data[..], from, head - from));
        && samples == d.samples && tail == from + d.consumed <= head
    {
      hide Window, Drain, Half, Quarter, ParseSample, NextRecord, OnTrack;
      if tail > head {
        return [];
      }
      ghost var ring := data[..];
      if head - tail > data.Length {
        tail := head - data.Length;
      }
      ghost var from := tail;
      samples := [];
      StartOnTrack(ring, from, head);
      while head - tail >= 8
        invariant data[..] == ring && from <= tail <= head && head - tail <= data.Length
        invariant OnTrack(ring, from, head, tail, samples)
        decreases head - tail
      {
        ghost var was := tail;
        var taken, sample := TakeRecord(head);
        if !taken {
          break;
        }
        StayOnTrack(ring, from, head, was, tail, samples, sample);
        if sample.Some? {
          samples := samples + [sample.value];
        }
      }
      NoHeader(Window(ring, tail, head - tail));
      EndOnTrack(ring, from, head, tail, samples);
    }

    /** When the kernel has written whole records since the last call, and has not lapped the reader with what
        it writes during this one, the call returns their samples, each once and in order, and takes
        everything that was there when it read the head. */
    lemma DrainsNewRecords(stream: seq<u8>, more: seq<u8>, records: seq<Record>)
      requires Valid() && Holds(data[..], stream + more) && tail <= |stream| && |stream + more| <= tail + data.Length
      requires (forall r :: r in records ==> Fits(r)) && stream[tail..] == StreamOf(records)
      ensures Drain(Window(data[..], tail, |stream| - tail)) == Drained(SamplesOf(records), |stream| - tail)
    {
      hide Holds, Window, Drain, StreamOf, SamplesOf;
      WindowIsStream(data[..], stream, more, tail);
      RecordsDrain(records);
    }
  }

  // ----- Over many calls -----

  predicate AllFit(records: seq<Record>) {
    forall r :: r in records ==> Fits(r)
  }

  lemma {:induction false} StreamAppend(a: seq<Record>, b: seq<Record>)
    requires AllFit(a) && AllFit(b)
    ensures AllFit(a + b) && StreamOf(a + b) == StreamOf(a) + StreamOf(b)
    decreases |a|
  {
    hide RecordBytes, Fits;
    if a == [] {
      assert a + b == b;
    } else {
      StreamAppend(a[1..], b);
      assert (a + b)[1..] == a[1..] + b;
    }
  }

  lemma {:induction false} SamplesAppend(a: seq<Record>, b: seq<Record>)
    requires AllFit(a) && AllFit(b) && AllFit(a + b)
    ensures SamplesOf(a + b) == SamplesOf(a) + SamplesOf(b)
    decreases |a|
  {
    hide SampleOf, Fits;
    if a == [] {
      assert a + b == b;
    } else {
      assert (a + b)[1..] == a[1..] + b;
      SamplesAppend(a[1..], b);
    }
  }

  // Positions less than a ring apart stand in different places.
  lemma Apart(p: nat, q: nat, n: nat)
    requires n > 0 && p < q < p + n
    ensures p % n != q % n
  {
    Wrapped(p, n, q - p);
  }

  // The kernel's side: it writes behind what it has written, around the ring.
  method KernelWrites(data: array<u8>, ghost stream: seq<u8>, head: nat, bytes: seq<u8>)
    requires data.Length > 0 && head == |stream| && Holds(data[..], stream)
    modifies data
    ensures Holds(data[..], stream + bytes)
  {
    var n := data.Length;
    assert stream + bytes[..0] == stream;
    for i := 0 to |bytes|
      invariant Holds(data[..], stream + bytes[..i])
    {
      ghost var was, now := stream + bytes[..i], stream + bytes[..i + 1];
      ghost var ring := data[..];
      data[(head + i) % n] := bytes[i];
      forall p | 0 <= p < |now| && |now| - n <= p ensures data[..][p % n] == now[p] {
        if p < |was| {
          Apart(p, head + i, n);
          assert ring[p % n] == was[p];
        }
      }
    }
    assert bytes[..|bytes|] == bytes;
  }

  // ----- What comes out, by position -----

  /** The record is a sample, with room for the frames that it announces. */
  ghost predicate IsSample(r: Record) {
    r.typ == 9 && |r.body| >= 24 && Word(r.body, 16) <= 4096 && |r.body| >= 24 + 8 * Word(r.body, 16)
  }

  // The frames of a sample record, as its words.
  ghost predicate FramesIn(body: seq<u8>, frames: seq<u64>) {
    && |body| >= 24 + 8 * |frames| && |frames| == Word(body, 16)
    && forall i :: 0 <= i < |frames| ==> frames[i] == Word(body, 24 + 8 * i)
  }

  /** The sample is the record's: its thread, and its frames as a call chain. */
  ghost predicate SampleFrom(r: Record, s: PerfSample) {
    && IsSample(r) && s.threadId == Half(r.body, 12)
    && exists frames :: FramesIn(r.body, frames) && IsCallChain(s.stack, Word(r.body, 0), frames)
  }

  /** One sample for each sample record, in the records' order. */
  ghost predicate Reported(records: seq<Record>, samples: seq<PerfSample>, at: seq<nat>) {
    && |at| == |samples|
    && (forall k, m :: 0 <= k < m < |at| ==> at[k] < at[m])
    && (forall i: nat :: i in at <==> i < |records| && IsSample(records[i]))
    && (forall k :: 0 <= k < |at| ==> at[k] < |records| && SampleFrom(records[at[k]], samples[k]))
  }

  lemma BodyWords(r: Record, o: nat, width: nat)
    requires Fits(r) && o + width <= |r.body|
    ensures RecordBytes(r)[8 + o..8 + o + width] == r.body[o..o + width]
  {
    hide ToLe;
    var b := RecordBytes(r);
    assert b[8..] == r.body;
    assert b[8 + o..8 + o + width] == b[8..][o..o + width];
  }

  lemma BodyWord(r: Record, o: nat)
    requires Fits(r) && o + 8 <= |r.body|
    ensures Word(RecordBytes(r), 8 + o) == Word(r.body, o)
  {
    hide FromLe, ToLe;
    BodyWords(r, o, 8);
  }

  lemma SampleOfRecord(r: Record)
    requires Fits(r)
    ensures SampleOf(r).Some? <==> IsSample(r)
    ensures SampleOf(r).Some? ==> SampleFrom(r, SampleOf(r).value)
  {
    hide Word, Half, Addresses, WithPointer, IsCallChain, RecordBytes;
    var b := RecordBytes(r);
    if r.typ == 9 && |r.body| >= 24 {
      BodyWord(r, 16);
      if IsSample(r) {
        var n := Word(r.body, 16);
        var frames := FrameWords(b, n);
        forall i | 0 <= i < n ensures frames[i] == Word(r.body, 24 + 8 * i) {
          BodyWord(r, 24 + 8 * i);
        }
        BodyWord(r, 0);
        BodyHalf(r);
        StackIsCallChain(frames, Word(b, 8));
        assert FramesIn(r.body, frames);
      }
    }
  }

  lemma BodyHalf(r: Record)
    requires Fits(r) && |r.body| >= 16
    ensures Half(RecordBytes(r), 20) == Half(r.body, 12)
  {
    hide FromLe, ToLe;
    BodyWords(r, 12, 4);
  }

  lemma {:induction false} SamplesReported(records: seq<Record>) returns (at: seq<nat>)
    requires AllFit(records)
    ensures Reported(records, SamplesOf(records), at)
    decreases |records|
  {
    hide SampleOf, IsSample, SampleFrom, Fits;
    if records == [] {
      at := [];
    } else {
      var n := |records| - 1;
      var before := SamplesReported(records[..n]);
      assert records == records[..n] + [records[n]];
      SamplesAppend(records[..n], [records[n]]);
      SampleOfRecord(records[n]);
      at := before + if SampleOf(records[n]).Some? then [n] else [];
      OneSample(records[n]);
      hide SamplesOf;
      ReportedNext(records, SamplesOf(records[..n]), before, SampleOf(records[n]));
    }
  }

  lemma OneSample(r: Record)
    requires Fits(r)
    ensures SamplesOf([r]) == match SampleOf(r) case None => [] case Some(s) => [s]
  {
    hide SampleOf;
    assert [r][1..] == [];
  }

  lemma ReportedNext(records: seq<Record>, samples: seq<PerfSample>, at: seq<nat>, s: Option<PerfSample>)
    requires records != [] && Reported(records[..|records| - 1], samples, at)
    requires s.Some? <==> IsSample(records[|records| - 1])
    requires s.Some? ==> SampleFrom(records[|records| - 1], s.value)
    ensures Reported(records, samples + (match s case None => [] case Some(v) => [v]),
                     at + if s.Some? then [|records| - 1] else [])
  {
    hide IsSample, SampleFrom;
    var n := |records| - 1;
    var here: seq<nat> := if s.Some? then [n] else [];
    var all := at + here;
    forall i: nat ensures i in all <==> i < |records| && IsSample(records[i]) {
      assert i in all <==> i in at || i in here;
      assert i < n ==> records[..n][i] == records[i];
    }
    forall k | 0 <= k < |at| ensures at[k] < n && SampleFrom(records[at[k]], samples[k]) {
      assert records[..n][at[k]] == records[at[k]];
    }
  }

  // What the kernel writes after the i-th batch.
  function Following(batches: seq<seq<Record>>, i: nat): seq<Record> {
    if i + 1 < |batches| then batches[i + 1] else []
  }

  /** Two batches in a row fit into the ring together. */
  ghost predicate Paced(batches: seq<seq<Record>>, size: nat) {
    forall i :: 0 <= i < |batches| ==>
      && AllFit(batches[i]) && AllFit(Following(batches, i))
      && |StreamOf(batches[i])| + |StreamOf(Following(batches, i))| <= size
  }

  // One call: the reader has read the head, and the kernel goes on writing.
  method DrainWhileWriting(event: PerfEvent, records: seq<Record>, more: seq<u8>, ghost stream: seq<u8>, head: nat)
    returns (samples: seq<PerfSample>)
    requires event.Valid() && AllFit(records) && head == |stream| + |StreamOf(records)| < U64_SIZE
    requires event.tail == |stream|
    requires Holds(event.data[..], stream + StreamOf(records)) && |StreamOf(records)| + |more| <= event.data.Length
    modifies event`tail, event.data
    ensures samples == SamplesOf(records) && event.tail == head
    ensures Holds(event.data[..], stream + StreamOf(records) + more)
  {
    hide Fits, Holds, StreamOf, SamplesOf, Window, Drain;
    ghost var now := stream + StreamOf(records);
    assert now[event.tail..] == StreamOf(records);
    KernelWrites(event.data, now, head, more);
    event.DrainsNewRecords(now, more, records);
    samples := event.DrainSamples(head);
  }

  /** However often the reader is called, from wherever it stands, and though the kernel writes the next
      records while it reads these: unless it is lapped, the calls give the samples of everything written,
      each once and in order. */
  method DrainAll(event: PerfEvent, batches: seq<seq<Record>>,
                  ghost earlier: seq<u8>) returns (samples: seq<PerfSample>)
    requires event.Valid() && event.tail == |earlier| && Holds(event.data[..], earlier)
    requires Paced(batches, event.data.Length)
    requires AllFit(Flatten(batches)) && |earlier| + |StreamOf(Flatten(batches))| < U64_SIZE
    modifies event`tail, event.data
    ensures samples == SamplesOf(Flatten(batches)) && event.tail == |earlier| + |StreamOf(Flatten(batches))|
    ensures exists at :: Reported(Flatten(batches), samples, at)
  {
    hide Fits, Holds, StreamOf, SamplesOf, Window, Drain, Flatten, Reported;
    samples := [];
    NothingWritten();
    FlattenNone(batches);
    ghost var written: seq<Record> := [];
    ghost var stream := earlier;
    assert earlier + [] == earlier;
    if |batches| > 0 {
      KernelWrites(event.data, stream, event.tail, StreamOf(batches[0]));
    }
    for i := 0 to |batches|
      invariant event.Valid() && written == Flatten(batches[..i]) && AllFit(written)
      invariant samples == SamplesOf(written) && stream == earlier + StreamOf(written) && event.tail == |stream|
      invariant i < |batches| ==> Holds(event.data[..], stream + StreamOf(batches[i]))
    {
      var records, following := batches[i], Following(batches, i);
      BatchNext(batches, i, written, earlier, stream);
      var some := DrainWhileWriting(event, records, StreamOf(following), stream, event.tail + |StreamOf(records)|);
      samples := samples + some;
      written := written + records;
      stream := stream + StreamOf(records);
    }
    assert batches[..|batches|] == batches;
    ghost var at := SamplesReported(written);
  }

  lemma BatchNext(batches: seq<seq<Record>>, i: nat, written: seq<Record>, earlier: seq<u8>, stream: seq<u8>)
    requires i < |batches| && written == Flatten(batches[..i]) && AllFit(written) && AllFit(batches[i])
    requires stream == earlier + StreamOf(written) && AllFit(Flatten(batches))
    ensures written + batches[i] == Flatten(batches[..i + 1]) && AllFit(written + batches[i])
    ensures stream + StreamOf(batches[i]) == earlier + StreamOf(written + batches[i])
    ensures SamplesOf(written + batches[i]) == SamplesOf(written) + SamplesOf(batches[i])
    ensures |stream + StreamOf(batches[i])| <= |earlier| + |StreamOf(Flatten(batches))|
  {
    hide Fits, StreamOf, SamplesOf, Flatten;
    FlattenNext(batches, i);
    StreamAppend(written, batches[i]);
    SamplesAppend(written, batches[i]);
    FlattenPrefixFits(batches, i + 1);
    assert earlier + (StreamOf(written) + StreamOf(batches[i])) == stream + StreamOf(batches[i]);
  }

  lemma NothingWritten()
    ensures StreamOf([]) == [] && SamplesOf([]) == []
  {
  }

  lemma FlattenNone(batches: seq<seq<Record>>)
    ensures Flatten(batches[..0]) == []
  {
  }

  lemma {:induction false} FlattenNext(batches: seq<seq<Record>>, i: nat)
    requires i < |batches|
    ensures Flatten(batches[..i + 1]) == Flatten(batches[..i]) + batches[i]
    decreases i
  {
    if i == 0 {
      assert batches[..1][1..] == [];
    } else {
      FlattenNext(batches[1..], i - 1);
      assert batches[..i + 1][1..] == batches[1..][..i] && batches[..i][1..] == batches[1..][..i - 1];
    }
  }

  // Fewer batches make a shorter stream.
  lemma FlattenPrefixFits(batches: seq<seq<Record>>, i: nat)
    requires i <= |batches| && AllFit(Flatten(batches))
    ensures AllFit(Flatten(batches[..i])) && |StreamOf(Flatten(batches[..i]))| <= |StreamOf(Flatten(batches))|
  {
    FlattenSplit(batches, i);
    var a, b := Flatten(batches[..i]), Flatten(batches[i..]);
    assert forall r :: r in a || r in b ==> r in a + b;
    StreamAppend(a, b);
  }

  lemma {:induction false} FlattenSplit(batches: seq<seq<Record>>, i: nat)
    requires i <= |batches|
    ensures Flatten(batches) == Flatten(batches[..i]) + Flatten(batches[i..])
    decreases i
  {
    if i == 0 {
      assert batches[0..] == batches;
    } else {
      FlattenSplit(batches[1..], i - 1);
      assert batches[..i][1..] == batches[1..][..i - 1] && batches[1..][i - 1..] == batches[i..];
    }
  }
}
