/** The framed byte stream between a profiler and the app: the header codec of `src/stream.rs` and
    `SessionStreamProtocol.swift`, and the app's incremental parser. */
module SessionStream {
  import opened Prelude
  import opened Words

  const HEADER_LENGTH: nat := 28
  const MAGIC: seq<u8> := Ascii("PPRS")
  const MAX_PAYLOAD: int := 256 * 1024 * 1024

  type u16 = x: int | 0 <= x < 0x1_0000

  datatype FrameKind =
    | Hello | ProfileCheckpoint | ProfileDelta | Finalizing | FinalProfile | Failed | Heartbeat
    | Acknowledged | Stop | ProtocolError

  function KindCode(kind: FrameKind): u16 {
    match kind
    case Hello => 1
    case ProfileCheckpoint => 2
    case ProfileDelta => 3
    case Finalizing => 4
    case FinalProfile => 5
    case Failed => 6
    case Heartbeat => 7
    case Acknowledged => 101
    case Stop => 102
    case ProtocolError => 103
  }

  function KindOf(code: u16): (kind: Option<FrameKind>)
    ensures kind.Some? ==> KindCode(kind.value) == code
    ensures kind.None? ==> forall k :: KindCode(k) != code
  {
    if code == 1 then Some(Hello)
    else if code == 2 then Some(ProfileCheckpoint)
    else if code == 3 then Some(ProfileDelta)
    else if code == 4 then Some(Finalizing)
    else if code == 5 then Some(FinalProfile)
    else if code == 6 then Some(Failed)
    else if code == 7 then Some(Heartbeat)
    else if code == 101 then Some(Acknowledged)
    else if code == 102 then Some(Stop)
    else if code == 103 then Some(ProtocolError)
    else None
  }

  datatype Header = Header(major: u16, minor: u16, kind: FrameKind, flags: u16, sequence: u64, payloadLength: u64)

  datatype StreamError = InvalidHeader | InvalidMagic | UnknownFrameKind(code: u16) | PayloadTooLarge(length: u64)

  // ----- The header -----

  function HeaderBytes(h: Header): (b: seq<u8>)
    ensures |b| == HEADER_LENGTH
  {
    MAGIC + ToBe(h.major, 2) + ToBe(h.minor, 2) + ToBe(KindCode(h.kind), 2) + ToBe(h.flags, 2)
    + ToBe(h.sequence, 8) + ToBe(h.payloadLength, 8)
  }

  function Be16(b: seq<u8>, at: nat): (v: u16)
    requires at + 2 <= |b|
  {
    Widths();
    FromBeBound(b[at..at + 2]);
    FromBe(b[at..at + 2])
  }

  function Be64(b: seq<u8>, at: nat): (v: u64)
    requires at + 8 <= |b|
  {
    Widths();
    FromBeBound(b[at..at + 8]);
    FromBe(b[at..at + 8])
  }

  /** `StreamHeader::decode`, the profiler's side. */
  function DecodeStreamHeader(b: seq<u8>): Result<Header, StreamError> {
    if |b| != HEADER_LENGTH then Err(InvalidHeader)
    else if b[..4] != MAGIC then Err(InvalidMagic)
    else
      match KindOf(Be16(b, 8))
      case None => Err(UnknownFrameKind(Be16(b, 8)))
      case Some(kind) => Ok(Header(Be16(b, 4), Be16(b, 6), kind, Be16(b, 10), Be64(b, 12), Be64(b, 20)))
  }

  /** `SessionFrameHeader.init(decoding:)`, the app's side: it also bounds the payload. */
  function DecodeFrameHeader(b: seq<u8>): Result<Header, StreamError> {
    var h :- DecodeStreamHeader(b);
    if h.payloadLength > MAX_PAYLOAD then Err(PayloadTooLarge(h.payloadLength)) else Ok(h)
  }

  lemma HeaderParts(h: Header)
    ensures var b := HeaderBytes(h);
      && b[..4] == MAGIC && b[4..6] == ToBe(h.major, 2) && b[6..8] == ToBe(h.minor, 2)
      && b[8..10] == ToBe(KindCode(h.kind), 2) && b[10..12] == ToBe(h.flags, 2)
      && b[12..20] == ToBe(h.sequence, 8) && b[20..28] == ToBe(h.payloadLength, 8)
  {
    hide ToBe;
  }

  // The code of a kind on the wire.
  ghost predicate WireCode(kind: FrameKind, code: int) {
    match kind
    case Hello => code == 1
    case ProfileCheckpoint => code == 2
    case ProfileDelta => code == 3
    case Finalizing => code == 4
    case FinalProfile => code == 5
    case Failed => code == 6
    case Heartbeat => code == 7
    case Acknowledged => code == 101
    case Stop => code == 102
    case ProtocolError => code == 103
  }

  function Big(b: seq<u8>, o: nat): int
    requires o + 8 <= |b|
  {
    0x100_0000_0000_0000 * Byte(b, o) + 0x1_0000_0000_0000 * Byte(b, o + 1) + 0x100_0000_0000 * Byte(b, o + 2)
    + 0x1_0000_0000 * Byte(b, o + 3) + 0x100_0000 * Byte(b, o + 4) + 0x1_0000 * Byte(b, o + 5)
    + 0x100 * Byte(b, o + 6) + Byte(b, o + 7)
  }

  /** A header byte by byte: magic, versions, kind and flags in two bytes each, then sequence and length in eight,
      the most significant byte first. */
  lemma HeaderLayout(h: Header)
    ensures var b := HeaderBytes(h);
      && b[..4] == [80, 80, 82, 83]
      && h.major == 0x100 * Byte(b, 4) + Byte(b, 5) && h.minor == 0x100 * Byte(b, 6) + Byte(b, 7)
      && WireCode(h.kind, 0x100 * Byte(b, 8) + Byte(b, 9)) && h.flags == 0x100 * Byte(b, 10) + Byte(b, 11)
      && h.sequence == Big(b, 12) && h.payloadLength == Big(b, 20)
  {
    HeaderReadsBack(h);
    HeaderParts(h);
    var b := HeaderBytes(h);
    hide HeaderBytes, FromBe, ToBe;
    BeWeights(b[4..6]);
    BeWeights(b[6..8]);
    BeWeights(b[8..10]);
    BeWeights(b[10..12]);
    BeWeights(b[12..20]);
    BeWeights(b[20..28]);
  }

  /** What the profiler writes, both sides read back. */
  lemma HeaderReadsBack(h: Header)
    ensures DecodeStreamHeader(HeaderBytes(h)) == Ok(h)
    ensures DecodeFrameHeader(HeaderBytes(h)) ==
      if h.payloadLength > MAX_PAYLOAD then Err(PayloadTooLarge(h.payloadLength)) else Ok(h)
  {
    HeaderParts(h);
    Widths();
    hide HeaderBytes;
    BeRoundTrip(h.major, 2);
    BeRoundTrip(h.minor, 2);
    BeRoundTrip(KindCode(h.kind), 2);
    BeRoundTrip(h.flags, 2);
    BeRoundTrip(h.sequence, 8);
    BeRoundTrip(h.payloadLength, 8);
    hide FromBe, ToBe, Pow256;
  }

  /** A header is read from no other bytes. */
  lemma HeaderWritesBack(b: seq<u8>)
    requires DecodeStreamHeader(b).Ok?
    ensures HeaderBytes(DecodeStreamHeader(b).value) == b
  {
    BeBack(b[4..6]);
    BeBack(b[6..8]);
    BeBack(b[8..10]);
    BeBack(b[10..12]);
    BeBack(b[12..20]);
    BeBack(b[20..28]);
    hide FromBe, ToBe;
    assert b == b[..4] + b[4..6] + b[6..8] + b[8..10] + b[10..12] + b[12..20] + b[20..28];
  }

  // ----- Frames -----

  datatype Frame = Frame(header: Header, payload: seq<u8>)

  // The header says how long the payload is, and the app takes payloads of that length.
  predicate Framed(f: Frame) {
    f.header.payloadLength == |f.payload| <= MAX_PAYLOAD
  }

  function FrameBytes(f: Frame): (b: seq<u8>)
    ensures |b| == HEADER_LENGTH + |f.payload|
  {
    HeaderBytes(f.header) + f.payload
  }

  function StreamBytes(frames: seq<Frame>): seq<u8> {
    if frames == [] then [] else FrameBytes(frames[0]) + StreamBytes(frames[1..])
  }

  /** What a buffer holds: complete frames, what is left, and why reading stopped if not for want of bytes. */
  datatype Parsed = Parsed(frames: seq<Frame>, rest: seq<u8>, error: Option<StreamError>)

  function Parse(b: seq<u8>): (p: Parsed)
    ensures |p.rest| <= |b|
    decreases |b|
  {
    if |b| < HEADER_LENGTH then Parsed([], b, None)
    else
      match DecodeFrameHeader(b[..HEADER_LENGTH])
      case Err(e) => Parsed([], b, Some(e))
      case Ok(h) =>
        var total := HEADER_LENGTH + h.payloadLength;
        if |b| < total then Parsed([], b, None)
        else
          var p := Parse(b[total..]);
          Parsed([Frame(h, b[HEADER_LENGTH..total])] + p.frames, p.rest, p.error)
  }

  // Where the next complete frame ends, if there is one.
  function NextFrame(b: seq<u8>): (total: Option<nat>)
    ensures total.Some? ==>
      && HEADER_LENGTH <= total.value <= |b| && DecodeFrameHeader(b[..HEADER_LENGTH]).Ok?
      && total.value == HEADER_LENGTH + DecodeFrameHeader(b[..HEADER_LENGTH]).value.payloadLength
  {
    if |b| < HEADER_LENGTH || DecodeFrameHeader(b[..HEADER_LENGTH]).Err? then None
    else
      var total := HEADER_LENGTH + DecodeFrameHeader(b[..HEADER_LENGTH]).value.payloadLength;
      if |b| < total then None else Some(total)
  }

  function FirstFrame(b: seq<u8>): Frame
    requires NextFrame(b).Some?
  {
    Frame(DecodeFrameHeader(b[..HEADER_LENGTH]).value, b[HEADER_LENGTH..NextFrame(b).value])
  }

  lemma ParseStep(b: seq<u8>)
    ensures match NextFrame(b)
            case None => Parse(b) == Parsed([], b, Parse(b).error)
            case Some(total) =>
              var p := Parse(b[total..]);
              Parse(b) == Parsed([FirstFrame(b)] + p.frames, p.rest, p.error)
  {
    hide DecodeFrameHeader;
  }

  // A frame that is there stays there, and so does a bad header.
  lemma NextFrameStays(a: seq<u8>, c: seq<u8>)
    ensures NextFrame(a).Some? ==>
      NextFrame(a + c) == NextFrame(a) && FirstFrame(a + c) == FirstFrame(a)
        && (a + c)[NextFrame(a).value..] == a[NextFrame(a).value..] + c
    ensures NextFrame(a).None? && Parse(a).error.Some? ==> Parse(a + c) == Parsed([], a + c, Parse(a).error)
  {
    hide DecodeFrameHeader;
    if |a| >= HEADER_LENGTH {
      assert (a + c)[..HEADER_LENGTH] == a[..HEADER_LENGTH];
    }
  }

  lemma WholeFrame(b: seq<u8>, h: Header)
    requires |b| >= HEADER_LENGTH && DecodeFrameHeader(b[..HEADER_LENGTH]) == Ok(h)
    requires |b| >= HEADER_LENGTH + h.payloadLength
    ensures Framed(Frame(h, b[HEADER_LENGTH..HEADER_LENGTH + h.payloadLength]))
    ensures FrameBytes(Frame(h, b[HEADER_LENGTH..HEADER_LENGTH + h.payloadLength]))
      == b[..HEADER_LENGTH + h.payloadLength]
  {
    HeaderWritesBack(b[..HEADER_LENGTH]);
    hide HeaderBytes, DecodeStreamHeader;
  }

  lemma StreamNext(f: Frame, frames: seq<Frame>)
    ensures StreamBytes([f] + frames) == FrameBytes(f) + StreamBytes(frames)
  {
    assert ([f] + frames)[1..] == frames;
  }

  lemma {:induction false} StreamAppend(frames: seq<Frame>, f: Frame)
    ensures StreamBytes(frames + [f]) == StreamBytes(frames) + FrameBytes(f)
  {
    hide FrameBytes;
    if frames == [] {
      assert [f][1..] == [];
      assert StreamBytes([]) + FrameBytes(f) == FrameBytes(f) + StreamBytes([]);
    } else {
      StreamAppend(frames[1..], f);
      assert (frames + [f])[1..] == frames[1..] + [f];
    }
  }

  /** Nothing is lost: the frames and the rest are the bytes. */
  lemma {:induction false} ParseConserves(b: seq<u8>)
    ensures StreamBytes(Parse(b).frames) + Parse(b).rest == b
    ensures forall f :: f in Parse(b).frames ==> Framed(f)
    decreases |b|
  {
    hide DecodeFrameHeader, FrameBytes, Framed, StreamBytes, Parse, NextFrame;
    NoFrames();
    ParseStep(b);
    if NextFrame(b).Some? {
      var total := NextFrame(b).value;
      WholeFrame(b, DecodeFrameHeader(b[..HEADER_LENGTH]).value);
      ParseConserves(b[total..]);
      StreamNext(FirstFrame(b), Parse(b[total..]).frames);
      assert b == b[..total] + b[total..];
    }
  }

  lemma NoFrames()
    ensures StreamBytes([]) == []
  {
  }

  lemma NoneBefore(frames: seq<Frame>)
    ensures [] + frames == frames
  {
  }

  /** More bytes go on where the parse stopped. */
  lemma {:induction false} ParseAppend(a: seq<u8>, c: seq<u8>)
    ensures Parse(a).error.None? ==>
      var next := Parse(Parse(a).rest + c);
      Parse(a + c) == Parsed(Parse(a).frames + next.frames, next.rest, next.error)
    ensures Parse(a).error.Some? ==> Parse(a + c) == Parsed(Parse(a).frames, Parse(a).rest + c, Parse(a).error)
    decreases |a|
  {
    hide DecodeFrameHeader, Parse, NextFrame, FirstFrame;
    ParseStep(a);
    ParseStep(a + c);
    NextFrameStays(a, c);
    if NextFrame(a).Some? {
      var total := NextFrame(a).value;
      ParseAppend(a[total..], c);
      var inner := Parse(a[total..]);
      if inner.error.None? {
        var next := Parse(inner.rest + c);
        assert [FirstFrame(a)] + (inner.frames + next.frames) == ([FirstFrame(a)] + inner.frames) + next.frames;
      }
    } else {
      NoneBefore(Parse(a + c).frames);
    }
  }

  lemma OneFrame(f: Frame, more: seq<u8>)
    requires Framed(f)
    ensures Parse(FrameBytes(f) + more) == Parsed([f] + Parse(more).frames, Parse(more).rest, Parse(more).error)
  {
    var b := FrameBytes(f) + more;
    HeaderReadsBack(f.header);
    hide HeaderBytes, DecodeFrameHeader;
    assert b[..HEADER_LENGTH] == HeaderBytes(f.header);
    assert b[HEADER_LENGTH..HEADER_LENGTH + |f.payload|] == f.payload;
    assert b[HEADER_LENGTH + |f.payload|..] == more;
  }

  /** Written frames are parsed as written. */
  lemma {:induction false} FramesReadBack(frames: seq<Frame>, more: seq<u8>)
    requires forall f :: f in frames ==> Framed(f)
    ensures Parse(StreamBytes(frames) + more)
      == Parsed(frames + Parse(more).frames, Parse(more).rest, Parse(more).error)
    decreases |frames|
  {
    hide FrameBytes, Parse, Framed;
    if frames == [] {
      assert StreamBytes(frames) + more == more && frames + Parse(more).frames == Parse(more).frames;
    } else {
      FramesReadBack(frames[1..], more);
      assert StreamBytes(frames) + more == FrameBytes(frames[0]) + (StreamBytes(frames[1..]) + more);
      OneFrame(frames[0], StreamBytes(frames[1..]) + more);
      assert [frames[0]] + (frames[1..] + Parse(more).frames) == frames + Parse(more).frames;
    }
  }

  /** A strict prefix of a frame yields nothing, and waits. */
  lemma PartialFrame(f: Frame, part: seq<u8>)
    requires Framed(f) && part < FrameBytes(f)
    ensures Parse(part) == Parsed([], part, None)
  {
    HeaderReadsBack(f.header);
    hide HeaderBytes, DecodeFrameHeader;
    if |part| >= HEADER_LENGTH {
      assert part[..HEADER_LENGTH] == FrameBytes(f)[..HEADER_LENGTH] == HeaderBytes(f.header);
    }
  }

  lemma NothingToParse()
    ensures Parse([]) == Parsed([], [], None)
  {
  }

  /** However much of a stream has arrived, the parser has exactly the frames that arrived whole. */
  lemma {:induction false} PrefixFrames(frames: seq<Frame>, n: nat) returns (k: nat)
    requires n <= |StreamBytes(frames)|
    requires forall f :: f in frames ==> Framed(f)
    ensures k <= |frames| && Parse(StreamBytes(frames)[..n]).frames == frames[..k]
    ensures Parse(StreamBytes(frames)[..n]).error.None?
    ensures |StreamBytes(frames[..k])| <= n
    ensures k < |frames| ==> n < |StreamBytes(frames[..k])| + |FrameBytes(frames[k])|
    decreases |frames|
  {
    hide FrameBytes, Parse, Framed;
    var bytes := StreamBytes(frames);
    if frames == [] {
      k := 0;
      NothingToParse();
    } else {
      var first, rest := FrameBytes(frames[0]), StreamBytes(frames[1..]);
      if n < |first| {
        k := 0;
        assert bytes[..n] == first[..n];
        PartialFrame(frames[0], bytes[..n]);
      } else {
        var j := PrefixFrames(frames[1..], n - |first|);
        k := j + 1;
        assert bytes[..n] == first + rest[..n - |first|];
        OneFrame(frames[0], rest[..n - |first|]);
        assert frames[..k][1..] == frames[1..][..j];
        assert frames[..k] == [frames[0]] + frames[1..][..j];
        assert k < |frames| ==> frames[k] == frames[1..][j];
      }
    }
  }

  // ----- The parser -----

  /** `SessionFrameParser`: bytes in, complete frames out. */
  class SessionFrameParser {
    var buffer: seq<u8>

    constructor ()
      ensures buffer == []
    {
      buffer := [];
    }

    /** A bad header fails the call, and with it the frames that the call had found before it; those
        have left the buffer. */
    method Append(bytes: seq<u8>) returns (r: Result<seq<Frame>, StreamError>)
      modifies this
      ensures var p := Parse(old(buffer) + bytes);
        && buffer == p.rest
        && r == match p.error case Some(e) => Err(e) case None => Ok(p.frames)
    {
      hide DecodeFrameHeader;
      buffer := buffer + bytes;
      ghost var all := buffer;
      var frames: seq<Frame> := [];
      assert all == old(buffer) + bytes;
      while |buffer| >= HEADER_LENGTH
        invariant Parse(all) == Parsed(frames + Parse(buffer).frames, Parse(buffer).rest, Parse(buffer).error)
        decreases |buffer|
      {
        var header := DecodeFrameHeader(buffer[..HEADER_LENGTH]);
        if header.Err? {
          return Err(header.error);
        }
        var total := HEADER_LENGTH + header.value.payloadLength;
        if |buffer| < total {
          break;
        }
        var payload := buffer[HEADER_LENGTH..total];
        ghost var rest := Parse(buffer[total..]).frames;
        assert frames + ([Frame(header.value, payload)] + rest) == (frames + [Frame(header.value, payload)]) + rest;
        frames := frames + [Frame(header.value, payload)];
        buffer := buffer[total..];
      }
      assert Parse(buffer) == Parsed([], buffer, None);
      assert frames + [] == frames;
      r := Ok(frames);
    }
  }

  /** What a fresh parser has given after some calls, as long as none failed, and what it holds back. */
  function FedFrames(chunks: seq<seq<u8>>): Parsed {
    if chunks == [] then Parsed([], [], None)
    else
      var before := FedFrames(chunks[..|chunks| - 1]);
      if before.error.Some? then before
      else
        var p := Parse(before.rest + chunks[|chunks| - 1]);
        Parsed(before.frames + (if p.error.Some? then [] else p.frames), p.rest, p.error)
  }

  /** Chunk invariance: however a stream of frames is cut, the calls give these frames in order and hold
      back nothing. */
  lemma {:induction false} ChunksDoNotMatter(chunks: seq<seq<u8>>)
    requires Parse(Flatten(chunks)).error.None?
    ensures FedFrames(chunks) == Parse(Flatten(chunks))
    decreases |chunks|
  {
    if chunks != [] {
      var n := |chunks| - 1;
      FlattenLast(chunks);
      ParseAppend(Flatten(chunks[..n]), chunks[n]);
      ChunksDoNotMatter(chunks[..n]);
    }
  }

  lemma {:induction false} FlattenLast(chunks: seq<seq<u8>>)
    requires chunks != []
    ensures Flatten(chunks) == Flatten(chunks[..|chunks| - 1]) + chunks[|chunks| - 1]
    decreases |chunks|
  {
    if |chunks| > 1 {
      FlattenLast(chunks[1..]);
      assert chunks[1..][..|chunks| - 2] == chunks[..|chunks| - 1][1..];
    } else {
      assert chunks[1..] == [];
    }
  }

  /** `readLoop`: the frames of each read go to the handler, until a read fails to parse. */
  method ReadLoop(chunks: seq<seq<u8>>) returns (handled: seq<Frame>)
    ensures handled == FedFrames(chunks).frames
  {
    hide Parse;
    var parser := new SessionFrameParser();
    handled := [];
    for i := 0 to |chunks|
      invariant FedFrames(chunks[..i]) == Parsed(handled, parser.buffer, None)
      invariant fresh(parser)
    {
      assert chunks[..i + 1][..i] == chunks[..i];
      var frames := parser.Append(chunks[i]);
      if frames.Err? {
        assert handled + [] == handled;
        FedStops(chunks, i + 1);
        return handled;
      }
      handled := handled + frames.value;
    }
    assert chunks[..|chunks|] == chunks;
  }

  lemma {:induction false} FedStops(chunks: seq<seq<u8>>, i: nat)
    requires i <= |chunks| && FedFrames(chunks[..i]).error.Some?
    ensures FedFrames(chunks) == FedFrames(chunks[..i])
    decreases |chunks|
  {
    if i < |chunks| {
      assert chunks[..|chunks| - 1][..i] == chunks[..i];
      FedStops(chunks[..|chunks| - 1], i);
    } else {
      assert chunks[..i] == chunks;
    }
  }

  /** Even when a read fails, what was handled is a prefix of what arrived. */
  lemma {:induction false} HandledPrefix(chunks: seq<seq<u8>>)
    ensures FedFrames(chunks).frames <= Parse(Flatten(chunks)).frames
    ensures FedFrames(chunks).error.None? ==> FedFrames(chunks) == Parse(Flatten(chunks))
    ensures FedFrames(chunks).error.Some? ==> Parse(Flatten(chunks)).error.Some?
    decreases |chunks|
  {
    hide Parse;
    if chunks != [] {
      var n := |chunks| - 1;
      FlattenLast(chunks);
      ParseAppend(Flatten(chunks[..n]), chunks[n]);
      HandledPrefix(chunks[..n]);
    } else {
      NothingToParse();
    }
  }

  // The header says how long the payload is, whether or not the app takes it.
  predicate Measured(f: Frame) {
    f.header.payloadLength == |f.payload|
  }

  /** Of a connection's bytes, however many arrive and however they are cut, the handler sees the frames
      written first, whole and in order: a torn frame at the end adds nothing. */
  lemma {:induction false} ConnectionPrefix(frames: seq<Frame>, torn: Frame, part: seq<u8>, n: nat)
    requires forall f :: f in frames ==> Measured(f)
    requires Measured(torn) && part < FrameBytes(torn) && n <= |StreamBytes(frames) + part|
    ensures Parse((StreamBytes(frames) + part)[..n]).frames <= frames
    decreases |frames|
  {
    hide FrameBytes, Parse;
    if frames == [] {
      assert (StreamBytes(frames) + part)[..n] == part[..n];
      TornFrame(torn, part[..n]);
    } else {
      var first, rest := FrameBytes(frames[0]), StreamBytes(frames[1..]) + part;
      assert StreamBytes(frames) + part == first + rest;
      if n < |first| {
        assert (first + rest)[..n] == first[..n];
        TornFrame(frames[0], first[..n]);
      } else if Framed(frames[0]) {
        assert (first + rest)[..n] == first + rest[..n - |first|];
        OneFrame(frames[0], rest[..n - |first|]);
        ConnectionPrefix(frames[1..], torn, part, n - |first|);
        assert frames == [frames[0]] + frames[1..];
      } else {
        OversizedFrame(frames[0], (first + rest)[..n]);
      }
    }
  }

  lemma TornFrame(f: Frame, part: seq<u8>)
    requires Measured(f) && part < FrameBytes(f)
    ensures Parse(part).frames == []
  {
    HeaderReadsBack(f.header);
    hide HeaderBytes, DecodeFrameHeader;
    if |part| >= HEADER_LENGTH {
      assert part[..HEADER_LENGTH] == FrameBytes(f)[..HEADER_LENGTH] == HeaderBytes(f.header);
    }
  }

  lemma OversizedFrame(f: Frame, b: seq<u8>)
    requires Measured(f) && !Framed(f) && FrameBytes(f) <= b
    ensures Parse(b).frames == []
  {
    HeaderReadsBack(f.header);
    hide HeaderBytes, DecodeFrameHeader;
    assert b[..HEADER_LENGTH] == FrameBytes(f)[..HEADER_LENGTH] == HeaderBytes(f.header);
  }

  /** The frames of a written stream, whatever the chunks. */
  lemma WrittenFramesArrive(frames: seq<Frame>, chunks: seq<seq<u8>>)
    requires forall f :: f in frames ==> Framed(f)
    requires Flatten(chunks) == StreamBytes(frames)
    ensures FedFrames(chunks) == Parsed(frames, [], None)
  {
    FramesReadBack(frames, []);
    assert StreamBytes(frames) + [] == StreamBytes(frames);
    assert frames + Parse([]).frames == frames;
    ChunksDoNotMatter(chunks);
  }

  /** With a bad header in the stream the cut does matter: the good frame before it is lost when both
      come in one call, and arrives when they come in two. */
  lemma BadHeaderLosesItsCall(f: Frame, bad: seq<u8>)
    requires Framed(f) && |bad| == HEADER_LENGTH && DecodeFrameHeader(bad).Err?
    ensures FedFrames([FrameBytes(f) + bad]).frames == []
    ensures FedFrames([FrameBytes(f), bad]).frames == [f]
  {
    hide FrameBytes, DecodeFrameHeader, Parse, FedFrames;
    BadHeader(bad);
    OneFrame(f, bad);
    OneFrame(f, []);
    NothingToParse();
    assert FrameBytes(f) + [] == FrameBytes(f) && [f] + [] == [f] && [] + bad == bad;
    FedOne(FrameBytes(f) + bad);
    FedOne(FrameBytes(f));
    FedTwo(FrameBytes(f), bad);
  }

  // However the bytes are cut, the handler sees the same frames.
  ghost predicate CutsAgree(b: seq<u8>) {
    forall chunks: seq<seq<u8>>, others: seq<seq<u8>> :: Flatten(chunks) == b && Flatten(others) == b ==>
      FedFrames(chunks).frames == FedFrames(others).frames
  }

  ghost predicate AlwaysAll(b: seq<u8>) {
    forall chunks: seq<seq<u8>> :: Flatten(chunks) == b ==> FedFrames(chunks).frames == Parse(b).frames
  }

  /** The exact condition for chunk invariance: no header is bad, or no frame stands before the bad one.
      Then every cut gives all frames there are. */
  lemma ChunkInvariance(b: seq<u8>)
    ensures CutsAgree(b) <==> Parse(b).error.None? || Parse(b).frames == []
    ensures AlwaysAll(b) <==> Parse(b).error.None? || Parse(b).frames == []
  {
    hide Parse, FedFrames, StreamBytes;
    if Parse(b).error.None? || Parse(b).frames == [] {
      forall chunks: seq<seq<u8>> | Flatten(chunks) == b ensures FedFrames(chunks).frames == Parse(b).frames {
        HandledPrefix(chunks);
      }
    } else {
      var frames, rest := Parse(b).frames, Parse(b).rest;
      var good := StreamBytes(frames);
      ParseConserves(b);
      OneCut(b);
      TwoCuts(good, rest);
      FramesReadBack(frames, []);
      NothingToParse();
      assert good + [] == good && frames + [] == frames;
      ParseAppend(good, rest);
      FedOne(b);
      FedOne(good);
      FedTwo(good, rest);
      assert FedFrames([b]).frames == [] && FedFrames([good, rest]).frames == frames;
    }
  }

  lemma OneCut(b: seq<u8>)
    ensures Flatten([b]) == b
  {
    assert [b][1..] == [];
  }

  lemma TwoCuts(a: seq<u8>, b: seq<u8>)
    ensures Flatten([a, b]) == a + b
  {
    assert [a, b][1..] == [b];
    OneCut(b);
  }

  lemma BadHeader(bad: seq<u8>)
    requires |bad| == HEADER_LENGTH && DecodeFrameHeader(bad).Err?
    ensures Parse(bad).frames == [] && Parse(bad).error.Some?
  {
    hide DecodeFrameHeader;
    assert bad[..HEADER_LENGTH] == bad;
  }

  lemma FedOne(chunk: seq<u8>)
    ensures var p := Parse(chunk);
      FedFrames([chunk]) == Parsed(if p.error.Some? then [] else p.frames, p.rest, p.error)
  {
    hide Parse;
    var none: seq<seq<u8>> := [];
    assert [chunk][..0] == none && [] + chunk == chunk;
    NoneBefore(Parse(chunk).frames);
  }

  lemma FedTwo(first: seq<u8>, second: seq<u8>)
    requires Parse(first).error.None?
    ensures var p := Parse(Parse(first).rest + second);
      FedFrames([first, second])
        == Parsed(FedFrames([first]).frames + (if p.error.Some? then [] else p.frames), p.rest, p.error)
  {
    FedOne(first);
    hide Parse;
    assert [first, second][..1] == [first];
  }
}
