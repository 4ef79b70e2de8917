/** The publisher of `src/stream.rs` and the `publish_update` of `src/main.rs`, imperatively, and what
    they write to the network byte by byte.  They are proved to take the steps of module LiveSession. */
module LivePublisher {
  import opened Prelude
  import opened SessionStream
  import opened LiveSession
  import opened LiveAccumulator
  import opened LiveCounts
  import opened LiveRender
  import Heap = HeapValidation
  import opened Pprof
  import Codec = PprofCodec
  import Export = HeapExport
  import HeapModel

  // What a connection attempt meets; a connection that is made takes `hello` bytes of the first frame.
  datatype Attempt = ConnectionRefused | ConnectionFailed | Connected(hello: nat)

  function FrameOf(kind: FrameKind, sequence: u64, payload: seq<u8>): (f: Frame)
    requires |payload| <= I64_MAX
    ensures Measured(f)
  {
    Frame(Header(1, 0, kind, 0, sequence, |payload|), payload)
  }

  /** The bytes of a published frame: the magic, version 1.0, the kind, no flags, the number and the length of the
      payload, and the payload behind them. */
  lemma PublishedBytes(kind: FrameKind, sequence: u64, payload: seq<u8>)
    requires |payload| <= I64_MAX
    ensures var b := FrameBytes(FrameOf(kind, sequence, payload));
      && |b| == 28 + |payload| && b[28..] == payload && b[..4] == [80, 80, 82, 83]
      && b[4] == 0 && b[5] == 1 && b[6] == 0 && b[7] == 0
      && WireCode(kind, 0x100 * b[8] + b[9]) && b[10] == 0 && b[11] == 0
      && Big(b, 12) == sequence && Big(b, 20) == |payload|
  {
    var h := FrameOf(kind, sequence, payload).header;
    HeaderLayout(h);
    hide HeaderBytes;
    assert |HeaderBytes(h)| == 28;
  }

  /** The bytes of a connection: whole frames, and at its end a torn one if a write failed. */
  ghost predicate Carries(bytes: seq<u8>, frames: seq<Frame>) {
    && (forall f :: f in frames ==> Measured(f))
    && exists torn, part :: Torn(bytes, frames, torn, part)
  }

  ghost predicate Torn(bytes: seq<u8>, frames: seq<Frame>, torn: Frame, part: seq<u8>) {
    Measured(torn) && part < FrameBytes(torn) && bytes == StreamBytes(frames) + part
  }

  // A whole frame, or a torn one.
  lemma CarriesMore(bytes: seq<u8>, frames: seq<Frame>, f: Frame, n: nat)
    requires bytes == StreamBytes(frames) && Measured(f) && forall g :: g in frames ==> Measured(g)
    requires n <= |FrameBytes(f)|
    ensures n == |FrameBytes(f)| ==>
      bytes + FrameBytes(f)[..n] == StreamBytes(frames + [f]) && Carries(bytes + FrameBytes(f)[..n], frames + [f])
    ensures n < |FrameBytes(f)| ==> Carries(bytes + FrameBytes(f)[..n], frames)
  {
    hide FrameBytes;
    StreamAppend(frames, f);
    if n == |FrameBytes(f)| {
      assert FrameBytes(f)[..n] == FrameBytes(f);
      assert Torn(bytes + FrameBytes(f)[..n], frames + [f], f, []);
    } else {
      assert Torn(bytes + FrameBytes(f)[..n], frames, f, FrameBytes(f)[..n]);
    }
  }

  // What a publisher has done to the network, in frames.
  datatype View = View(stream: Option<nat>, sequence: u64, frames: seq<seq<Frame>>)

  /** A connection is there, or the attempt makes one: it starts with a hello, and only one that is
      written whole is kept. */
  function ConnectView(v: View, attempt: Attempt, hello: seq<u8>): View
    requires |hello| <= I64_MAX
  {
    if v.stream.Some? then v
    else
      match attempt
      case ConnectionRefused => v
      case ConnectionFailed => v
      case Connected(taken) =>
        var number := NextSequence(v.sequence);
        if taken < HEADER_LENGTH + |hello| then View(None, number, v.frames + [[]])
        else View(Some(|v.frames|), number, v.frames + [[FrameOf(Hello, number, hello)]])
  }

  // `Ok(true)` when connected, `Ok(false)` when refused.
  function ConnectResult(v: View, attempt: Attempt, hello: seq<u8>): Result<bool, ()> {
    if v.stream.Some? then Ok(true)
    else
      match attempt
      case ConnectionRefused => Ok(false)
      case ConnectionFailed => Err(())
      case Connected(taken) => if taken < HEADER_LENGTH + |hello| then Err(()) else Ok(true)
  }

  /** A frame on the open connection: the sequence advances even when the write fails, and a failed write
      ends the connection. */
  function SendView(v: View, kind: FrameKind, payload: seq<u8>, taken: nat): View
    requires |payload| <= I64_MAX && v.stream.Some? && v.stream.value < |v.frames|
  {
    var c, number := v.stream.value, NextSequence(v.sequence);
    if taken < HEADER_LENGTH + |payload| then View(None, number, v.frames)
    else View(v.stream, number, v.frames[c := v.frames[c] + [FrameOf(kind, number, payload)]])
  }

  class SessionPublisher {
    const hello: seq<u8>
    var stream: Option<nat>
    var sequence: u64
    var justConnected: bool
    // How many connections were made; the number of a connection stands for its socket.
    var connections: nat
    // The bytes on each connection so far, and the whole frames they carry.
    ghost var wires: seq<seq<u8>>
    ghost var frames: seq<seq<Frame>>

    ghost predicate Valid()
      reads this
    {
      && |hello| <= I64_MAX
      && |wires| == |frames| == connections
      && (forall c :: 0 <= c < |wires| ==> Carries(wires[c], frames[c]))
      && (stream.Some? ==> stream.value + 1 == |wires| && wires[stream.value] == StreamBytes(frames[stream.value]))
    }

    ghost function Seen(): View
      reads this
    {
      View(stream, sequence, frames)
    }

    constructor (hello: seq<u8>)
      requires |hello| <= I64_MAX
      ensures Valid() && this.hello == hello && Seen() == View(None, 0, []) && !justConnected
    {
      this.hello := hello;
      stream := None;
      sequence := 0;
      justConnected := false;
      connections := 0;
      wires := [];
      frames := [];
    }

    /** `write_frame`: the header, then the payload; the connection takes `taken` bytes of them. */
    method WriteFrame(c: nat, kind: FrameKind, number: u64, payload: seq<u8>, taken: nat) returns (ok: bool)
      requires c < |wires| && |payload| <= I64_MAX
      modifies this`wires
      ensures var bytes := FrameBytes(FrameOf(kind, number, payload));
        && wires == old(wires)[c := old(wires)[c] + bytes[..Min(taken, |bytes|)]]
        && (ok <==> taken >= |bytes|)
    {
      hide HeaderBytes;
      var header := HeaderBytes(Header(1, 0, kind, 0, number, |payload|));
      ghost var bytes := header + payload;
      wires := wires[c := wires[c] + header[..Min(taken, |header|)]];
      if taken < |header| {
        assert bytes[..taken] == header[..taken];
        return false;
      }
      var left := taken - |header|;
      wires := wires[c := wires[c] + payload[..Min(left, |payload|)]];
      assert header[..|header|] == header;
      assert bytes[..Min(taken, |bytes|)] == header + payload[..Min(left, |payload|)];
      assert wires[c] == old(wires)[c] + (header + payload[..Min(left, |payload|)]);
      ok := left >= |payload|;
    }

    /** `connect`: a hello that is not written whole is an error, and the connection is dropped. */
    method Connect(attempt: Attempt) returns (r: Result<bool, ()>)
      requires Valid() && stream.None?
      modifies this
      ensures Valid() && Seen() == ConnectView(old(Seen()), attempt, hello)
      ensures r == ConnectResult(old(Seen()), attempt, hello)
      ensures justConnected <==> old(justConnected) || r == Ok(true)
    {
      hide StreamBytes, FrameBytes;
      if attempt.ConnectionRefused? {
        return Ok(false);
      }
      if attempt.ConnectionFailed? {
        return Err(());
      }
      var c := connections;
      connections := connections + 1;
      sequence := NextSequence(sequence);
      wires := wires + [[]];
      var f := FrameOf(Hello, sequence, hello);
      StreamBytesOfNone();
      CarriesMore([], [], f, Min(attempt.hello, |FrameBytes(f)|));
      var written := WriteFrame(c, Hello, sequence, hello, attempt.hello);
      assert [] + FrameBytes(f)[..Min(attempt.hello, |FrameBytes(f)|)] == wires[c];
      if !written {
        frames := frames + [[]];
        return Err(());
      }
      assert [] + [f] == [f];
      frames := frames + [[f]];
      stream := Some(c);
      justConnected := true;
      r := Ok(true);
    }

    method EnsureConnected(attempt: Attempt) returns (r: Result<bool, ()>)
      requires Valid()
      modifies this
      ensures Valid() && Seen() == ConnectView(old(Seen()), attempt, hello)
      ensures r == ConnectResult(old(Seen()), attempt, hello)
    {
      if stream.Some? {
        return Ok(true);
      }
      r := Connect(attempt);
    }

    /** `send`: connects if it must, then writes one frame.  A broken connection is no error to the caller;
        `transient` says that the write failed in such a way. */
    method Send(kind: FrameKind, payload: seq<u8>, attempt: Attempt, taken: nat,
                transient: bool) returns (r: Result<bool, ()>)
      requires Valid() && |payload| <= I64_MAX
      modifies this
      ensures Valid()
      ensures var connected := ConnectView(old(Seen()), attempt, hello);
        if connected.stream.None? then Seen() == connected && r == ConnectResult(old(Seen()), attempt, hello)
        else
          && Seen() == SendView(connected, kind, payload, taken)
          && r == if taken >= HEADER_LENGTH + |payload| then Ok(true) else if transient then Ok(false) else Err(())
    {
      hide StreamBytes, FrameBytes;
      if stream.None? {
        var connected := Connect(attempt);
        if connected != Ok(true) {
          return connected;
        }
      }
      var c := stream.value;
      sequence := NextSequence(sequence);
      var f := FrameOf(kind, sequence, payload);
      CarriesMore(wires[c], frames[c], f, Min(taken, |FrameBytes(f)|));
      var written := WriteFrame(c, kind, sequence, payload, taken);
      if !written {
        stream := None;
        return if transient then Ok(false) else Err(());
      }
      frames := frames[c := frames[c] + [f]];
      r := Ok(true);
    }
  }

  lemma StreamBytesOfNone()
    ensures StreamBytes([]) == []
  {
  }

  // ----- Publishing -----

  /** The machine's profiler side is this cursor and this publisher. */
  ghost predicate Refines(cursor: RawProfileCursor, publisher: SessionPublisher, s: State)
    reads cursor, publisher
  {
    s.cursor == cursor.counts && Follows(publisher.Seen(), s)
  }

  ghost predicate Follows(v: View, s: State) {
    && s.stream == v.stream && s.sequence == v.sequence && |s.wires| == |v.frames|
    && forall c :: 0 <= c < |s.wires| ==> AllConvey(v.frames[c], s.wires[c])
  }

  function Outcome(attempt: Attempt, length: nat): ConnectOutcome {
    match attempt
    case ConnectionRefused => Refused
    case ConnectionFailed => NoConnection
    case Connected(taken) => if taken < length then HelloBroken else HelloWritten
  }

  lemma HelloFollows(v: View, s: State, attempt: Attempt, hello: seq<u8>)
    requires Follows(v, s) && |hello| <= I64_MAX
    ensures Follows(ConnectView(v, attempt, hello),
                    LiveSession.EnsureConnected(s, Outcome(attempt, HEADER_LENGTH + |hello|)))
  {
    hide Conveyed, FrameEntries;
  }

  lemma SendFollows(v: View, s: State, kind: FrameKind, payload: seq<u8>, delta: Snapshot, taken: nat)
    requires Follows(v, s) && |payload| <= I64_MAX && v.stream.Some? && v.stream.value < |v.frames|
    requires kind == ProfileDelta || kind == ProfileCheckpoint ==> Conveyed(IncomingEntries(AppDecode(payload)), delta)
    ensures Follows(SendView(v, kind, payload, taken), SendOn(s, kind, delta, taken >= HEADER_LENGTH + |payload|))
  {
    hide Conveyed, AppDecode, IncomingEntries;
    var f, p := FrameOf(kind, NextSequence(v.sequence), payload), Packet(kind, NextSequence(s.sequence), delta);
    assert Conveys(f, p);
    ConveyMore(v.frames[v.stream.value], s.wires[v.stream.value], f, p);
  }

  lemma ConveyMore(frames: seq<Frame>, packets: seq<Packet>, f: Frame, p: Packet)
    requires AllConvey(frames, packets) && Conveys(f, p)
    ensures AllConvey(frames + [f], packets + [p])
  {
    hide Conveys;
  }

  // Deltas of a timed snapshot are timed.
  lemma DeltaSendable(s: State)
    requires CursorInv(s)
    ensures Sendable(DeltaOf(s.cursor, s.snapshot))
  {
    hide Total, Stamps;
    var delta := DeltaOf(s.cursor, s.snapshot);
    forall k | k in delta && k.1 != [] ensures SeriesCount(delta[k]) == delta[k].count {
      assert Timed(s.snapshot[k]);
    }
  }

  lemma HelloLength(publisher: SessionPublisher)
    requires publisher.Valid()
    ensures |publisher.hello| <= I64_MAX
  {
  }

  // An open connection is the last one.
  lemma StreamValid(publisher: SessionPublisher)
    requires publisher.Valid()
    ensures publisher.stream.Some? ==> publisher.stream.value + 1 == |publisher.frames|
  {
    hide Carries;
  }

  lemma StreamFollows(v: View, s: State)
    requires Follows(v, s)
    ensures s.stream == v.stream && |s.wires| == |v.frames|
  {
    hide AllConvey;
  }

  lemma ConnectedStream(v: View, attempt: Attempt, hello: seq<u8>)
    requires |hello| <= I64_MAX
    ensures ConnectResult(v, attempt, hello) == Ok(true) <==> ConnectView(v, attempt, hello).stream.Some?
  {
  }

  lemma AlreadyConnected(v: View, attempt: Attempt, hello: seq<u8>)
    requires |hello| <= I64_MAX && v.stream.Some?
    ensures ConnectView(v, attempt, hello) == v
  {
  }

  // What was committed is no part of what the publisher did.
  lemma FollowsCommitted(v: View, s: State)
    requires Follows(v, s)
    ensures forall cursor, committed :: Follows(v, s.(cursor := cursor, committed := committed))
  {
    hide AllConvey;
  }

  lemma ConnectKeepsProfile(s: State, connect: ConnectOutcome)
    ensures var t := LiveSession.EnsureConnected(s, connect); t.cursor == s.cursor && t.snapshot == s.snapshot
  {
  }

  lemma SendKeepsProfile(s: State, kind: FrameKind, delta: Snapshot, written: bool)
    requires s.stream.Some? && s.stream.value < |s.wires|
    ensures var t := SendOn(s, kind, delta, written); t.cursor == s.cursor && t.committed == s.committed
  {
  }

  /** `publish_update`, once the snapshot is taken: connect, take the delta on a copy of the cursor, render
      it, send it, and keep the copy only if that worked.  `payload` is what it tried to send.  It takes the
      machine's step, and the app will count in the frame exactly what the machine's packet says. */
  method PublishUpdate(profile: Snapshot, c: Context, symbolize: u64 -> Option<FrameInfo>, cursor: RawProfileCursor,
                       publisher: SessionPublisher, attempt: Attempt, taken: nat, transient: bool, ghost s: State)
    returns (stopped: bool, payload: seq<u8>, ghost d: SymbolicatedProfile)
    requires publisher.Valid() && Refines(cursor, publisher, s) && s.snapshot == profile && CursorInv(s)
    requires ContextOk(c, symbolize)
    modifies cursor, publisher
    ensures var connect := Outcome(attempt, HEADER_LENGTH + |publisher.hello|);
      var delta := DeltaOf(s.cursor, s.snapshot);
      && (stopped ==> Symbolicated(d, delta, c, symbolize) && Unrendered(d))
      && (!stopped ==>
            && publisher.Valid()
            && Refines(cursor, publisher, LiveSession.PublishUpdate(s, connect, taken >= HEADER_LENGTH + |payload|))
            && (LiveSession.EnsureConnected(s, connect).stream.Some? && delta != map[] ==>
                  && Symbolicated(d, delta, c, symbolize)
                  && IncomingEntries(AppDecode(payload)) == EntriesFor(InOrder(d), |d.samples|)))
  {
    hide DeltaOf, Advanced, SessionPublisher.Valid, Symbolicated, Unrendered, ContextOk, AppDecode, IncomingEntries,
         EntriesFor, Conveyed, Sendable, Follows, ConnectView, SendView, CursorInv, SendOn;
    stopped, payload := false, [];
    d := SymbolicatedProfile([], map[], map[], [], 0, 0, 0);
    ghost var connect := Outcome(attempt, HEADER_LENGTH + |publisher.hello|);
    ghost var before, t := publisher.Seen(), LiveSession.EnsureConnected(s, connect);
    HelloLength(publisher);
    HelloFollows(before, s, attempt, publisher.hello);
    ConnectKeepsProfile(s, connect);
    var connected := publisher.EnsureConnected(attempt);
    ghost var after := publisher.Seen();
    StreamFollows(after, t);
    ConnectedStream(before, attempt, publisher.hello);
    if connected != Ok(true) {
      return;
    }
    var candidate := new RawProfileCursor(cursor.counts);
    var delta := candidate.Delta(profile);
    if delta.None? {
      return;
    }
    var rendered: Option<seq<u8>>;
    rendered, d := Render(delta.value, c, symbolize);
    if rendered.None? {
      stopped := true;
      return;
    }
    payload := rendered.value;
    DeltaSendable(s);
    StreamValid(publisher);
    SendFollows(after, t, ProfileDelta, payload, delta.value, taken);
    AlreadyConnected(after, attempt, publisher.hello);
    var sent := publisher.Send(ProfileDelta, payload, attempt, taken, transient);
    ghost var u := SendOn(t, ProfileDelta, delta.value, taken >= HEADER_LENGTH + |payload|);
    SendKeepsProfile(t, ProfileDelta, delta.value, taken >= HEADER_LENGTH + |payload|);
    FollowsCommitted(publisher.Seen(), u);
    if sent == Ok(true) {
      cursor.counts := candidate.counts;
    }
  }

  // Samples that name no thread count for no thread.
  lemma NoThreads(entries: seq<Entry>)
    requires forall e :: e in entries ==> KeyOf(e.0).None?
    ensures Conveyed(entries, map[])
  {
    hide KeyOf;
    forall k: Key ensures Selected(entries, OfKey(k), 0) == 0 {
      NoThreadsOf(entries, k);
    }
  }

  lemma {:induction false} NoThreadsOf(entries: seq<Entry>, k: Key)
    requires forall e :: e in entries ==> KeyOf(e.0).None?
    ensures Selected(entries, OfKey(k), 0) == 0
  {
    hide KeyOf;
    if entries != [] {
      NoThreadsOf(entries[..|entries| - 1], k);
    }
  }

  // The labels of an exported sample name the heap's domain.
  lemma ExportedEntry(p: Profile, l: Label, domain: Text, comment: Text, time: i64,
                      samples: map<HeapModel.Stack, HeapModel.HeapValues>, stacks: seq<HeapModel.Stack>,
                      images: seq<HeapModel.HeapMapping>, j: nat)
    requires Export.Exports(p, l, domain, comment, time, samples, stacks, images) && j < |p.samples|
    ensures KeyOf(IncomingEntries(AppProfile(p))[j].0).None?
  {
    hide Export.TablesOk, Export.SamplesShown, Export.ImagesShown, Export.Enumerates, IncomingLocations, Known;
    Export.ExportedSample(p, l, domain, comment, time, samples, stacks, images, p.samples[j]);
    var labels := IncomingSample(AppProfile(p), AppSample(p.samples[j])).labels;
    assert labels[0].key == Export.HEAP && |Export.HEAP| != |THREAD_ID|;
  }

  /** An exported heap profile counts for no thread: the app's counts of threads are those of an empty
      snapshot, so that this is what its checkpoint stands for. */
  lemma ExportConveysNothing(p: Profile, l: Label, domain: Text, comment: Text, time: i64,
                             samples: map<HeapModel.Stack, HeapModel.HeapValues>, stacks: seq<HeapModel.Stack>,
                             images: seq<HeapModel.HeapMapping>)
    requires Export.Exports(p, l, domain, comment, time, samples, stacks, images) && |Codec.Encode(p)| <= I64_MAX
    ensures Conveyed(IncomingEntries(AppDecode(Codec.Encode(p))), map[])
  {
    hide Export.Exports, AppProfile, Codec.Encode, Codec.Decode, KeyOf, IncomingEntries, Conveyed;
    Export.ExportDecodesBack(p, l, domain, comment, time, samples, stacks, images);
    EntryPerSample(p);
    var entries := IncomingEntries(AppProfile(p));
    forall e | e in entries ensures KeyOf(e.0).None? {
      var j :| 0 <= j < |entries| && entries[j] == e;
      ExportedEntry(p, l, domain, comment, time, samples, stacks, images, j);
    }
    NoThreads(entries);
  }

  lemma EntryPerSample(p: Profile)
    ensures |IncomingEntries(AppProfile(p))| == |p.samples|
  {
  }

  /** `publish_heap_checkpoint`: a profile that is not accepted is not sent; any other is sent whole, and
      that is the machine's checkpoint with whatever the app counts in it. */
  method PublishHeapCheckpoint(profile: Profile, publisher: SessionPublisher, attempt: Attempt, taken: nat,
                               transient: bool,
                               ghost cursor: RawProfileCursor, ghost s: State)
    returns (stopped: bool, r: Result<bool, ()>)
    requires publisher.Valid() && Refines(cursor, publisher, s)
    modifies publisher
    ensures !Heap.Accepts(profile) ==> !stopped && r == Err(()) && publisher.Seen() == old(publisher.Seen())
    ensures stopped ==> |Codec.Encode(profile)| > I64_MAX
    ensures !stopped ==> publisher.Valid()
    ensures Heap.Accepts(profile) && !stopped ==>
      && (r == Ok(true) <==>
            && ConnectView(old(publisher.Seen()), attempt, publisher.hello).stream.Some?
            && taken >= HEADER_LENGTH + |Codec.Encode(profile)|)
      && forall content | Conveyed(IncomingEntries(AppDecode(Codec.Encode(profile))), content) ::
           Refines(cursor, publisher, LiveSession.PublishCheckpoint(s, content,
             Outcome(attempt, HEADER_LENGTH + |publisher.hello|), taken >= HEADER_LENGTH + |Codec.Encode(profile)|))
  {
    hide SessionPublisher.Valid, Heap.Accepts, AppDecode, IncomingEntries, Conveyed, Follows, ConnectView, SendView,
         SendOn, Codec.Encode;
    stopped, r := false, Err(());
    var accepted := Heap.ValidateProfile(profile);
    if !accepted {
      return;
    }
    var payload := Codec.EncodeProfile(profile);
    if |payload| > I64_MAX {
      stopped := true;
      return;
    }
    ghost var connect := Outcome(attempt, HEADER_LENGTH + |publisher.hello|);
    ghost var before, t := publisher.Seen(), LiveSession.EnsureConnected(s, connect);
    HelloLength(publisher);
    ghost var after := ConnectView(before, attempt, publisher.hello);
    HelloFollows(before, s, attempt, publisher.hello);
    ConnectKeepsProfile(s, connect);
    StreamFollows(after, t);
    LastConnection(publisher, attempt);
    ConnectedStream(before, attempt, publisher.hello);
    r := publisher.Send(ProfileCheckpoint, payload, attempt, taken, transient);
    forall content | Conveyed(IncomingEntries(AppDecode(payload)), content)
      ensures Refines(cursor, publisher,
                      LiveSession.PublishCheckpoint(s, content, connect, taken >= HEADER_LENGTH + |payload|))
    {
      if after.stream.Some? {
        SendFollows(after, t, ProfileCheckpoint, payload, content, taken);
        SendKeepsProfile(t, ProfileCheckpoint, content, taken >= HEADER_LENGTH + |payload|);
        FollowsCheckpoint(publisher.Seen(), SendOn(t, ProfileCheckpoint, content, taken >= HEADER_LENGTH + |payload|));
      }
    }
  }

  lemma LastConnection(publisher: SessionPublisher, attempt: Attempt)
    requires publisher.Valid()
    ensures var after := ConnectView(publisher.Seen(), attempt, publisher.hello);
      after.stream.Some? ==> after.stream.value < |after.frames|
  {
    hide Carries;
  }

  lemma FollowsCheckpoint(v: View, s: State)
    requires Follows(v, s)
    ensures forall checkpoints :: Follows(v, s.(checkpoints := checkpoints))
  {
    hide AllConvey;
  }

  /** A frame that is no profile and no hello: `send`, as the profiler calls it when it finishes. */
  method SendOther(kind: FrameKind, payload: seq<u8>, publisher: SessionPublisher, attempt: Attempt, taken: nat,
                   transient: bool, ghost cursor: RawProfileCursor, ghost s: State)
    returns (r: Result<bool, ()>)
    requires publisher.Valid() && Refines(cursor, publisher, s) && |payload| <= I64_MAX
    requires kind != Hello && kind != ProfileCheckpoint && kind != ProfileDelta
    modifies publisher
    ensures publisher.Valid()
    ensures var t := LiveSession.EnsureConnected(s, Outcome(attempt, HEADER_LENGTH + |publisher.hello|));
      && (t.stream.Some? ==> t.stream.value < |t.wires|)
      && Refines(cursor, publisher,
                 if t.stream.None? then t else SendOn(t, kind, map[], taken >= HEADER_LENGTH + |payload|))
  {
    hide SessionPublisher.Valid, AppDecode, IncomingEntries, Conveyed, Follows, ConnectView, SendView, SendOn;
    ghost var connect := Outcome(attempt, HEADER_LENGTH + |publisher.hello|);
    ghost var before, t := publisher.Seen(), LiveSession.EnsureConnected(s, connect);
    HelloLength(publisher);
    ghost var after := ConnectView(before, attempt, publisher.hello);
    HelloFollows(before, s, attempt, publisher.hello);
    ConnectKeepsProfile(s, connect);
    StreamFollows(after, t);
    LastConnection(publisher, attempt);
    r := publisher.Send(kind, payload, attempt, taken, transient);
    if after.stream.Some? {
      SendFollows(after, t, kind, payload, map[], taken);
      SendKeepsProfile(t, kind, map[], taken >= HEADER_LENGTH + |payload|);
    }
  }
}
