/** The app's side of a live session, `SessionCoordinator.swift`, imperatively: one session's runtime with
    its accumulator, the connections that belong to it, and the bytes of its journal.  It is proved to take
    the steps of module LiveSession, and what it shows is proved to count what the machine counts. */
module LiveReceiver {
  import opened Prelude
  import opened SessionStream
  import opened LiveSession
  import opened LiveAccumulator
  import opened LiveCounts
  import opened LiveRender

  // ----- What a runtime holds -----

  // A checkpoint replaces what is there, a delta is merged into it.
  function Applied(applied: seq<Frame>, f: Frame): seq<Frame> {
    if f.header.kind == ProfileCheckpoint then [f]
    else if f.header.kind == ProfileDelta then applied + [f]
    else applied
  }

  // All samples of some frames.
  function AllEntries(frames: seq<Frame>): seq<Entry> {
    if frames == [] then [] else AllEntries(frames[..|frames| - 1]) + FrameEntries(frames[|frames| - 1])
  }

  /** Taking the frame leaves no total outside int64. */
  ghost predicate Takes(applied: seq<Frame>, f: Frame) {
    && (f.header.kind == ProfileCheckpoint ==> FitsAll([], FrameEntries(f)))
    && (f.header.kind == ProfileDelta ==> FitsAll(AllEntries(applied), FrameEntries(f)))
  }

  function ReplayFrames(frames: seq<Frame>): seq<Frame> {
    if frames == [] then [] else Applied(ReplayFrames(frames[..|frames| - 1]), frames[|frames| - 1])
  }

  // The largest sequence of the profile frames.
  function LastOf(frames: seq<Frame>): u64 {
    if frames == [] then 0
    else
      var f, last := frames[|frames| - 1], LastOf(frames[..|frames| - 1]);
      if f.header.kind == ProfileCheckpoint || f.header.kind == ProfileDelta then Max(last, f.header.sequence) else last
  }

  /** Every frame can be taken after those before it. */
  ghost predicate Replays(frames: seq<Frame>) {
    forall i :: 0 <= i < |frames| ==> Takes(ReplayFrames(frames[..i]), frames[i])
  }

  lemma FitsSame(a: seq<Entry>, b: seq<Entry>, entries: seq<Entry>)
    requires SameSums(a, b)
    ensures FitsAll(a, entries) <==> FitsAll(b, entries)
  {
    hide SumOf;
    forall n | 0 <= n < |entries| ensures FitsAt(a, entries, n) <==> FitsAt(b, entries, n) {
    }
  }

  lemma AddsSame(before: seq<Entry>, after: seq<Entry>, all: seq<Entry>, entries: seq<Entry>)
    requires SameSums(before, all) && AddsAll(before, after, entries)
    ensures SameSums(after, all + entries)
  {
    hide SumOf;
    forall m, i: nat ensures SumOf(after, m, i) == SumOf(all + entries, m, i) {
      SumConcat(all, entries, m, i);
    }
  }

  lemma AllEntriesNext(frames: seq<Frame>, f: Frame)
    ensures AllEntries(frames + [f]) == AllEntries(frames) + FrameEntries(f)
    ensures AllEntries([f]) == [] + FrameEntries(f)
  {
    hide FrameEntries;
    assert (frames + [f])[..|frames|] == frames;
    assert [f][..0] == [];
  }

  class RuntimeSession {
    var accumulator: LiveProfileAccumulator
    var lastSequence: u64
    // The frames that the accumulator holds.
    ghost var applied: seq<Frame>

    /** For every meaning and every value, the accumulator has exactly the sum over the frames it holds. */
    ghost predicate Valid()
      reads this, accumulator
    {
      && LiveAccumulator.Valid(accumulator.View()) && HeaderOk(accumulator.profile)
      && SameSums(EntriesOf(accumulator.profile), AllEntries(applied))
    }

    ghost predicate Holds(r: Runtime)
      reads this
    {
      lastSequence == r.last && AllConvey(applied, r.applied)
    }

    constructor ()
      ensures Valid() && fresh(accumulator) && lastSequence == 0 && applied == []
    {
      accumulator := new LiveProfileAccumulator();
      lastSequence := 0;
      applied := [];
      new;
      assert EntriesOf(accumulator.profile) == [];
    }

    /** The frame's number, and if it is a profile its content: decoded and merged, or put in place of what is
        there.  Stops only on overflow. */
    method Take(f: Frame, last: u64) returns (ok: bool)
      requires Valid()
      modifies this`applied, this`lastSequence, accumulator
      ensures ok <==> Takes(old(applied), f)
      ensures ok ==> Valid() && applied == Applied(old(applied), f) && lastSequence == last
    {
      hide LiveAccumulator.Valid, HeaderOk, EntriesOf, FitsAll, AddsAll, SameSums, AllEntries, AppDecode,
           IncomingEntries;
      AllEntriesNext(applied, f);
      ok := true;
      lastSequence := last;
      ghost var before := EntriesOf(accumulator.profile);
      if f.header.kind == ProfileCheckpoint {
        ok := accumulator.Replace(AppDecode(f.payload));
        if ok {
          SameAsNothing();
          AddsSame([], EntriesOf(accumulator.profile), [], FrameEntries(f));
          applied := [f];
        }
      } else if f.header.kind == ProfileDelta {
        FitsSame(before, AllEntries(applied), FrameEntries(f));
        ok := accumulator.Merge(AppDecode(f.payload));
        if ok {
          AddsSame(before, EntriesOf(accumulator.profile), AllEntries(applied), FrameEntries(f));
          applied := applied + [f];
        }
      }
    }
  }

  lemma SameAsNothing()
    ensures SameSums([], [])
  {
  }

  // ----- The journal -----

  lemma ReplayFramesNext(frames: seq<Frame>, i: nat)
    requires i < |frames|
    ensures ReplayFrames(frames[..i + 1]) == Applied(ReplayFrames(frames[..i]), frames[i])
    ensures LastOf(frames[..i + 1]) ==
      if frames[i].header.kind == ProfileCheckpoint || frames[i].header.kind == ProfileDelta
      then Max(LastOf(frames[..i]), frames[i].header.sequence) else LastOf(frames[..i])
  {
    assert frames[..i + 1][..i] == frames[..i];
  }

  lemma NothingReplays(frames: seq<Frame>)
    ensures ReplayFrames(frames[..0]) == [] && LastOf(frames[..0]) == 0
  {
  }

  method ReplayAll(frames: seq<Frame>) returns (ok: bool, runtime: RuntimeSession)
    ensures ok <==> Replays(frames)
    ensures ok ==>
      && fresh(runtime) && fresh(runtime.accumulator) && runtime.Valid()
      && runtime.applied == ReplayFrames(frames) && runtime.lastSequence == LastOf(frames)
  {
    hide RuntimeSession.Valid, Takes, Applied, ReplayFrames, LastOf;
    ok := true;
    runtime := new RuntimeSession();
    NothingReplays(frames);
    for i := 0 to |frames|
      invariant fresh(runtime) && fresh(runtime.accumulator) && runtime.Valid()
      invariant runtime.applied == ReplayFrames(frames[..i]) && runtime.lastSequence == LastOf(frames[..i])
      invariant forall j :: 0 <= j < i ==> Takes(ReplayFrames(frames[..j]), frames[j])
    {
      var f := frames[i];
      ReplayFramesNext(frames, i);
      if f.header.kind == ProfileCheckpoint || f.header.kind == ProfileDelta {
        ok := runtime.Take(f, Max(runtime.lastSequence, f.header.sequence));
        if !ok {
          return;
        }
      } else {
        OthersAside(ReplayFrames(frames[..i]), f);
      }
    }
    assert frames[..|frames|] == frames;
  }

  /** `replayJournal`, on the bytes of the file: nothing for a file that does not parse, otherwise a runtime
      that holds what replaying its frames holds.  Stops only on overflow. */
  method ReplayJournal(journal: seq<u8>) returns (ok: bool, runtime: RuntimeSession?)
    ensures var p := Parse(journal);
      && (ok <==> p.error.Some? || Replays(p.frames))
      && (ok && p.error.Some? ==> runtime == null)
      && (ok && p.error.None? ==>
            && runtime != null && fresh(runtime) && fresh(runtime.accumulator) && runtime.Valid()
            && runtime.applied == ReplayFrames(p.frames) && runtime.lastSequence == LastOf(p.frames))
  {
    hide RuntimeSession.Valid, Replays, ReplayFrames, LastOf, Parse;
    ok, runtime := true, null;
    var parser := new SessionFrameParser();
    var parsed := parser.Append(journal);
    assert [] + journal == journal;
    if parsed.Ok? {
      ok, runtime := ReplayAll(parsed.value);
    }
  }

  lemma OthersAside(applied: seq<Frame>, f: Frame)
    ensures f.header.kind != ProfileCheckpoint && f.header.kind != ProfileDelta ==>
      Takes(applied, f) && Applied(applied, f) == applied
  {
  }

  // ----- The coordinator -----

  lemma {:induction false} ReplayConveys(frames: seq<Frame>, packets: seq<Packet>)
    requires AllConvey(frames, packets)
    ensures AllConvey(ReplayFrames(frames), Replay(packets).applied) && LastOf(frames) == Replay(packets).last
  {
    hide Conveyed, FrameEntries, MergeCounts, ReplaceCounts;
    if frames != [] {
      var n := |frames| - 1;
      assert forall i :: 0 <= i < n ==> frames[..n][i] == frames[i] && packets[..n][i] == packets[i];
      ReplayConveys(frames[..n], packets[..n]);
      AppliedConveys(ReplayFrames(frames[..n]), Replay(packets[..n]), frames[n], packets[n]);
    }
  }

  lemma AppliedConveys(applied: seq<Frame>, r: Runtime, f: Frame, p: Packet)
    requires AllConvey(applied, r.applied) && Conveys(f, p)
    ensures AllConvey(Applied(applied, f), Accumulate(r, p).applied) && Accumulate(r, p).last == r.last
  {
    hide Conveyed, FrameEntries, MergeCounts, ReplaceCounts;
  }

  class SessionCoordinator {
    var connectionSessions: set<nat>
    var runtime: RuntimeSession?
    // The bytes of the journal's file, and what the store has of the session.
    var journal: seq<u8>
    var stored: Stored
    // The frames that were appended to it.
    ghost var journaled: seq<Frame>

    ghost predicate Valid()
      reads this, runtime, if runtime == null then {} else {runtime.accumulator}
    {
      && (runtime != null ==> runtime.Valid())
      && (stored.NoSession? ==> runtime == null && journaled == [])
      && journal == StreamBytes(journaled) && forall f :: f in journaled ==> Framed(f)
    }

    /** This is the app's side of the machine. */
    ghost predicate Refines(s: State)
      reads this, runtime
    {
      && connectionSessions == s.greeted && stored == s.stored
      && AllConvey(journaled, s.journal)
      && (runtime == null <==> s.runtime.None?)
      && (runtime != null ==> runtime.Holds(s.runtime.value))
    }

    /** A journal that has a path can be replayed, and that gives what the app has. */
    ghost predicate Kept()
      reads this, runtime
    {
      stored == Session(true) ==> Replays(journaled) && (runtime != null ==> runtime.applied == ReplayFrames(journaled))
    }

    // The app as it starts: all it has of an earlier life is the store and the journal.
    constructor (journal: seq<u8>, stored: Stored, ghost journaled: seq<Frame>)
      requires journal == StreamBytes(journaled) && forall f :: f in journaled ==> Framed(f)
      requires stored.NoSession? ==> journaled == []
      ensures Valid() && runtime == null && connectionSessions == {}
      ensures this.journal == journal && this.stored == stored && this.journaled == journaled
    {
      connectionSessions := {};
      runtime := null;
      this.journal := journal;
      this.stored := stored;
      this.journaled := journaled;
    }

    // A runtime for a session that has none: from its journal, if it has a path to one.
    method Restore(ghost s: State) returns (ok: bool)
      requires Valid() && Refines(s) && runtime == null
      modifies this`runtime
      ensures ok <==> stored != Session(true) || Replays(journaled)
      ensures ok ==> runtime != null && fresh(runtime) && fresh(runtime.accumulator) && runtime.Valid()
      ensures ok ==> runtime.Holds(if stored == Session(true) then Replay(s.journal) else NEW_RUNTIME)
      ensures ok ==> runtime.applied == if stored == Session(true) then ReplayFrames(journaled) else []
    {
      hide RuntimeSession.Valid, AllConvey, Replay, ReplayFrames, LastOf, Replays, Parse, StreamBytes, Framed;
      ok := true;
      EmptyJournal();
      var restored: RuntimeSession? := null;
      if stored == Session(true) {
        FramesReadBack(journaled, []);
        NothingToParse();
        assert journal + [] == journal && journaled + [] == journaled;
        ReplayConveys(journaled, s.journal);
        ok, restored := ReplayJournal(journal);
        if !ok {
          return;
        }
      }
      if restored == null {
        restored := new RuntimeSession();
      }
      runtime := restored;
    }

    /** `receiveHello`: a session that has no runtime gets one back from its journal, if it has a path to it; a
        session that is not stored is stored with one. */
    method ReceiveHello(c: nat, ghost p: Packet, journaled: bool, ghost s: State) returns (ok: bool)
      requires Valid() && Refines(s) && p.kind == Hello
      modifies this`connectionSessions, this`runtime, this`stored
      ensures ok <==> old(runtime) != null || old(stored) != Session(true) || Replays(this.journaled)
      ensures old(Kept()) ==> ok
      ensures ok ==>
        && Valid() && Refines(LiveSession.Receive(s, c, p, journaled)) && (old(Kept()) ==> Kept())
        && (runtime == old(runtime) || (fresh(runtime) && fresh(runtime.accumulator)))
    {
      hide RuntimeSession.Valid, AllConvey, Replay, ReplayFrames, Replays, StreamBytes, Framed;
      ok := true;
      EmptyJournal();
      if runtime == null {
        ok := Restore(s);
        if !ok {
          return;
        }
      }
      connectionSessions := connectionSessions + {c};
      if stored.NoSession? {
        stored := Session(true);
      }
    }

    /** `receive`; `journaled` says whether the journal's file could be written. */
    method Receive(c: nat, f: Frame, journaled: bool, ghost p: Packet, ghost s: State) returns (ok: bool)
      requires Valid() && Refines(s) && Conveys(f, p) && Framed(f)
      modifies this, runtime, if runtime == null then {} else {runtime.accumulator}
      ensures ok <==>
        if f.header.kind == Hello
          then old(runtime) != null || old(stored) != Session(true) || Replays(old(this.journaled))
        else LiveSession.Accepts(s, c, p) ==> Takes(old(if runtime == null then [] else runtime.applied), f)
      ensures ok ==>
        && Valid() && Refines(LiveSession.Receive(s, c, p, journaled))
        && (old(Kept()) && (LiveSession.Accepts(s, c, p) && IsProfile(p) ==> journaled) ==> Kept())
        && (runtime == old(runtime) || (fresh(runtime) && fresh(runtime.accumulator)))
    {
      hide RuntimeSession.Valid, Takes, Replays, ReplayFrames, LastOf, Replay, StreamBytes, FrameBytes, Framed,
           AllConvey;
      ok := true;
      if f.header.kind == Hello {
        ok := ReceiveHello(c, p, journaled, s);
        return;
      }
      if c !in connectionSessions || runtime == null {
        return;
      }
      if f.header.sequence <= runtime.lastSequence {
        return;
      }
      ok := ReceiveNew(c, f, journaled, p, s);
    }

    // A frame that counts.
    method ReceiveNew(c: nat, f: Frame, journaled: bool, ghost p: Packet, ghost s: State) returns (ok: bool)
      requires Valid() && Refines(s) && Conveys(f, p) && Framed(f) && runtime != null && LiveSession.Accepts(s, c, p)
      modifies this`journal, this`stored, this`journaled, runtime, runtime.accumulator
      ensures ok <==> Takes(old(runtime.applied), f)
      ensures ok ==>
        && Valid() && Refines(LiveSession.Receive(s, c, p, journaled))
        && (old(Kept()) && (IsProfile(p) ==> journaled) ==> Kept())
    {
      hide RuntimeSession.Valid, Takes, Replays, ReplayFrames, StreamBytes, FrameBytes, Framed, AllConvey, Accumulate,
           Conveyed, FrameEntries;
      ghost var r := Accumulate(s.runtime.value.(last := p.sequence), p);
      AppliedConveys(runtime.applied, s.runtime.value.(last := p.sequence), f, p);
      OthersAside(runtime.applied, f);
      ok := runtime.Take(f, f.header.sequence);
      if !ok {
        return;
      }
      assert runtime.Holds(r);
      if f.header.kind == ProfileCheckpoint || f.header.kind == ProfileDelta {
        if journaled {
          JournalNext(this.journaled, s.journal, f, p);
          AppendJournal(f);
        }
      } else if f.header.kind == FinalProfile && journaled {
        EmptyJournal();
        journal := [];
        this.journaled := [];
        stored := PATHLESS;
      }
    }

    // `appendJournal`, when the file can be written.
    method AppendJournal(f: Frame)
      requires journal == StreamBytes(journaled) && Framed(f) && forall g :: g in journaled ==> Framed(g)
      modifies this`journal, this`journaled
      ensures journaled == old(journaled) + [f]
      ensures journal == StreamBytes(journaled) && forall g :: g in journaled ==> Framed(g)
    {
      hide FrameBytes, Framed;
      StreamAppend(journaled, f);
      journal := journal + FrameBytes(f);
      journaled := journaled + [f];
    }
  }

  lemma JournalNext(frames: seq<Frame>, packets: seq<Packet>, f: Frame, p: Packet)
    requires AllConvey(frames, packets) && Conveys(f, p)
    ensures AllConvey(frames + [f], packets + [p])
    ensures ReplayFrames(frames + [f]) == Applied(ReplayFrames(frames), f)
    ensures Replays(frames) && Takes(ReplayFrames(frames), f) ==> Replays(frames + [f])
  {
    hide Conveys, Takes;
    forall i | 0 <= i < |frames| ensures (frames + [f])[..i] == frames[..i] {
    }
    assert (frames + [f])[..|frames|] == frames;
  }

  lemma EmptyJournal()
    ensures StreamBytes([]) == [] && AllConvey([], []) && ReplayFrames([]) == [] && Replays([])
  {
  }

  // ----- What the app shows -----

  /** How often the accumulator has seen a thread on a stack. */
  ghost function AppShown(runtime: RuntimeSession, k: Key): int
    reads runtime, runtime.accumulator
  {
    Selected(EntriesOf(runtime.accumulator.profile), OfKey(k), 0)
  }

  lemma {:induction false} FramesCount(frames: seq<Frame>, packets: seq<Packet>, k: Key)
    requires AllConvey(frames, packets) && forall p :: p in packets ==> IsProfile(p)
    ensures Selected(AllEntries(frames), OfKey(k), 0) == if k.1 == [] then 0 else Total(packets, k)
  {
    hide Selected, OfKey, FrameEntries;
    if frames != [] {
      var n := |frames| - 1;
      assert forall i :: 0 <= i < n ==> frames[..n][i] == frames[i] && packets[..n][i] == packets[i];
      FramesCount(frames[..n], packets[..n], k);
      SelectedConcat(AllEntries(frames[..n]), FrameEntries(frames[n]), OfKey(k), 0);
      assert Conveys(frames[n], packets[n]) && packets[n] in packets;
    } else {
      NothingSelected(k);
    }
  }

  lemma NothingSelected(k: Key)
    ensures Selected([], OfKey(k), 0) == 0
  {
  }

  /** The accumulator of decoded profiles counts what the machine counts, stacks without an address aside. */
  lemma AppCounts(app: SessionCoordinator, s: State, k: Key)
    requires app.Valid() && app.Refines(s) && Inv(s) && app.runtime != null
    ensures AppShown(app.runtime, k) == if k.1 == [] then 0 else LiveSession.Shown(s, k)
  {
    hide CursorInv, WireInv, JournalInv, Total, Conveys, LiveAccumulator.Valid, HeaderOk, EntriesOf, SameSums,
         AllEntries, Selected;
    FramesCount(app.runtime.applied, s.runtime.value.applied, k);
    SameSelected(EntriesOf(app.runtime.accumulator.profile), AllEntries(app.runtime.applied), OfKey(k), 0);
  }

  /** In every run, across drops, reconnects, restarts and reordering: what the app's accumulator shows of a
      thread and a stack is no more than was restored by checkpoints and committed as deltas. */
  lemma AppShowsAtMostOnce(app: SessionCoordinator, s: State, steps: seq<Step>, k: Key)
    requires Initial(s) && CanRun(s, steps)
    requires app.Valid() && app.Refines(Run(s, steps)) && app.runtime != null
    ensures var t := Run(s, steps);
      && AppShown(app.runtime, k) <= Restored(t, k) + Counted(t.cursor, k)
      && (t.checkpoints == [] ==> AppShown(app.runtime, k) <= Counted(t.cursor, k) <= CountIn(t.snapshot, k))
  {
    hide Inv, CanRun, Run, Restored, SessionCoordinator.Valid, SessionCoordinator.Refines, AppShown;
    InitialInv(s);
    RunKeepsInv(s, steps);
    AppCounts(app, Run(s, steps), k);
    AtMostOnce(s, steps, k);
  }

  /** With everything delivered in order, it shows exactly what was sent since the last checkpoint, and
      without checkpoints exactly what the cursor has committed. */
  lemma AppShowsExactlyOnce(app: SessionCoordinator, s: State, steps: seq<Step>, k: Key)
    requires Initial(s) && CanRun(s, steps) && InTurn(s, steps) && k.1 != []
    requires Run(s, steps).sequence < U64_SIZE - 1
    requires |Run(s, steps).delivered| == |Run(s, steps).wires|
    requires forall i :: 0 <= i < |Run(s, steps).wires| ==> Run(s, steps).delivered[i] == |Run(s, steps).wires[i]|
    requires app.Valid() && app.Refines(Run(s, steps)) && app.runtime != null
    ensures AppShown(app.runtime, k) == Total(Since(Flat(Run(s, steps).wires)), k)
    ensures Run(s, steps).checkpoints == [] ==> AppShown(app.runtime, k) == Counted(Run(s, steps).cursor, k)
  {
    hide Inv, CanRun, Run, InTurn, SessionCoordinator.Valid, SessionCoordinator.Refines, AppShown;
    InitialInv(s);
    RunKeepsInv(s, steps);
    AppCounts(app, Run(s, steps), k);
    ExactlyOnceInOrder(s, steps, k);
  }

  /** While every profile frame that counted was journaled, an app that starts with the same journal has, after
      a hello, the same sum for every meaning of a sample and every value. */
  lemma JournalRestores(before: SessionCoordinator, after: SessionCoordinator, m: SampleMeaning, i: nat)
    requires before.Valid() && before.Kept() && before.stored == Session(true) && before.runtime != null
    requires after.Valid() && after.Kept() && after.stored == Session(true) && after.runtime != null
    requires after.journal == before.journal
    ensures SumOf(EntriesOf(after.runtime.accumulator.profile), m, i)
      == SumOf(EntriesOf(before.runtime.accumulator.profile), m, i)
  {
    hide LiveAccumulator.Valid, HeaderOk, EntriesOf, AllEntries, ReplayFrames, Framed, Parse, SumOf;
    NothingToParse();
    FramesReadBack(before.journaled, []);
    FramesReadBack(after.journaled, []);
    assert before.journaled + [] == before.journaled && after.journaled + [] == after.journaled;
    assert before.journaled == after.journaled;
  }
}
