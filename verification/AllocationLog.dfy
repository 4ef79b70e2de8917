/** The native allocation log: the fixed-size events that `src/heap/recorder.c` appends, and the
    incremental reader of `src/heap/linux.rs`. */
module AllocationLog {
  import opened Prelude
  import opened Words
  import opened HeapModel

  const HEADER: nat := 32
  const RECORD: nat := 552
  const STATUS_OFFSET: nat := 24
  const MAX_DEPTH: nat := 64

  // One `struct event`: 69 words.
  datatype Event = Event(kind: u64, address: u64, oldAddress: u64, size: u64, depth: u64, slots: seq<u64>) {

    function Words(): seq<u64> {
      [kind, address, oldAddress, size, depth] + slots
    }
  }

  // ----- Events in a log -----

  function EventAt(log: seq<u8>, k: nat): (e: Event)
    requires HEADER + RECORD * (k + 1) <= |log|
    ensures |e.slots| == MAX_DEPTH
  {
    var at := HEADER + RECORD * k;
    Event(Word(log, at), Word(log, at + 8), Word(log, at + 16), Word(log, at + 24), Word(log, at + 32),
          seq(MAX_DEPTH, i requires 0 <= i < MAX_DEPTH => Word(log, at + 40 + 8 * i)))
  }

  /** How many complete records a log holds. */
  function CompleteRecords(log: seq<u8>): nat
    requires |log| >= HEADER
  {
    (|log| - HEADER) / RECORD
  }

  /** The first `n` events. */
  function EventsOf(log: seq<u8>, n: nat): (events: seq<Event>)
    requires HEADER + RECORD * n <= |log|
    ensures |events| == n
  {
    if n == 0 then [] else EventsOf(log, n - 1) + [EventAt(log, n - 1)]
  }

  /** The log so far, with a header of any kind before the events. */
  function LogBytes(header: seq<u8>, events: seq<Event>): seq<u8> {
    if events == [] then header
    else LogBytes(header, events[..|events| - 1]) + WordsBytes(events[|events| - 1].Words())
  }

  lemma {:induction false} LogLength(header: seq<u8>, events: seq<Event>)
    requires |header| == HEADER
    requires forall e :: e in events ==> |e.slots| == MAX_DEPTH
    ensures |LogBytes(header, events)| == HEADER + RECORD * |events|
  {
    if events != [] {
      LogLength(header, events[..|events| - 1]);
    }
  }

  // The events of a log do not depend on what follows them, nor on the header.
  lemma EventAgrees(log: seq<u8>, other: seq<u8>, k: nat)
    requires HEADER + RECORD * (k + 1) <= |log| && HEADER + RECORD * (k + 1) <= |other|
    requires log[HEADER..HEADER + RECORD * (k + 1)] == other[HEADER..HEADER + RECORD * (k + 1)]
    ensures EventAt(log, k) == EventAt(other, k)
  {
    hide Word;
    var at, stop := HEADER + RECORD * k, HEADER + RECORD * (k + 1);
    WordAgrees(log, other, stop, at);
    WordAgrees(log, other, stop, at + 8);
    WordAgrees(log, other, stop, at + 16);
    WordAgrees(log, other, stop, at + 24);
    WordAgrees(log, other, stop, at + 32);
    forall i | 0 <= i < MAX_DEPTH ensures EventAt(log, k).slots[i] == EventAt(other, k).slots[i] {
      WordAgrees(log, other, stop, at + 40 + 8 * i);
    }
    assert EventAt(log, k).slots == EventAt(other, k).slots;
  }

  lemma WordAgrees(log: seq<u8>, other: seq<u8>, stop: nat, o: nat)
    requires HEADER <= o && o + 8 <= stop <= |log| && stop <= |other|
    requires log[HEADER..stop] == other[HEADER..stop]
    ensures Word(log, o) == Word(other, o)
  {
    hide FromLe;
    SliceOfSlice(log, HEADER, stop, o, o + 8);
    SliceOfSlice(other, HEADER, stop, o, o + 8);
    assert log[o..o + 8] == other[o..o + 8];
  }

  lemma {:induction false} EventsAgree(log: seq<u8>, other: seq<u8>, n: nat)
    requires HEADER + RECORD * n <= |log| && HEADER + RECORD * n <= |other|
    requires log[HEADER..HEADER + RECORD * n] == other[HEADER..HEADER + RECORD * n]
    ensures EventsOf(log, n) == EventsOf(other, n)
  {
    hide EventAt;
    if n > 0 {
      var stop := HEADER + RECORD * (n - 1);
      assert log[HEADER..stop] == log[HEADER..stop + RECORD][..stop - HEADER];
      assert other[HEADER..stop] == other[HEADER..stop + RECORD][..stop - HEADER];
      EventsAgree(log, other, n - 1);
      EventAgrees(log, other, n - 1);
    }
  }

  lemma EventsNext(log: seq<u8>, k: nat)
    requires HEADER + RECORD * (k + 1) <= |log|
    ensures EventsOf(log, k + 1) == EventsOf(log, k) + [EventAt(log, k)]
  {
    hide EventAt;
  }

  lemma EventReadsBack(before: seq<u8>, e: Event, after: seq<u8>, k: nat)
    requires |before| == HEADER + RECORD * k && |e.slots| == MAX_DEPTH
    ensures EventAt(before + WordsBytes(e.Words()) + after, k) == e
  {
    var log := before + WordsBytes(e.Words()) + after;
    var read := EventAt(log, k);
    WordsReadBack(before, e.Words(), after, 0);
    WordsReadBack(before, e.Words(), after, 1);
    WordsReadBack(before, e.Words(), after, 2);
    WordsReadBack(before, e.Words(), after, 3);
    WordsReadBack(before, e.Words(), after, 4);
    forall i | 0 <= i < MAX_DEPTH ensures read.slots[i] == e.slots[i] {
      WordsReadBack(before, e.Words(), after, i + 5);
      assert e.Words()[i + 5] == e.slots[i];
    }
    assert read.slots == e.slots;
  }

  lemma EventsExtend(before: seq<u8>, record: seq<u8>, torn: seq<u8>, n: nat)
    requires |before| == HEADER + RECORD * n
    ensures EventsOf(before + record + torn, n) == EventsOf(before, n)
  {
    var log := before + record + torn;
    assert log[HEADER..HEADER + RECORD * n] == before[HEADER..HEADER + RECORD * n];
    EventsAgree(before, log, n);
  }

  /** The reader sees exactly the events that were appended, and nothing of a torn last one. */
  lemma {:induction false} LogReadsBack(header: seq<u8>, events: seq<Event>, torn: seq<u8>)
    requires |header| == HEADER && |torn| < RECORD
    requires forall e :: e in events ==> |e.slots| == MAX_DEPTH
    ensures |LogBytes(header, events)| == HEADER + RECORD * |events|
    ensures CompleteRecords(LogBytes(header, events) + torn) == |events|
    ensures EventsOf(LogBytes(header, events) + torn, |events|) == events
    decreases |events|
  {
    hide EventAt, WordsBytes, Event.Words;
    LogLength(header, events);
    if events != [] {
      var n := |events| - 1;
      var before, record := LogBytes(header, events[..n]), WordsBytes(events[n].Words());
      var log := before + record + torn;
      LogReadsBack(header, events[..n], []);
      assert before + [] == before;
      EventReadsBack(before, events[n], torn, n);
      EventsExtend(before, record, torn, n);
      EventsNext(log, n);
      assert events == events[..n] + [events[n]];
    }
  }

  // ----- Replaying -----

  function Native(pc: u64): HeapFrame {
    HeapFrame(pc, [], [], 0, None)
  }

  const UNAVAILABLE: HeapFrame := HeapFrame(0, Ascii("[unavailable allocation stack]"), [], 0, None)

  // A backtrace, leaf first.
  function Backtrace(pcs: seq<u64>): (s: Stack)
    ensures s != []
  {
    if pcs == [] then [UNAVAILABLE]
    else seq(|pcs|, i requires 0 <= i < |pcs| => Native(pcs[i]))
  }

  function EventStack(e: Event): (s: Stack)
    requires e.depth <= |e.slots|
    ensures s != []
  {
    Backtrace(e.slots[..e.depth])
  }

  /** A stack frame by frame: the i-th of its frames has the i-th of these addresses, and nothing else is known
      of it; without addresses there is the one frame that says so. */
  ghost predicate HasFrames(s: Stack, pcs: seq<u64>) {
    if pcs == [] then s == [HeapFrame(0, Ascii("[unavailable allocation stack]"), [], 0, None)]
    else |s| == |pcs| && forall i :: 0 <= i < |pcs| ==> s[i] == HeapFrame(pcs[i], [], [], 0, None)
  }

  lemma BacktraceFrames(pcs: seq<u64>, s: Stack)
    ensures s == Backtrace(pcs) <==> HasFrames(s, pcs)
  {
    if HasFrames(s, pcs) && pcs != [] {
      forall i | 0 <= i < |pcs| ensures s[i] == Backtrace(pcs)[i] {
      }
    }
  }

  // The tracker, and the frees that preceded the recorded history.
  datatype Replay = Replay(ledger: Ledger, initialFrees: nat)

  const START: Replay := Replay(EMPTY_LEDGER, 0)

  /** The block an event gives up, if any: `free`'s argument or `realloc`'s old block. */
  function Freed(e: Event): Option<u64> {
    if e.kind == 2 then Some(e.address)
    else if e.kind == 3 && e.oldAddress != 0 then Some(e.oldAddress)
    else None
  }

  function ReplayFree(r: Replay, freed: Option<u64>): Replay {
    match freed
    case None => r
    case Some(a) =>
      match r.ledger.Release(a)
      case Ok(l) => Replay(l, r.initialFrees)
      case Err(_) => Replay(r.ledger, r.initialFrees + 1)
  }

  /** One event: release, then allocate, and only then reject an unknown kind. */
  function ReplayEvent(r: Replay, e: Event): Result<Replay, HeapError> {
    if e.depth > MAX_DEPTH || e.depth > |e.slots| then Err(CorruptDepth)
    else
      var released := ReplayFree(r, Freed(e));
      var ledger :- if (e.kind == 1 || e.kind == 3) && e.address != 0
                    then released.ledger.Allocate(e.address, e.size, EventStack(e))
                    else Ok(released.ledger);
      if !(1 <= e.kind <= 3) then Err(UnknownRecord) else Ok(Replay(ledger, released.initialFrees))
  }

  function ReplayAll(events: seq<Event>): Result<Replay, HeapError> {
    if events == [] then Ok(START)
    else
      var before :- ReplayAll(events[..|events| - 1]);
      ReplayEvent(before, events[|events| - 1])
  }

  /** A replay that fails never recovers, so what replays as a whole replays up to any point. */
  lemma {:induction false} ReplayPrefix(events: seq<Event>, n: nat)
    requires n <= |events|
    ensures ReplayAll(events[..n]).Err? ==> ReplayAll(events) == ReplayAll(events[..n])
    decreases |events|
  {
    if n == |events| {
      assert events[..n] == events;
    } else {
      assert events[..|events| - 1][..n] == events[..n];
      ReplayPrefix(events[..|events| - 1], n);
    }
  }

  lemma {:induction false} EventsPrefix(log: seq<u8>, n: nat, m: nat)
    requires n <= m && HEADER + RECORD * m <= |log|
    ensures EventsOf(log, m)[..n] == EventsOf(log, n)
    decreases m
  {
    hide EventAt;
    if n < m {
      EventsPrefix(log, n, m - 1);
      assert EventsOf(log, m)[..n] == EventsOf(log, m - 1)[..n];
    }
  }

  // ----- The reader -----

  datatype FrameInfo = FrameInfo(name: Text, file: Text, line: i64)

  /** A native frame with the image and the symbol of its address. */
  function Rekey(f: HeapFrame, mapping: u64 -> Option<HeapMapping>, symbol: u64 -> Option<FrameInfo>): HeapFrame {
    var g := f.(mapping := mapping(f.address));
    match symbol(f.address)
    case Some(info) => g.(name := info.name, file := info.file, line := info.line)
    case None => g
  }

  function RekeyStack(s: Stack, mapping: u64 -> Option<HeapMapping>, symbol: u64 -> Option<FrameInfo>): Stack {
    seq(|s|, i requires 0 <= i < |s| => Rekey(s[i], mapping, symbol))
  }

  function Status(log: seq<u8>): Result<(), HeapError>
    requires |log| >= HEADER
  {
    var status := Word(log, STATUS_OFFSET);
    if status == 3 then Err(ExecReplacedRecorder)
    else if status == 1 then Err(RecorderLostEvents)
    else if status != 0 && status != 2 then Err(InvalidStatus)
    else Ok(())
  }

  lemma ReplayLast(events: seq<Event>, e: Event)
    ensures ReplayAll(events + [e])
         == match ReplayAll(events) case Ok(r) => ReplayEvent(r, e) case Err(error) => Err(error)
  {
    hide ReplayEvent;
    assert (events + [e])[..|events|] == events;
  }

  // One more event: the replay goes on, or the whole log fails as this event does.
  lemma ReplayNext(log: seq<u8>, k: nat)
    requires |log| >= HEADER && k < CompleteRecords(log)
    requires ReplayAll(EventsOf(log, k)).Ok?
    ensures var next := ReplayEvent(ReplayAll(EventsOf(log, k)).value, EventAt(log, k));
      && ReplayAll(EventsOf(log, k + 1)) == next
      && (next.Err? ==> ReplayAll(EventsOf(log, CompleteRecords(log))) == next)
  {
    hide EventAt, ReplayEvent, EventsOf, ReplayAll;
    EventsNext(log, k);
    ReplayLast(EventsOf(log, k), EventAt(log, k));
    EventsPrefix(log, k + 1, CompleteRecords(log));
    ReplayPrefix(EventsOf(log, CompleteRecords(log)), k + 1);
  }

  // Counting from the `k`-th record on.
  lemma RecordsLeft(log: seq<u8>, k: nat)
    requires HEADER + RECORD * k <= |log|
    ensures (|log| - (HEADER + RECORD * k)) / RECORD + k == CompleteRecords(log)
    ensures (|log| - (HEADER + RECORD * k)) % RECORD == (|log| - HEADER) % RECORD
  {
  }

  /** What a reader that has kept up must find in a log: one replay of all complete records. */
  function Outcome(log: seq<u8>, finalRead: bool): Result<Replay, HeapError>
    requires |log| >= HEADER
  {
    var _ :- Status(log);
    if finalRead && (|log| - HEADER) % RECORD != 0 then Err(TornLastRecord)
    else ReplayAll(EventsOf(log, CompleteRecords(log)))
  }

  // `log` is `seen` with more appended; only the header may have changed.
  ghost predicate Grows(seen: seq<u8>, log: seq<u8>) {
    HEADER <= |seen| <= |log| && log[HEADER..|seen|] == seen[HEADER..]
  }

  const LOG_MAGIC: seq<u8> := Ascii("PPHEAP01")
  const MAGIC_WORD: u64 := 0x3130_5041_4548_5050

  /** The header that the recorder writes: magic, version, process and status. */
  function RecorderHeader(pid: u64, status: u64): (header: seq<u8>)
    ensures |header| == HEADER
  {
    WordsBytes([MAGIC_WORD, 1, pid, status])
  }

  datatype OpenError = ShortHeader | UnsupportedLog | ForeignLog | NotPrivate

  // The checks of `open`, in their order; `owned` says that the file belongs to the user alone.
  function OpenCheck(log: seq<u8>, pid: u64, owned: bool): Option<OpenError> {
    if |log| < HEADER then Some(ShortHeader)
    else if log[..8] != LOG_MAGIC || Word(log, 8) != 1 then Some(UnsupportedLog)
    else if Word(log, 16) != pid then Some(ForeignLog)
    else if !owned then Some(NotPrivate)
    else None
  }

  lemma MagicBytes()
    ensures ToLe(MAGIC_WORD, 8) == LOG_MAGIC
  {
    assert ToLe(0x31, 1) == [0x31] + ToLe(0, 0);
    assert ToLe(0x3130, 2) == [0x30] + ToLe(0x31, 1);
    assert ToLe(0x3130_50, 3) == [0x50] + ToLe(0x3130, 2);
    assert ToLe(0x3130_5041, 4) == [0x41] + ToLe(0x3130_50, 3);
    assert ToLe(0x3130_5041_45, 5) == [0x45] + ToLe(0x3130_5041, 4);
    assert ToLe(0x3130_5041_4548, 6) == [0x48] + ToLe(0x3130_5041_45, 5);
    assert ToLe(0x3130_5041_4548_50, 7) == [0x50] + ToLe(0x3130_5041_4548, 6);
    assert ToLe(MAGIC_WORD, 8) == [0x50] + ToLe(0x3130_5041_4548_50, 7);
  }

  lemma HeaderWords(pid: u64, status: u64, rest: seq<u8>)
    ensures var log := RecorderHeader(pid, status) + rest;
      log[..8] == LOG_MAGIC && Word(log, 8) == 1 && Word(log, 16) == pid && Word(log, STATUS_OFFSET) == status
  {
    hide Word, LOG_MAGIC, ToLe;
    var words: seq<u64> := [MAGIC_WORD, 1, pid, status];
    var log := RecorderHeader(pid, status) + rest;
    assert [] + WordsBytes(words) + rest == log;
    WordsReadBack([], words, rest, 1);
    WordsReadBack([], words, rest, 2);
    WordsReadBack([], words, rest, 3);
    MagicBytes();
    assert WordsBytes(words) == ToLe(MAGIC_WORD, 8) + WordsBytes(words[1..]);
    hide WordsBytes;
    assert log[..8] == ToLe(MAGIC_WORD, 8);
  }

  /** A log that the recorder has started is opened for its own process and no other. */
  lemma RecorderLogOpens(pid: u64, status: u64, rest: seq<u8>, other: u64)
    ensures OpenCheck(RecorderHeader(pid, status) + rest, other, true) ==
      if other == pid then None else Some(ForeignLog)
    ensures Word(RecorderHeader(pid, status) + rest, STATUS_OFFSET) == status
  {
    HeaderWords(pid, status, rest);
    hide RecorderHeader, Word, LOG_MAGIC;
  }

  /** `open`. */
  method OpenLog(log: seq<u8>, pid: u64, owned: bool) returns (r: Result<LogReader, OpenError>)
    ensures r.Err? <==> OpenCheck(log, pid, owned).Some?
    ensures r.Err? ==> OpenCheck(log, pid, owned) == Some(r.error)
    ensures r.Ok? ==> fresh(r.value) && fresh(r.value.tracker) && r.value.Valid() && r.value.seen == log
  {
    if |log| < HEADER {
      return Err(ShortHeader);
    }
    if log[..8] != LOG_MAGIC || Word(log, 8) != 1 {
      return Err(UnsupportedLog);
    }
    if Word(log, 16) != pid {
      return Err(ForeignLog);
    }
    if !owned {
      return Err(NotPrivate);
    }
    var reader := new LogReader(log);
    r := Ok(reader);
  }

  class LogReader {
    const tracker: NativeHeapTracker
    var offset: nat
    var initialFrees: nat
    // The log at the last snapshot, and how many of its records were read.
    ghost var seen: seq<u8>
    ghost var consumed: nat

    ghost predicate Valid()
      reads this, tracker
    {
      && tracker.Valid()
      && HEADER <= |seen|
      && offset == HEADER + RECORD * consumed <= |seen|
      && ReplayAll(EventsOf(seen, consumed)) == Ok(Replay(tracker.Account(), initialFrees))
    }

    // The end of `open`.
    constructor (log: seq<u8>)
      requires |log| >= HEADER
      ensures Valid() && fresh(tracker) && seen == log
    {
      tracker := new NativeHeapTracker();
      offset := HEADER;
      initialFrees := 0;
      seen := log;
      consumed := 0;
    }

    lemma Catchup(log: seq<u8>)
      requires Valid() && Grows(seen, log)
      ensures ReplayAll(EventsOf(log, consumed)) == Ok(Replay(tracker.Account(), initialFrees))
    {
      var stop := HEADER + RECORD * consumed;
      assert log[HEADER..stop] == log[HEADER..|seen|][..stop - HEADER];
      assert seen[HEADER..stop] == seen[HEADER..][..stop - HEADER];
      EventsAgree(seen, log, consumed);
    }

    // One record: release, then allocate.
    method ReadEvent(e: Event) returns (r: Result<(), HeapError>)
      requires tracker.Valid()
      modifies this, tracker
      ensures tracker.Valid() && offset == old(offset) && seen == old(seen) && consumed == old(consumed)
      ensures match ReplayEvent(Replay(old(tracker.Account()), old(initialFrees)), e)
              case Ok(after) => r.Ok? && after == Replay(tracker.Account(), initialFrees)
              case Err(error) => r == Err(error)
    {
      hide Interned, Interpret, Ledger.Valid;
      if e.depth > MAX_DEPTH || e.depth > |e.slots| {
        return Err(CorruptDepth);
      }
      if e.kind == 2 || (e.kind == 3 && e.oldAddress != 0) {
        var released := tracker.Release(if e.kind == 2 then e.address else e.oldAddress);
        if released.Err? {
          initialFrees := initialFrees + 1;
        }
      }
      if (e.kind == 1 || e.kind == 3) && e.address != 0 {
        var added := tracker.Allocate(e.address, e.size, EventStack(e));
        if added.Err? {
          return Err(added.error);
        }
      }
      if !(1 <= e.kind <= 3) {
        return Err(UnknownRecord);
      }
      r := Ok(());
    }

    // All complete records from the reader's offset on.
    method ReadEvents(log: seq<u8>) returns (r: Result<(), HeapError>)
      requires Valid() && Grows(seen, log)
      modifies this, tracker
      ensures tracker.Valid()
      ensures match ReplayAll(EventsOf(log, CompleteRecords(log)))
              case Ok(all) => r.Ok? && Valid() && seen == log && consumed == CompleteRecords(log)
                              && all == Replay(tracker.Account(), initialFrees)
              case Err(error) => r == Err(error)
    {
      hide ReplayEvent, EventAt, EventsOf, ReplayAll;
      hide Interned, Interpret;
      Catchup(log);
      seen := log;
      RecordsLeft(log, consumed);
      var available := (|log| - offset) / RECORD;
      var k := (offset - HEADER) / RECORD;
      for i := 0 to available
        invariant Valid() && seen == log && consumed == k
        invariant k + (available - i) == CompleteRecords(log)
      {
        var e := EventAt(log, k);
        offset := offset + RECORD;
        var read := ReadEvent(e);
        ReplayNext(log, k);
        if read.Err? {
          return Err(read.error);
        }
        k := k + 1;
        consumed := consumed + 1;
      }
      r := Ok(());
    }

    /** However the calls fall, the reader holds one replay of all complete records; its profile is the
        checkpoint of that replay with every frame re-keyed. */
    method Snapshot(log: seq<u8>, finalRead: bool, mapping: u64 -> Option<HeapMapping>,
                    symbol: u64 -> Option<FrameInfo>)
        returns (r: Result<HeapProfile, HeapError>)
      requires Valid() && Grows(seen, log)
      modifies this, tracker
      ensures match Outcome(log, finalRead)
              case Err(error) => r == Err(error)
              case Ok(all) =>
                && r.Ok? && Valid() && seen == log && fresh(r.value)
                && offset == HEADER + RECORD * CompleteRecords(log)
                && all == Replay(tracker.Account(), initialFrees)
                && Rekeyed(Checkpoint(all.ledger), r.value.samples, mapping, symbol)
                && StacksOfRecords(log, r.value.samples.Keys, mapping, symbol)
                && LiveBlocksOfRecords(log, all.ledger.live)
    {
      hide ReplayAll, EventsOf, Word, Checkpoint, Interned, Interpret, Rekeyed, StacksOfRecords, LiveBlocksOfRecords;
      var status := Word(log, STATUS_OFFSET);
      if status == 3 {
        return Err(ExecReplacedRecorder);
      }
      if status == 1 {
        return Err(RecorderLostEvents);
      }
      if status != 0 && status != 2 {
        return Err(InvalidStatus);
      }
      RecordsLeft(log, consumed);
      if finalRead && (|log| - offset) % RECORD != 0 {
        return Err(TornLastRecord);
      }
      var read := ReadEvents(log);
      if read.Err? {
        return Err(read.error);
      }
      var profile := tracker.Snapshot();
      var samples := RekeySamples(profile.value.samples, mapping, symbol);
      profile.value.samples := samples;
      r := profile;
      CheckpointKeys(tracker.Account());
      SnapshotStacks(log, Checkpoint(tracker.Account()), samples, mapping, symbol);
      LiveRecords(log);
    }
  }

  /** The re-keyed samples: every stack arrives, and nothing else does.  When no two stacks meet, each
      keeps its own values. */
  ghost predicate Rekeyed(before: map<Stack, HeapValues>, after: map<Stack, HeapValues>,
                          mapping: u64 -> Option<HeapMapping>, symbol: u64 -> Option<FrameInfo>)
  {
    && (forall t :: t in after ==>
          exists s :: s in before && t == RekeyStack(s, mapping, symbol) && after[t] == before[s])
    && (forall s :: s in before ==> RekeyStack(s, mapping, symbol) in after)
  }

  method RekeySamples(samples: map<Stack, HeapValues>, mapping: u64 -> Option<HeapMapping>,
                      symbol: u64 -> Option<FrameInfo>)
      returns (rekeyed: map<Stack, HeapValues>)
    ensures Rekeyed(samples, rekeyed, mapping, symbol)
  {
    rekeyed := map[];
    var todo := samples.Keys;
    while todo != {}
      invariant todo <= samples.Keys
      invariant Rekeyed(map s | s in samples && s !in todo :: samples[s], rekeyed, mapping, symbol)
    {
      var s :| s in todo;
      ghost var before := map x | x in samples && x !in todo :: samples[x];
      ghost var was := rekeyed;
      rekeyed := rekeyed[RekeyStack(s, mapping, symbol) := samples[s]];
      todo := todo - {s};
      ghost var after := map x | x in samples && x !in todo :: samples[x];
      forall t | t in rekeyed
        ensures exists x :: x in after && t == RekeyStack(x, mapping, symbol) && rekeyed[t] == after[x]
      {
        if t != RekeyStack(s, mapping, symbol) {
          var x :| x in before && t == RekeyStack(x, mapping, symbol) && was[t] == before[x];
          assert x in after;
        } else {
          assert s in after;
        }
      }
    }
    assert (map s | s in samples && s !in todo :: samples[s]) == samples;
  }

  // ----- Re-keying loses nothing -----

  const LONE_ZERO: Stack := [Native(0)]

  // The stacks that a log can produce.
  ghost predicate LogStack(s: Stack) {
    s == [UNAVAILABLE] || (s != [] && forall i :: 0 <= i < |s| ==> s[i] == Native(s[i].address))
  }

  lemma RekeyedFramesMeet(f: HeapFrame, g: HeapFrame, mapping: u64 -> Option<HeapMapping>,
                          symbol: u64 -> Option<FrameInfo>)
    requires f == UNAVAILABLE || f == Native(f.address)
    requires g == UNAVAILABLE || g == Native(g.address)
    ensures Rekey(f, mapping, symbol) == Rekey(g, mapping, symbol) <==>
      f == g || (f.address == 0 && g.address == 0 && symbol(0).Some?)
  {
    assert UNAVAILABLE.name[0] == 91;
    assert UNAVAILABLE != Native(0);
  }

  /** Two stacks of a log meet only if both are a single frame at address zero, one of them the
      placeholder, and the symbolizer resolves address zero. */
  lemma RekeyedStacksMeet(s: Stack, t: Stack, mapping: u64 -> Option<HeapMapping>, symbol: u64 -> Option<FrameInfo>)
    requires LogStack(s) && LogStack(t)
    ensures RekeyStack(s, mapping, symbol) == RekeyStack(t, mapping, symbol) <==>
      s == t || (|s| == |t| == 1 && s[0].address == 0 && t[0].address == 0 && symbol(0).Some?)
  {
    var a, b := RekeyStack(s, mapping, symbol), RekeyStack(t, mapping, symbol);
    if a == b {
      forall i | 0 <= i < |s| ensures s[i] == t[i] || (s[i].address == 0 && t[i].address == 0 && symbol(0).Some?) {
        assert a[i] == b[i];
        RekeyedFramesMeet(s[i], t[i], mapping, symbol);
      }
      if |s| > 1 {
        assert s == t;
      }
    } else if |s| == |t| == 1 {
      RekeyedFramesMeet(s[0], t[0], mapping, symbol);
    }
  }

  // An event that puts a block into the ledger.
  predicate Allocates(e: Event) {
    (e.kind == 1 || e.kind == 3) && e.address != 0 && e.depth <= |e.slots|
  }

  /** The log has an allocation with this stack. */
  ghost predicate HasStack(events: seq<Event>, s: Stack) {
    exists i :: 0 <= i < |events| && Allocates(events[i]) && EventStack(events[i]) == s
  }

  lemma EventStackIsLogs(e: Event)
    requires e.depth <= |e.slots|
    ensures LogStack(EventStack(e))
    ensures EventStack(e) == [UNAVAILABLE] <==> e.depth == 0
    ensures EventStack(e) == LONE_ZERO <==> e.depth == 1 && e.slots[0] == 0
  {
    assert UNAVAILABLE.name[0] == 91;
    if e.depth > 0 {
      assert EventStack(e)[0] == Native(e.slots[0]);
    }
    if e.depth == 1 && e.slots[0] == 0 {
      assert EventStack(e) == LONE_ZERO;
    }
  }

  // What one event adds to the stacks of a ledger.
  lemma StacksNext(r: Replay, e: Event)
    requires ReplayEvent(r, e).Ok?
    ensures ReplayEvent(r, e).value.ledger.allocs.Keys == r.ledger.allocs.Keys
      + if Allocates(e) then {EventStack(e)} else {}
  {
    hide EventStack;
  }

  /** The stacks of a replayed ledger are exactly those of the log's allocations. */
  lemma {:induction false} ReplayedStacks(events: seq<Event>, s: Stack)
    requires ReplayAll(events).Ok?
    ensures s in ReplayAll(events).value.ledger.allocs <==> HasStack(events, s)
    ensures HasStack(events, s) ==> LogStack(s)
    decreases |events|
  {
    hide EventStack, ReplayEvent, LogStack;
    if events != [] {
      var n := |events| - 1;
      var before, e := events[..n], events[n];
      ReplayedStacks(before, s);
      StacksNext(ReplayAll(before).value, e);
      if Allocates(e) {
        EventStackIsLogs(e);
      }
      if HasStack(before, s) {
        var i :| 0 <= i < n && Allocates(before[i]) && EventStack(before[i]) == s;
        assert events[i] == before[i];
      }
      if HasStack(events, s) {
        var i :| 0 <= i <= n && Allocates(events[i]) && EventStack(events[i]) == s;
        assert i < n ==> before[i] == events[i];
      }
    }
  }

  /** The log has an allocation whose only PC is zero, and one without a backtrace, and the symbolizer
      resolves address zero. */
  ghost predicate Collides(events: seq<Event>, symbol: u64 -> Option<FrameInfo>) {
    && symbol(0).Some?
    && (exists i :: 0 <= i < |events| && Allocates(events[i]) && events[i].depth == 1 && events[i].slots[0] == 0)
    && (exists i :: 0 <= i < |events| && Allocates(events[i]) && events[i].depth == 0)
  }

  lemma CollidingStacks(events: seq<Event>, symbol: u64 -> Option<FrameInfo>)
    ensures Collides(events, symbol) <==>
      symbol(0).Some? && HasStack(events, LONE_ZERO) && HasStack(events, [UNAVAILABLE])
  {
    hide EventStack, LogStack;
    forall i | 0 <= i < |events| && Allocates(events[i])
      ensures EventStack(events[i]) == [UNAVAILABLE] <==> events[i].depth == 0
      ensures EventStack(events[i]) == LONE_ZERO <==> events[i].depth == 1 && events[i].slots[0] == 0
    {
      EventStackIsLogs(events[i]);
    }
  }

  // Two different stacks that become one.
  ghost predicate Meet(s: Stack, t: Stack, mapping: u64 -> Option<HeapMapping>, symbol: u64 -> Option<FrameInfo>) {
    s != t && RekeyStack(s, mapping, symbol) == RekeyStack(t, mapping, symbol)
  }

  lemma LoneFrames(s: Stack)
    requires LogStack(s) && |s| == 1 && s[0].address == 0
    ensures s == LONE_ZERO || s == [UNAVAILABLE]
  {
  }

  // Of a log's stacks, which two can meet.
  lemma MeetingStacks(s: Stack, t: Stack, mapping: u64 -> Option<HeapMapping>, symbol: u64 -> Option<FrameInfo>)
    requires LogStack(s) && LogStack(t)
    ensures Meet(s, t, mapping, symbol) <==>
      && symbol(0).Some?
      && ((s == LONE_ZERO && t == [UNAVAILABLE]) || (s == [UNAVAILABLE] && t == LONE_ZERO))
  {
    RekeyedStacksMeet(s, t, mapping, symbol);
    assert UNAVAILABLE.name[0] == 91;
    if |s| == |t| == 1 && s[0].address == 0 && t[0].address == 0 {
      LoneFrames(s);
      LoneFrames(t);
    }
  }

  lemma {:induction false} ImageSize(stacks: set<Stack>, mapping: u64 -> Option<HeapMapping>,
                                     symbol: u64 -> Option<FrameInfo>)
    requires forall s, t :: s in stacks && t in stacks ==> !Meet(s, t, mapping, symbol)
    ensures |set s | s in stacks :: RekeyStack(s, mapping, symbol)| == |stacks|
    decreases |stacks|
  {
    var image := set s | s in stacks :: RekeyStack(s, mapping, symbol);
    if stacks == {} {
      assert image == {};
    } else {
      var x :| x in stacks;
      var rest := set s | s in stacks - {x} :: RekeyStack(s, mapping, symbol);
      ImageSize(stacks - {x}, mapping, symbol);
      assert RekeyStack(x, mapping, symbol) !in rest by {
        if RekeyStack(x, mapping, symbol) in rest {
          var s :| s in stacks - {x} && RekeyStack(s, mapping, symbol) == RekeyStack(x, mapping, symbol);
          assert Meet(s, x, mapping, symbol);
        }
      }
      assert image == rest + {RekeyStack(x, mapping, symbol)};
    }
  }

  /** Two stacks of a checkpoint become one exactly for such a log. */
  lemma StacksMeetExactly(events: seq<Event>, stacks: set<Stack>, mapping: u64 -> Option<HeapMapping>,
                          symbol: u64 -> Option<FrameInfo>)
    requires ReplayAll(events).Ok? && stacks == ReplayAll(events).value.ledger.allocs.Keys
    ensures (exists s, t :: s in stacks && t in stacks && Meet(s, t, mapping, symbol)) <==> Collides(events, symbol)
    ensures forall s, t :: s in stacks && t in stacks && Meet(s, t, mapping, symbol) ==>
      s == LONE_ZERO || t == LONE_ZERO
  {
    hide ReplayAll, HasStack, Collides, Meet;
    CollidingStacks(events, symbol);
    forall s | s in stacks ensures HasStack(events, s) && LogStack(s) {
      ReplayedStacks(events, s);
    }
    ReplayedStacks(events, LONE_ZERO);
    ReplayedStacks(events, [UNAVAILABLE]);
    forall s, t | s in stacks && t in stacks
      ensures Meet(s, t, mapping, symbol) <==>
        && symbol(0).Some?
        && ((s == LONE_ZERO && t == [UNAVAILABLE]) || (s == [UNAVAILABLE] && t == LONE_ZERO))
    {
      MeetingStacks(s, t, mapping, symbol);
    }
    if Collides(events, symbol) {
      assert Meet(LONE_ZERO, [UNAVAILABLE], mapping, symbol);
    }
  }

  /** What re-keying loses: nothing, each stack keeping its values, unless the log collides; and then exactly
      one stack with all its values, one of the two that meet.  All others keep theirs. */
  lemma NothingLost(events: seq<Event>, before: map<Stack, HeapValues>, after: map<Stack, HeapValues>,
                    mapping: u64 -> Option<HeapMapping>, symbol: u64 -> Option<FrameInfo>)
    requires ReplayAll(events).Ok? && before.Keys == ReplayAll(events).value.ledger.allocs.Keys
    requires Rekeyed(before, after, mapping, symbol)
    ensures |after| == |before| - if Collides(events, symbol) then 1 else 0
    ensures !Collides(events, symbol) ==> forall s :: s in before ==>
      RekeyStack(s, mapping, symbol) in after && after[RekeyStack(s, mapping, symbol)] == before[s]
    ensures forall s :: s in before && s != LONE_ZERO && s != [UNAVAILABLE] ==>
      RekeyStack(s, mapping, symbol) in after && after[RekeyStack(s, mapping, symbol)] == before[s]
    ensures Collides(events, symbol) ==>
      var r := RekeyStack(LONE_ZERO, mapping, symbol);
      && LONE_ZERO in before && [UNAVAILABLE] in before && r == RekeyStack([UNAVAILABLE], mapping, symbol)
      && r in after && (after[r] == before[LONE_ZERO] || after[r] == before[[UNAVAILABLE]])
  {
    hide ReplayAll, Collides, RekeyStack;
    OthersKept(events, before, after, mapping, symbol);
    StacksMeetExactly(events, before.Keys, mapping, symbol);
    assert after.Keys == set s | s in before.Keys :: RekeyStack(s, mapping, symbol);
    if Collides(events, symbol) {
      var s, t :| s in before.Keys && t in before.Keys && Meet(s, t, mapping, symbol);
      OneGone(before.Keys, LONE_ZERO, if s == LONE_ZERO then t else s, mapping, symbol);
      assert |after.Keys| == |before.Keys| - 1;
    } else {
      ImageSize(before.Keys, mapping, symbol);
      assert |after.Keys| == |before.Keys|;
      ValuesKept(before, after, mapping, symbol);
    }
  }

  // The stacks that meet no other, and the two that meet.
  lemma OthersKept(events: seq<Event>, before: map<Stack, HeapValues>, after: map<Stack, HeapValues>,
                   mapping: u64 -> Option<HeapMapping>, symbol: u64 -> Option<FrameInfo>)
    requires ReplayAll(events).Ok? && before.Keys == ReplayAll(events).value.ledger.allocs.Keys
    requires Rekeyed(before, after, mapping, symbol)
    ensures forall s :: s in before && s != LONE_ZERO && s != [UNAVAILABLE] ==>
      RekeyStack(s, mapping, symbol) in after && after[RekeyStack(s, mapping, symbol)] == before[s]
    ensures Collides(events, symbol) ==>
      var r := RekeyStack(LONE_ZERO, mapping, symbol);
      && LONE_ZERO in before && [UNAVAILABLE] in before && r == RekeyStack([UNAVAILABLE], mapping, symbol)
      && r in after && (after[r] == before[LONE_ZERO] || after[r] == before[[UNAVAILABLE]])
  {
    hide ReplayAll, HasStack, Collides, RekeyStack, Meet;
    forall s | s in before ensures LogStack(s) {
      ReplayedStacks(events, s);
    }
    forall s, t | s in before && t in before && !(s == LONE_ZERO && t == [UNAVAILABLE])
      && !(s == [UNAVAILABLE] && t == LONE_ZERO)
      ensures !Meet(s, t, mapping, symbol)
    {
      MeetingStacks(s, t, mapping, symbol);
    }
    forall s | s in before && s != LONE_ZERO && s != [UNAVAILABLE]
      ensures RekeyStack(s, mapping, symbol) in after && after[RekeyStack(s, mapping, symbol)] == before[s]
    {
      Kept(before, after, mapping, symbol, s);
    }
    if Collides(events, symbol) {
      CollidingStacks(events, symbol);
      ReplayedStacks(events, LONE_ZERO);
      ReplayedStacks(events, [UNAVAILABLE]);
      PairKept(before, after, mapping, symbol);
    }
  }

  lemma Kept(before: map<Stack, HeapValues>, after: map<Stack, HeapValues>,
             mapping: u64 -> Option<HeapMapping>, symbol: u64 -> Option<FrameInfo>, s: Stack)
    requires Rekeyed(before, after, mapping, symbol) && s in before
    requires forall t :: t in before ==> !Meet(s, t, mapping, symbol)
    ensures RekeyStack(s, mapping, symbol) in after && after[RekeyStack(s, mapping, symbol)] == before[s]
  {
    hide RekeyStack;
    var r := RekeyStack(s, mapping, symbol);
    var t :| t in before && r == RekeyStack(t, mapping, symbol) && after[r] == before[t];
    assert !Meet(s, t, mapping, symbol);
  }

  lemma PairKept(before: map<Stack, HeapValues>, after: map<Stack, HeapValues>,
                 mapping: u64 -> Option<HeapMapping>, symbol: u64 -> Option<FrameInfo>)
    requires Rekeyed(before, after, mapping, symbol) && symbol(0).Some? && LONE_ZERO in before
    requires [UNAVAILABLE] in before
    requires forall s :: s in before ==> LogStack(s)
    ensures var r := RekeyStack(LONE_ZERO, mapping, symbol);
      && r == RekeyStack([UNAVAILABLE], mapping, symbol)
      && r in after && (after[r] == before[LONE_ZERO] || after[r] == before[[UNAVAILABLE]])
  {
    hide RekeyStack;
    MeetingStacks(LONE_ZERO, [UNAVAILABLE], mapping, symbol);
    var r := RekeyStack(LONE_ZERO, mapping, symbol);
    var t :| t in before && r == RekeyStack(t, mapping, symbol) && after[r] == before[t];
    MeetingStacks(LONE_ZERO, t, mapping, symbol);
  }

  lemma OneGone(stacks: set<Stack>, gone: Stack, stays: Stack, mapping: u64 -> Option<HeapMapping>,
                symbol: u64 -> Option<FrameInfo>)
    requires gone in stacks && stays in stacks && Meet(gone, stays, mapping, symbol)
    requires forall s, t :: s in stacks && t in stacks && Meet(s, t, mapping, symbol) ==> s == gone || t == gone
    ensures |set s | s in stacks :: RekeyStack(s, mapping, symbol)| == |stacks| - 1
  {
    hide RekeyStack;
    var rest := stacks - {gone};
    var image, images := set s | s in rest :: RekeyStack(s, mapping, symbol), set s | s in stacks ::
      RekeyStack(s, mapping, symbol);
    ImageSize(rest, mapping, symbol);
    assert RekeyStack(gone, mapping, symbol) == RekeyStack(stays, mapping, symbol) && stays in rest;
    assert RekeyStack(stays, mapping, symbol) in image;
    assert images == image + {RekeyStack(gone, mapping, symbol)};
    assert images == image;
  }

  lemma ValuesKept(before: map<Stack, HeapValues>, after: map<Stack, HeapValues>,
                   mapping: u64 -> Option<HeapMapping>, symbol: u64 -> Option<FrameInfo>)
    requires Rekeyed(before, after, mapping, symbol)
    requires forall s, t :: s in before.Keys && t in before.Keys ==> !Meet(s, t, mapping, symbol)
    ensures forall s :: s in before ==>
      RekeyStack(s, mapping, symbol) in after && after[RekeyStack(s, mapping, symbol)] == before[s]
  {
    hide RekeyStack;
    forall s | s in before
      ensures RekeyStack(s, mapping, symbol) in after && after[RekeyStack(s, mapping, symbol)] == before[s]
    {
      Kept(before, after, mapping, symbol, s);
    }
  }

  // Eight bytes allocated from a lone zero PC, and four without a backtrace.
  const ZEROS: seq<u64> := seq(MAX_DEPTH, _ => 0)
  const COLLIDING_LOG: seq<Event> := [Event(1, 16, 0, 8, 1, ZEROS), Event(1, 32, 0, 4, 0, ZEROS)]

  /** A log of two events whose re-keyed checkpoint has lost a stack and its bytes. */
  lemma StacksCanMeet(after: map<Stack, HeapValues>, mapping: u64 -> Option<HeapMapping>,
                      symbol: u64 -> Option<FrameInfo>)
    requires symbol(0).Some?
    requires ReplayAll(COLLIDING_LOG).Ok? ==> (ReplayIsValid(COLLIDING_LOG);
      Rekeyed(Checkpoint(ReplayAll(COLLIDING_LOG).value.ledger), after, mapping, symbol))
    ensures ReplayAll(COLLIDING_LOG).Ok? && Collides(COLLIDING_LOG, symbol)
    ensures (ReplayIsValid(COLLIDING_LOG);
      var before := Checkpoint(ReplayAll(COLLIDING_LOG).value.ledger);
      && before.Keys == {LONE_ZERO, [UNAVAILABLE]} && |before| == 2
      && before[LONE_ZERO].allocSpace == 8 && before[[UNAVAILABLE]].allocSpace == 4 && |after| == 1)
  {
    hide ReplayAll, ReplayEvent, Inuse, Rekeyed, EventStack, RekeyStack;
    CollidingReplay();
    ReplayIsValid(COLLIDING_LOG);
    var before := Checkpoint(ReplayAll(COLLIDING_LOG).value.ledger);
    assert before.Keys == {LONE_ZERO, [UNAVAILABLE]};
    assert |before.Keys| == 2;
    assert COLLIDING_LOG[0].depth == 1 && COLLIDING_LOG[1].depth == 0;
    NothingLost(COLLIDING_LOG, before, after, mapping, symbol);
  }

  lemma CollidingReplay()
    ensures ReplayAll(COLLIDING_LOG).Ok?
    ensures var allocs := ReplayAll(COLLIDING_LOG).value.ledger.allocs;
      allocs == map[LONE_ZERO := Totals(1, 8), [UNAVAILABLE] := Totals(1, 4)]
    ensures LONE_ZERO != [UNAVAILABLE]
  {
    var first, second := COLLIDING_LOG[0], COLLIDING_LOG[1];
    EventStackIsLogs(first);
    EventStackIsLogs(second);
    assert UNAVAILABLE.name[0] == 91;
    ReplayLast([], first);
    ReplayLast([first], second);
    assert [] + [first] == [first] && [first] + [second] == COLLIDING_LOG;
    assert ReplayEvent(START, first)
      == Ok(Replay(Ledger(map[LONE_ZERO := Totals(1, 8)], map[16 := Block(8, LONE_ZERO)]), 0));
  }

  /** A replayed ledger is always a valid one. */
  lemma {:induction false} ReplayIsValid(events: seq<Event>)
    requires ReplayAll(events).Ok?
    ensures ReplayAll(events).value.ledger.Valid()
    decreases |events|
  {
    if events != [] {
      var n := |events| - 1;
      var e := events[n];
      ReplayIsValid(events[..n]);
      var r := ReplayAll(events[..n]).value;
      var released := ReplayFree(r, Freed(e));
      if Freed(e).Some? && r.ledger.Release(Freed(e).value).Ok? {
        ReleaseKeepsValid(r.ledger, Freed(e).value);
      }
      assert released.ledger.Valid();
      if (e.kind == 1 || e.kind == 3) && e.address != 0 {
        AllocateKeepsValid(released.ledger, e.address, e.size, EventStack(e));
      }
    }
  }

  // ----- The records behind a profile, word by word -----

  /** Record `k` puts a block into use: it is a `malloc` or a `realloc` with an address. */
  ghost predicate RecordAllocates(log: seq<u8>, k: nat)
    requires 32 + 552 * (k + 1) <= |log|
  {
    var at := 32 + 552 * k;
    (Word(log, at) == 1 || Word(log, at) == 3) && Word(log, at + 8) != 0
  }

  /** Record `k` gives up the block at `a`: the argument of a `free`, or the old block of a `realloc`. */
  ghost predicate RecordFrees(log: seq<u8>, k: nat, a: u64)
    requires 32 + 552 * (k + 1) <= |log|
  {
    var at := 32 + 552 * k;
    || (Word(log, at) == 2 && Word(log, at + 8) == a)
    || (Word(log, at) == 3 && Word(log, at + 16) == a)
  }

  /** What the profile says of an address: its image, and its symbol if it has one. */
  ghost predicate Describes(f: HeapFrame, address: u64, name: Text, mapping: u64 -> Option<HeapMapping>,
                            symbol: u64 -> Option<FrameInfo>)
  {
    && f.address == address && f.mapping == mapping(address)
    && match symbol(address)
       case Some(info) => f.name == info.name && f.file == info.file && f.line == info.line
       case None => f.name == name && f.file == [] && f.line == 0
  }

  /** The stack is that of record `k`: as many frames as its depth says, and the i-th of them describes the i-th of
      the words that follow. */
  ghost predicate RecordStack(log: seq<u8>, k: nat, s: Stack, mapping: u64 -> Option<HeapMapping>,
                              symbol: u64 -> Option<FrameInfo>)
    requires 32 + 552 * (k + 1) <= |log|
  {
    var at := 32 + 552 * k;
    var depth := Word(log, at + 32);
    if depth == 0 then
      |s| == 1 && Describes(s[0], 0, Ascii("[unavailable allocation stack]"), mapping, symbol)
    else
      && |s| == depth <= 64
      && forall i :: 0 <= i < depth ==> Describes(s[i], Word(log, at + 40 + 8 * i), [], mapping, symbol)
  }

  /** The stacks are exactly those of the records that allocate. */
  ghost predicate StacksOfRecords(log: seq<u8>, stacks: set<Stack>, mapping: u64 -> Option<HeapMapping>,
                                  symbol: u64 -> Option<FrameInfo>)
    requires |log| >= HEADER
  {
    && (forall k: nat :: k < CompleteRecords(log) && RecordAllocates(log, k) ==>
          exists s :: s in stacks && RecordStack(log, k, s, mapping, symbol))
    && (forall s :: s in stacks ==>
          exists k: nat :: k < CompleteRecords(log) && RecordAllocates(log, k)
                           && RecordStack(log, k, s, mapping, symbol))
  }

  /** Record `k` holds the block at `a`: it puts it into use, and no later record gives it up. */
  ghost predicate RecordHolds(log: seq<u8>, k: nat, a: u64)
    requires |log| >= HEADER && k < CompleteRecords(log)
  {
    && RecordAllocates(log, k) && Word(log, 32 + 552 * k + 8) == a
    && forall j :: k < j < CompleteRecords(log) ==> !RecordFrees(log, j, a)
  }

  function Unmapped(address: u64): Option<HeapMapping> {
    None
  }

  function Unnamed(address: u64): Option<FrameInfo> {
    None
  }

  /** The live blocks are exactly those that a record holds, with its size and its backtrace. */
  ghost predicate LiveBlocksOfRecords(log: seq<u8>, live: map<u64, Block>)
    requires |log| >= HEADER
  {
    && (forall a :: a in live ==> exists k: nat :: k < CompleteRecords(log) && RecordHolds(log, k, a))
    && (forall k: nat, a :: k < CompleteRecords(log) && RecordHolds(log, k, a) ==>
          && a in live && live[a].size == Word(log, 32 + 552 * k + 24)
          && RecordStack(log, k, live[a].stack, Unmapped, Unnamed))
  }

  // The same at the level of events.
  ghost predicate EventHolds(events: seq<Event>, i: nat, a: u64) {
    && i < |events| && Allocates(events[i]) && events[i].address == a
    && forall j :: i < j < |events| ==> Freed(events[j]) != Some(a)
  }

  // What one event does to the block at `a`.
  lemma LiveNext(r: Replay, e: Event, a: u64)
    requires ReplayEvent(r, e).Ok?
    ensures var live := ReplayEvent(r, e).value.ledger.live;
      if Allocates(e) && e.address == a then
        && (a in r.ledger.live ==> Freed(e) == Some(a))
        && a in live && live[a] == Block(e.size, EventStack(e))
      else
        && (a in live <==> a in r.ledger.live && (Freed(e) != Some(a) || a == 0))
        && (a in live ==> live[a] == r.ledger.live[a])
  {
    hide EventStack;
  }

  lemma {:induction false} LiveIsHeldByEvent(events: seq<Event>, a: u64)
    requires ReplayAll(events).Ok? && a != 0
    ensures var live := ReplayAll(events).value.ledger.live;
      && (a in live ==> exists i: nat :: EventHolds(events, i, a))
      && forall i: nat :: EventHolds(events, i, a) ==>
           a in live && live[a] == Block(events[i].size, EventStack(events[i]))
    decreases |events|
  {
    hide EventStack, ReplayEvent;
    if events != [] {
      var n := |events| - 1;
      var before, e := events[..n], events[n];
      LiveIsHeldByEvent(before, a);
      LiveNext(ReplayAll(before).value, e, a);
      HoldsNext(before, e, a);
      assert events == before + [e];
      if a in ReplayAll(before).value.ledger.live && Freed(e) != Some(a) {
        var i: nat :| EventHolds(before, i, a);
        assert EventHolds(events, i, a);
      }
      forall i: nat | EventHolds(events, i, a)
        ensures a in ReplayAll(events).value.ledger.live
        ensures ReplayAll(events).value.ledger.live[a] == Block(events[i].size, EventStack(events[i]))
      {
        if i < n {
          assert EventHolds(before, i, a) && events[i] == before[i];
        }
      }
    }
  }

  lemma HoldsNext(before: seq<Event>, e: Event, a: u64)
    ensures forall i: nat :: i < |before| ==>
      (EventHolds(before + [e], i, a) <==> EventHolds(before, i, a) && Freed(e) != Some(a))
    ensures EventHolds(before + [e], |before|, a) <==> Allocates(e) && e.address == a
  {
    var events := before + [e];
    forall i: nat | i < |before|
      ensures EventHolds(events, i, a) <==> EventHolds(before, i, a) && Freed(e) != Some(a)
    {
      assert events[|before|] == e;
      forall j | i < j < |before| ensures events[j] == before[j] {
      }
      if EventHolds(before, i, a) && Freed(e) != Some(a) {
        forall j | i < j < |events| ensures Freed(events[j]) != Some(a) {
          assert j < |before| ==> events[j] == before[j];
        }
      }
      if EventHolds(events, i, a) {
        forall j | i < j < |before| ensures Freed(before[j]) != Some(a) {
          assert events[j] == before[j];
        }
      }
    }
  }

  /** Event `k` frees a block that no event before it holds: it was allocated before the recorder began. */
  ghost predicate FreesUnrecorded(events: seq<Event>, k: nat)
    requires k < |events|
  {
    match Freed(events[k])
    case None => false
    case Some(a) => a != 0 && forall i: nat :: !EventHolds(events[..k], i, a)
  }

  /** The reader's `initial_frees` counts exactly these events. */
  lemma {:induction false} InitialFreesCount(events: seq<Event>)
    requires ReplayAll(events).Ok?
    ensures ReplayAll(events).value.initialFrees == |set k: nat | k < |events| && FreesUnrecorded(events, k)|
    decreases |events|
  {
    hide EventStack, ReplayEvent, FreesUnrecorded;
    var unrecorded := set k: nat | k < |events| && FreesUnrecorded(events, k);
    if events != [] {
      var n := |events| - 1;
      var before := set k: nat | k < n && FreesUnrecorded(events[..n], k);
      InitialFreesCount(events[..n]);
      forall k: nat | k < n ensures FreesUnrecorded(events, k) <==> FreesUnrecorded(events[..n], k) {
        FreesPrefix(events, k);
      }
      FreesNext(events);
      assert unrecorded == before + if FreesUnrecorded(events, n) then {n} else {};
    }
  }

  lemma FreesPrefix(events: seq<Event>, k: nat)
    requires k < |events| - 1
    ensures FreesUnrecorded(events, k) <==> FreesUnrecorded(events[..|events| - 1], k)
  {
    hide EventHolds;
    assert events[..|events| - 1][..k] == events[..k];
  }

  lemma FreesNext(events: seq<Event>)
    requires events != [] && ReplayAll(events).Ok?
    ensures ReplayAll(events).value.initialFrees == ReplayAll(events[..|events| - 1]).value.initialFrees
      + if FreesUnrecorded(events, |events| - 1) then 1 else 0
  {
    hide EventStack, EventHolds, Ledger.Allocate;
    var before, e := events[..|events| - 1], events[|events| - 1];
    if Freed(e).Some? && Freed(e).value != 0 {
      LiveIsHeldByEvent(before, Freed(e).value);
    }
  }

  lemma {:induction false} EventOf(log: seq<u8>, n: nat, k: nat)
    requires k < n && HEADER + RECORD * n <= |log|
    ensures EventsOf(log, n)[k] == EventAt(log, k)
    decreases n
  {
    hide EventAt;
    if k < n - 1 {
      EventOf(log, n - 1, k);
    }
  }

  // Record `k` as an event.
  lemma RecordEvent(log: seq<u8>, k: nat, a: u64)
    requires |log| >= HEADER && k < CompleteRecords(log)
    ensures var e := EventsOf(log, CompleteRecords(log))[k];
      && e == EventAt(log, k)
      && (e.depth <= |e.slots| ==> (Allocates(e) <==> RecordAllocates(log, k)))
      && (a != 0 ==> (Freed(e) == Some(a) <==> RecordFrees(log, k, a)))
      && e.address == Word(log, 32 + 552 * k + 8) && e.size == Word(log, 32 + 552 * k + 24)
  {
    hide Word;
    EventOf(log, CompleteRecords(log), k);
  }

  // Every event of a log that replays has at most 64 frames.
  lemma {:induction false} DepthsInRange(events: seq<Event>, k: nat)
    requires ReplayAll(events).Ok? && k < |events|
    ensures events[k].depth <= MAX_DEPTH && events[k].depth <= |events[k].slots|
    decreases |events|
  {
    hide EventStack;
    if k < |events| - 1 {
      DepthsInRange(events[..|events| - 1], k);
    }
  }

  lemma EventRecordStack(log: seq<u8>, k: nat, mapping: u64 -> Option<HeapMapping>,
                         symbol: u64 -> Option<FrameInfo>)
    requires 32 + 552 * (k + 1) <= |log| && EventAt(log, k).depth <= MAX_DEPTH
    ensures RecordStack(log, k, RekeyStack(EventStack(EventAt(log, k)), mapping, symbol), mapping, symbol)
  {
    hide Word;
    var e := EventAt(log, k);
    BacktraceFrames(e.slots[..e.depth], EventStack(e));
  }

  lemma PlainRekey(s: Stack)
    requires forall i :: 0 <= i < |s| ==> s[i].mapping == None
    ensures RekeyStack(s, Unmapped, Unnamed) == s
  {
    forall i | 0 <= i < |s| ensures RekeyStack(s, Unmapped, Unnamed)[i] == s[i] {
    }
  }

  // The live blocks of a log that replays.
  lemma LiveRecords(log: seq<u8>)
    requires |log| >= HEADER && ReplayAll(EventsOf(log, CompleteRecords(log))).Ok?
    ensures LiveBlocksOfRecords(log, ReplayAll(EventsOf(log, CompleteRecords(log))).value.ledger.live)
  {
    hide ReplayAll, EventsOf, EventAt, EventStack, RecordStack, RecordAllocates, RecordFrees, Word, Freed;
    var events := EventsOf(log, CompleteRecords(log));
    var live := ReplayAll(events).value.ledger.live;
    NullIsNotLive(events);
    forall k: nat, a: u64 | k < CompleteRecords(log) && a != 0
      ensures RecordHolds(log, k, a) <==> EventHolds(events, k, a)
    {
      RecordHoldsEvent(log, k, a);
    }
    forall a | a in live ensures exists k: nat :: k < CompleteRecords(log) && RecordHolds(log, k, a) {
      LiveIsHeldByEvent(events, a);
      var i: nat :| EventHolds(events, i, a);
      assert RecordHolds(log, i, a);
    }
    forall k: nat, a: u64 | k < CompleteRecords(log) && RecordHolds(log, k, a)
      ensures a in live && live[a].size == Word(log, 32 + 552 * k + 24)
      ensures RecordStack(log, k, live[a].stack, Unmapped, Unnamed)
    {
      HeldBlock(log, k, a);
    }
  }

  lemma {:induction false} NullIsNotLive(events: seq<Event>)
    requires ReplayAll(events).Ok?
    ensures 0 !in ReplayAll(events).value.ledger.live
    decreases |events|
  {
    hide EventStack;
    if events != [] {
      NullIsNotLive(events[..|events| - 1]);
    }
  }

  lemma RecordHoldsEvent(log: seq<u8>, k: nat, a: u64)
    requires |log| >= HEADER && k < CompleteRecords(log) && a != 0
    requires ReplayAll(EventsOf(log, CompleteRecords(log))).Ok?
    ensures RecordHolds(log, k, a) <==> EventHolds(EventsOf(log, CompleteRecords(log)), k, a)
  {
    hide ReplayAll, EventsOf, EventAt, RecordAllocates, RecordFrees, Word, Freed;
    var events := EventsOf(log, CompleteRecords(log));
    forall j: nat | j < CompleteRecords(log)
      ensures Allocates(events[j]) <==> RecordAllocates(log, j)
      ensures Freed(events[j]) == Some(a) <==> RecordFrees(log, j, a)
      ensures events[j].address == Word(log, 32 + 552 * j + 8)
    {
      DepthsInRange(events, j);
      RecordEvent(log, j, a);
    }
  }

  lemma HeldBlock(log: seq<u8>, k: nat, a: u64)
    requires |log| >= HEADER && k < CompleteRecords(log) && RecordHolds(log, k, a)
    requires ReplayAll(EventsOf(log, CompleteRecords(log))).Ok?
    ensures var live := ReplayAll(EventsOf(log, CompleteRecords(log))).value.ledger.live;
      && a in live && live[a].size == Word(log, 32 + 552 * k + 24)
      && RecordStack(log, k, live[a].stack, Unmapped, Unnamed)
  {
    var events := EventsOf(log, CompleteRecords(log));
    hide ReplayAll, EventsOf, EventAt, RecordStack, RecordFrees, Word, Freed;
    assert a != 0;
    RecordHoldsEvent(log, k, a);
    LiveIsHeldByEvent(events, a);
    RecordEvent(log, k, a);
    DepthsInRange(events, k);
    EventRecordStack(log, k, Unmapped, Unnamed);
    PlainRekey(EventStack(events[k]));
  }

  lemma CheckpointKeys(l: Ledger)
    requires l.Valid()
    ensures Checkpoint(l).Keys == l.allocs.Keys
  {
    hide Inuse, Ledger.Valid;
  }

  // One record, and the stack it comes to in a profile.
  ghost predicate Accounts(log: seq<u8>, k: nat, e: Event, mapping: u64 -> Option<HeapMapping>,
                           symbol: u64 -> Option<FrameInfo>)
    requires 32 + 552 * (k + 1) <= |log|
  {
    && (Allocates(e) <==> RecordAllocates(log, k))
    && e.depth <= |e.slots|
    && RecordStack(log, k, RekeyStack(EventStack(e), mapping, symbol), mapping, symbol)
  }

  lemma RecordsAccount(log: seq<u8>, mapping: u64 -> Option<HeapMapping>, symbol: u64 -> Option<FrameInfo>)
    requires |log| >= HEADER && ReplayAll(EventsOf(log, CompleteRecords(log))).Ok?
    ensures forall k: nat :: k < CompleteRecords(log) ==>
      Accounts(log, k, EventsOf(log, CompleteRecords(log))[k], mapping, symbol)
  {
    hide ReplayAll, EventsOf, EventAt, EventStack, RekeyStack, RecordStack, RecordAllocates, Word;
    var events := EventsOf(log, CompleteRecords(log));
    forall k: nat | k < CompleteRecords(log) ensures Accounts(log, k, events[k], mapping, symbol) {
      DepthsInRange(events, k);
      RecordEvent(log, k, 0);
      EventRecordStack(log, k, mapping, symbol);
    }
  }

  // The stacks of a re-keyed checkpoint.
  lemma SnapshotStacks(log: seq<u8>, before: map<Stack, HeapValues>, after: map<Stack, HeapValues>,
                       mapping: u64 -> Option<HeapMapping>, symbol: u64 -> Option<FrameInfo>)
    requires |log| >= HEADER && ReplayAll(EventsOf(log, CompleteRecords(log))).Ok?
    requires before.Keys == ReplayAll(EventsOf(log, CompleteRecords(log))).value.ledger.allocs.Keys
    requires Rekeyed(before, after, mapping, symbol)
    ensures StacksOfRecords(log, after.Keys, mapping, symbol)
  {
    hide ReplayAll, EventsOf, EventStack, RekeyStack, RecordStack, RecordAllocates, Rekeyed, Accounts, Word;
    RecordsAccount(log, mapping, symbol);
    forall k: nat | k < CompleteRecords(log) && RecordAllocates(log, k)
      ensures exists s :: s in after.Keys && RecordStack(log, k, s, mapping, symbol)
    {
      RecordArrives(log, k, before, after, mapping, symbol);
    }
    forall t | t in after.Keys
      ensures exists k: nat :: k < CompleteRecords(log) && RecordAllocates(log, k)
                               && RecordStack(log, k, t, mapping, symbol)
    {
      StackOfRecord(log, t, before, after, mapping, symbol);
    }
  }

  lemma RecordArrives(log: seq<u8>, k: nat, before: map<Stack, HeapValues>, after: map<Stack, HeapValues>,
                      mapping: u64 -> Option<HeapMapping>, symbol: u64 -> Option<FrameInfo>)
    requires |log| >= HEADER && ReplayAll(EventsOf(log, CompleteRecords(log))).Ok?
    requires before.Keys == ReplayAll(EventsOf(log, CompleteRecords(log))).value.ledger.allocs.Keys
    requires Rekeyed(before, after, mapping, symbol)
    requires k < CompleteRecords(log) && RecordAllocates(log, k)
    requires Accounts(log, k, EventsOf(log, CompleteRecords(log))[k], mapping, symbol)
    ensures exists s :: s in after.Keys && RecordStack(log, k, s, mapping, symbol)
  {
    hide ReplayAll, EventsOf, EventStack, RekeyStack, RecordStack, RecordAllocates, Word, LogStack;
    var events := EventsOf(log, CompleteRecords(log));
    ReplayedStacks(events, EventStack(events[k]));
    assert EventStack(events[k]) in before;
    assert RekeyStack(EventStack(events[k]), mapping, symbol) in after.Keys;
  }

  lemma StackOfRecord(log: seq<u8>, t: Stack, before: map<Stack, HeapValues>, after: map<Stack, HeapValues>,
                      mapping: u64 -> Option<HeapMapping>, symbol: u64 -> Option<FrameInfo>)
    requires |log| >= HEADER && ReplayAll(EventsOf(log, CompleteRecords(log))).Ok?
    requires before.Keys == ReplayAll(EventsOf(log, CompleteRecords(log))).value.ledger.allocs.Keys
    requires Rekeyed(before, after, mapping, symbol) && t in after
    requires forall k: nat :: k < CompleteRecords(log) ==>
      Accounts(log, k, EventsOf(log, CompleteRecords(log))[k], mapping, symbol)
    ensures exists k: nat :: k < CompleteRecords(log) && RecordAllocates(log, k)
                             && RecordStack(log, k, t, mapping, symbol)
  {
    hide ReplayAll, EventsOf, EventStack, RekeyStack, RecordStack, RecordAllocates, Word, LogStack;
    var events := EventsOf(log, CompleteRecords(log));
    var s :| s in before && t == RekeyStack(s, mapping, symbol) && after[t] == before[s];
    ReplayedStacks(events, s);
    var i: nat :| i < |events| && Allocates(events[i]) && EventStack(events[i]) == s;
    assert Accounts(log, i, events[i], mapping, symbol);
    assert RecordAllocates(log, i) && RecordStack(log, i, t, mapping, symbol);
  }
}
