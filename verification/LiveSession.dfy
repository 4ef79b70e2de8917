/** Live streaming of a profiling session as a state machine: the profiler's cursor and publisher
    (`src/sampler/mod.rs`, `src/main.rs`, `src/stream.rs`) on one side, the app's receiver and journal
    (`SessionCoordinator.swift`) on the other, and between them connections that can break.

    A connection carries whole frames first and possibly a torn one at its end; module SessionStream
    proves that the app sees some first frames of it, in order, whatever the reads.  A delta's payload
    stands here as the delta itself. */
module LiveSession {
  import opened Prelude
  import opened SessionStream

  // A thread and a stack of addresses.
  type Key = (u64, seq<u64>)

  datatype Series = Series(count: u64, timestamps: Option<seq<u64>>)

  type Snapshot = map<Key, Series>
  type Counts = map<Key, u64>

  // ----- Series and cursors -----

  /** `push_timestamp`. */
  function PushTimestamp(s: Series, t: u64): Series {
    Series(Min(s.count + 1, U64_SIZE - 1), Some((if s.timestamps.Some? then s.timestamps.value else []) + [t]))
  }

  function Skip<T>(items: seq<T>, n: nat): seq<T> {
    if n <= |items| then items[n..] else []
  }

  function Counted(counts: Counts, k: Key): u64 {
    if k in counts then counts[k] else 0
  }

  function CountIn(snapshot: Snapshot, k: Key): u64 {
    if k in snapshot then snapshot[k].count else 0
  }

  predicate Fresh(counts: Counts, snapshot: Snapshot, k: Key) {
    k in snapshot && snapshot[k].count > Counted(counts, k)
  }

  function NewPart(s: Series, previous: u64): Series
    requires s.count > previous
  {
    Series(s.count - previous, if s.timestamps.Some? then Some(Skip(s.timestamps.value, previous)) else None)
  }

  // What some keys have beyond a cursor.
  function NewParts(counts: Counts, snapshot: Snapshot, keys: set<Key>): Snapshot {
    map k | k in keys && Fresh(counts, snapshot, k) :: NewPart(snapshot[k], Counted(counts, k))
  }

  function NewCounts(counts: Counts, snapshot: Snapshot, keys: set<Key>): Counts {
    map k | k in keys && Fresh(counts, snapshot, k) :: snapshot[k].count
  }

  /** What a snapshot has beyond a cursor. */
  function DeltaOf(counts: Counts, snapshot: Snapshot): Snapshot {
    NewParts(counts, snapshot, snapshot.Keys)
  }

  function Advanced(counts: Counts, snapshot: Snapshot): Counts {
    counts + NewCounts(counts, snapshot, snapshot.Keys)
  }

  lemma NextPart(counts: Counts, snapshot: Snapshot, keys: set<Key>, k: Key)
    requires k !in keys
    ensures NewParts(counts, snapshot, keys + {k}) ==
      if Fresh(counts, snapshot, k) then NewParts(counts, snapshot, keys)[k := NewPart(snapshot[k], Counted(counts, k))]
      else NewParts(counts, snapshot, keys)
  {
  }

  lemma NextCount(counts: Counts, snapshot: Snapshot, keys: set<Key>, k: Key)
    requires k !in keys
    ensures counts + NewCounts(counts, snapshot, keys + {k}) ==
      if Fresh(counts, snapshot, k) then (counts + NewCounts(counts, snapshot, keys))[k := snapshot[k].count]
      else counts + NewCounts(counts, snapshot, keys)
  {
  }

  /** `RawProfileCursor`. */
  class RawProfileCursor {
    var counts: Counts

    constructor (initial: Counts)
      ensures counts == initial
    {
      counts := initial;
    }

    /** `delta`: what is new, and the cursor moves past it; nothing new is no delta. */
    method Delta(profile: Snapshot) returns (delta: Option<Snapshot>)
      modifies this
      ensures counts == Advanced(old(counts), profile)
      ensures delta == if DeltaOf(old(counts), profile) == map[] then None else Some(DeltaOf(old(counts), profile))
    {
      ghost var before := counts;
      var stacks: Snapshot := map[];
      var todo := profile.Keys;
      ghost var done: set<Key> := {};
      assert NewCounts(before, profile, done) == map[] && NewParts(before, profile, done) == map[];
      assert before + map[] == before;
      while todo != {}
        invariant todo !! done && todo + done == profile.Keys
        invariant stacks == NewParts(before, profile, done)
        invariant counts == before + NewCounts(before, profile, done)
      {
        var key :| key in todo;
        todo := todo - {key};
        NextPart(before, profile, done, key);
        NextCount(before, profile, done, key);
        var series := profile[key];
        var previous := if key in counts then counts[key] else 0;
        assert previous == Counted(before, key);
        if series.count > previous {
          var timestamps := if series.timestamps.Some? then Some(Skip(series.timestamps.value, previous)) else None;
          stacks := stacks[key := Series(series.count - previous, timestamps)];
          counts := counts[key := series.count];
        }
        done := done + {key};
      }
      assert done == profile.Keys;
      if stacks == map[] {
        return None;
      }
      return Some(stacks);
    }
  }

  // ----- The machine -----

  // A frame as the receiver understands it.
  datatype Packet = Packet(kind: FrameKind, sequence: u64, delta: Snapshot)

  // `applied` remembers which packets the accumulator has merged.
  datatype Runtime = Runtime(last: u64, totals: map<Key, nat>, applied: seq<Packet>)

  /** A stored session, and whether it has a path to its journal.  The first hello of a session that is not
      stored gives it one, and a stored final profile takes it away; a session that the app launched is stored
      without one. */
  datatype Stored = NoSession | Session(hasJournal: bool)

  const PATHLESS: Stored := Session(false)

  datatype State = State(
    // The profiler.
    snapshot: Snapshot,
    cursor: Counts,
    stream: Option<nat>,            // the open connection
    sequence: u64,
    committed: seq<Packet>,         // the deltas whose send succeeded
    checkpoints: seq<Packet>,       // the checkpoints whose send succeeded
    // The network: the whole frames written on each connection so far, and how many the app was handed.
    wires: seq<seq<Packet>>,
    delivered: seq<nat>,
    // The app.
    closed: nat,                    // the connections before this one ended with an earlier life of the app
    greeted: set<nat>,              // `connectionSessions`
    runtime: Option<Runtime>,
    journal: seq<Packet>,
    stored: Stored)                 // what the app's store has of the session

  datatype ConnectOutcome = Refused | NoConnection | HelloBroken | HelloWritten

  datatype Step =
    | Sample(key: Key, timestamp: u64)
    | Publish(connect: ConnectOutcome, written: bool)
    | SendCheckpoint(content: Snapshot, connect: ConnectOutcome, written: bool)
    | SendOther(kind: FrameKind, connect: ConnectOutcome, written: bool)
    | Deliver(connection: nat, journaled: bool)
    | Late(connection: nat, index: nat, journaled: bool)
    | Restart

  // `saturating_add(1)`.
  function NextSequence(sequence: u64): u64 {
    Min(sequence + 1, U64_SIZE - 1)
  }

  function HelloPacket(sequence: u64): Packet {
    Packet(Hello, sequence, map[])
  }

  /** `ensure_connected`: a new connection starts with a hello, and only a written one is kept. */
  function EnsureConnected(s: State, connect: ConnectOutcome): State {
    if s.stream.Some? then s
    else
      match connect
      case Refused => s
      case NoConnection => s
      case HelloBroken =>
        s.(sequence := NextSequence(s.sequence), wires := s.wires + [[]], delivered := s.delivered + [0])
      case HelloWritten =>
        s.(sequence := NextSequence(s.sequence), stream := Some(|s.wires|),
           wires := s.wires + [[HelloPacket(NextSequence(s.sequence))]], delivered := s.delivered + [0])
  }

  /** `send` on an open connection: a failed write ends the connection, and at most a torn frame got out. */
  function SendOn(s: State, kind: FrameKind, delta: Snapshot, written: bool): State
    requires s.stream.Some? && s.stream.value < |s.wires|
  {
    var sequence := NextSequence(s.sequence);
    var c := s.stream.value;
    if written then s.(sequence := sequence, wires := s.wires[c := s.wires[c] + [Packet(kind, sequence, delta)]])
    else s.(sequence := sequence, stream := None)
  }

  /** `publish_update`: the candidate cursor is kept only if its delta was sent. */
  function PublishUpdate(s: State, connect: ConnectOutcome, written: bool): State
    requires s.stream.Some? ==> s.stream.value < |s.wires|
  {
    var t := EnsureConnected(s, connect);
    if t.stream.None? then t
    else
      var delta := DeltaOf(t.cursor, t.snapshot);
      if delta == map[] then t
      else
        var u := SendOn(t, ProfileDelta, delta, written);
        if !written then u
        else u.(cursor := Advanced(t.cursor, t.snapshot), committed := t.committed
                + [Packet(ProfileDelta, u.sequence, delta)])
  }

  /** `publish_heap_checkpoint`: a whole profile, which takes the place of what the app has. */
  function PublishCheckpoint(s: State, content: Snapshot, connect: ConnectOutcome, written: bool): State
    requires s.stream.Some? ==> s.stream.value < |s.wires|
  {
    var t := EnsureConnected(s, connect);
    if t.stream.None? then t
    else
      var u := SendOn(t, ProfileCheckpoint, content, written);
      if !written then u
      else u.(checkpoints := t.checkpoints + [Packet(ProfileCheckpoint, u.sequence, content)])
  }

  // ----- Receiving -----

  function DeltaCount(p: Packet, k: Key): nat {
    if k in p.delta then p.delta[k].count else 0
  }

  // `merge` and `replace`, on counts.
  function MergeCounts(totals: map<Key, nat>, delta: Snapshot): map<Key, nat> {
    map k | k in totals.Keys + delta.Keys ::
      (if k in totals then totals[k] else 0) + (if k in delta then delta[k].count else 0)
  }

  function ReplaceCounts(delta: Snapshot): map<Key, nat> {
    map k | k in delta :: delta[k].count
  }

  predicate IsProfile(p: Packet) {
    p.kind == ProfileCheckpoint || p.kind == ProfileDelta
  }

  // What the accumulator does with a packet.
  function Accumulate(r: Runtime, p: Packet): Runtime {
    if p.kind == ProfileCheckpoint then r.(totals := ReplaceCounts(p.delta), applied := [p])
    else if p.kind == ProfileDelta then r.(totals := MergeCounts(r.totals, p.delta), applied := r.applied + [p])
    else r
  }

  const NEW_RUNTIME: Runtime := Runtime(0, map[], [])

  /** `replayJournal`: the profile frames again, and the largest sequence among them. */
  function Replay(journal: seq<Packet>): Runtime {
    if journal == [] then NEW_RUNTIME
    else
      var p := journal[|journal| - 1];
      var r := Replay(journal[..|journal| - 1]);
      if !IsProfile(p) then r else Accumulate(r, p).(last := Max(r.last, p.sequence))
  }

  // A frame that is not a hello counts when its connection is known and its sequence new.
  predicate Accepts(s: State, c: nat, p: Packet) {
    p.kind != Hello && c in s.greeted && s.runtime.Some? && p.sequence > s.runtime.value.last
  }

  predicate StoresFinal(p: Packet, journaled: bool) {
    p.kind == FinalProfile && journaled
  }

  /** `receive`: a hello opens the session, and brings it back from its journal if the app was restarted;
      other frames only count when their sequence is new. */
  function Receive(s: State, c: nat, p: Packet, journaled: bool): State {
    if p.kind == Hello then
      s.(greeted := s.greeted + {c},
         runtime := if s.runtime.Some? then s.runtime
                    else Some(if s.stored == Session(true) then Replay(s.journal) else NEW_RUNTIME),
         stored := if s.stored.NoSession? then Session(true) else s.stored)
    else if !Accepts(s, c, p) then s
    else
      s.(runtime := Some(Accumulate(s.runtime.value.(last := p.sequence), p)),
         // An append can fail, and so can storing a final profile, which removes the journal.
         journal := if IsProfile(p) && journaled then s.journal + [p]
                    else if StoresFinal(p, journaled) then []
                    else s.journal,
         stored := if StoresFinal(p, journaled) then PATHLESS else s.stored)
  }

  predicate Enabled(s: State, step: Step) {
    match step
    case Sample(key, _) =>
      key in s.snapshot && s.snapshot[key].timestamps.Some? ==> |s.snapshot[key].timestamps.value| < I64_MAX
    case Publish(_, _) => s.stream.Some? ==> s.stream.value < |s.wires|
    case SendCheckpoint(_, _, _) => s.stream.Some? ==> s.stream.value < |s.wires|
    case SendOther(kind, connect, _) =>
      && (s.stream.Some? ==> s.stream.value < |s.wires|)
      && kind != Hello && kind != ProfileCheckpoint && kind != ProfileDelta
    case Deliver(c, _) =>
      s.closed <= c < |s.wires| == |s.delivered| && s.delivered[c] < |s.wires[c]|
    // Each frame is handed over by a task of its own, so that any frame can come at any time.
    case Late(c, i, _) => s.closed <= c < |s.wires| && i < |s.wires[c]|
    case Restart => true
  }

  function After(s: State, step: Step): State
    requires Enabled(s, step)
  {
    match step
    case Sample(key, timestamp) =>
      var series := if key in s.snapshot then s.snapshot[key] else Series(0, Some([]));
      s.(snapshot := s.snapshot[key := PushTimestamp(series, timestamp)])
    case Publish(connect, written) => PublishUpdate(s, connect, written)
    case SendCheckpoint(content, connect, written) => PublishCheckpoint(s, content, connect, written)
    case SendOther(kind, connect, written) =>
      var t := EnsureConnected(s, connect);
      if t.stream.None? then t else SendOn(t, kind, map[], written)
    case Deliver(c, journaled) =>
      Receive(s, c, s.wires[c][s.delivered[c]], journaled).(delivered := s.delivered[c := s.delivered[c] + 1])
    case Late(c, i, journaled) => Receive(s, c, s.wires[c][i], journaled)
    case Restart => s.(runtime := None, greeted := {}, closed := |s.wires|)
  }

  ghost predicate Initial(s: State) {
    && s.snapshot == map[] && s.cursor == map[] && s.stream.None? && s.sequence == 0
    && s.committed == [] && s.checkpoints == [] && s.wires == [] && s.delivered == []
    && s.closed == 0 && s.greeted == {} && s.runtime.None? && s.journal == [] && s.stored != Session(true)
  }

  // ----- What every run keeps -----

  /** How often a key was sent in some packets. */
  function Total(packets: seq<Packet>, k: Key): nat {
    if packets == [] then 0 else Total(packets[..|packets| - 1], k) + DeltaCount(packets[|packets| - 1], k)
  }

  /** When, one packet after the other. */
  function Stamps(packets: seq<Packet>, k: Key): seq<u64> {
    if packets == [] then []
    else
      var p := packets[|packets| - 1];
      Stamps(packets[..|packets| - 1], k)
      + (if k in p.delta && p.delta[k].timestamps.Some? then p.delta[k].timestamps.value else [])
  }

  function StampsIn(snapshot: Snapshot, k: Key): seq<u64> {
    if k in snapshot && snapshot[k].timestamps.Some? then snapshot[k].timestamps.value else []
  }

  predicate Timed(s: Series) {
    s.timestamps.Some? && s.count == |s.timestamps.value| <= I64_MAX
  }

  /** The committed deltas are the snapshot up to the cursor: counts and timestamps. */
  ghost predicate CursorInv(s: State) {
    && (forall k :: k in s.snapshot ==> Timed(s.snapshot[k]))
    && (forall k: Key ::
          && Total(s.committed, k) == Counted(s.cursor, k) <= CountIn(s.snapshot, k) == |StampsIn(s.snapshot, k)|
          && Stamps(s.committed, k) == StampsIn(s.snapshot, k)[..Counted(s.cursor, k)])
  }

  /** Sequences grow, until they saturate. */
  predicate Rising(packets: seq<Packet>) {
    forall i, j :: 0 <= i < j < |packets| ==>
      packets[i].sequence < packets[j].sequence || packets[j].sequence == U64_SIZE - 1
  }

  predicate StrictlyRising(packets: seq<Packet>) {
    forall i, j :: 0 <= i < j < |packets| ==> packets[i].sequence < packets[j].sequence
  }

  /** Everything written, connection after connection. */
  function Flat(wires: seq<seq<Packet>>): seq<Packet> {
    if wires == [] then [] else Flat(wires[..|wires| - 1]) + wires[|wires| - 1]
  }

  function Deltas(packets: seq<Packet>): seq<Packet> {
    if packets == [] then []
    else
      var p := packets[|packets| - 1];
      Deltas(packets[..|packets| - 1]) + if p.kind == ProfileDelta then [p] else []
  }

  /** What is left when each checkpoint takes the place of all before it: it, and the deltas after it. */
  function Since(packets: seq<Packet>): seq<Packet> {
    if packets == [] then []
    else
      var before, p := Since(packets[..|packets| - 1]), packets[|packets| - 1];
      if p.kind == ProfileCheckpoint then [p] else if p.kind == ProfileDelta then before + [p] else before
  }

  ghost predicate AllIn(packets: seq<Packet>, committed: seq<Packet>) {
    forall p :: p in packets ==> p in committed
  }

  // Every profile among these was sent.
  ghost predicate AllSent(packets: seq<Packet>, s: State) {
    forall p :: p in packets ==>
      IsProfile(p) && (p.kind == ProfileDelta ==> p in s.committed)
        && (p.kind == ProfileCheckpoint ==> p in s.checkpoints)
  }

  /** What is on the wires was committed, and nothing newer than the publisher is anywhere. */
  ghost predicate WireInv(s: State) {
    && |s.delivered| == |s.wires|
    && (forall c :: 0 <= c < |s.wires| ==> s.delivered[c] <= |s.wires[c]|)
    && (s.stream.Some? ==> s.stream.value + 1 == |s.wires| && s.wires[s.stream.value] != [])
    && Rising(Flat(s.wires))
    && Deltas(Flat(s.wires)) == s.committed
    && (forall p :: p in Flat(s.wires) ==>
        0 < p.sequence <= s.sequence && (p.kind == ProfileCheckpoint ==> p in s.checkpoints))
    && (forall c :: 0 <= c < |s.wires| && s.wires[c] != [] ==> s.wires[c][0].kind == Hello)
  }

  // Deltas, and in front of them perhaps a checkpoint.
  predicate Led(packets: seq<Packet>) {
    forall i :: 0 < i < |packets| ==> packets[i].kind == ProfileDelta
  }

  /** What the app has merged is a selection of what was sent, each once. */
  ghost predicate Merged(r: Runtime, s: State) {
    && StrictlyRising(r.applied) && AllSent(r.applied, s) && Led(r.applied)
    && (forall p :: p in r.applied ==> p.sequence <= r.last)
    && TotalsOf(r.totals, r.applied)
  }

  ghost predicate JournalInv(s: State) {
    && StrictlyRising(s.journal) && AllSent(s.journal, s)
    && (s.runtime.Some? ==> forall p :: p in s.journal ==> p.sequence <= s.runtime.value.last)
  }

  ghost predicate AppInv(s: State) {
    && (s.stored != PATHLESS ==> JournalInv(s))
    && (s.stored.NoSession? ==> s.runtime.None? && s.journal == [])
    && (s.runtime.Some? ==> Merged(s.runtime.value, s))
  }

  ghost predicate Inv(s: State) {
    CursorInv(s) && WireInv(s) && AppInv(s)
  }

  // ----- The profiler's side -----

  lemma TotalAppend(packets: seq<Packet>, p: Packet, k: Key)
    ensures Total(packets + [p], k) == Total(packets, k) + DeltaCount(p, k)
  {
    assert (packets + [p])[..|packets|] == packets;
  }

  lemma StampsAppend(packets: seq<Packet>, p: Packet, k: Key)
    ensures Stamps(packets + [p], k)
         == Stamps(packets, k) + if k in p.delta && p.delta[k].timestamps.Some? then p.delta[k].timestamps.value else []
  {
    assert (packets + [p])[..|packets|] == packets;
  }

  lemma SampleKeepsCursor(s: State, key: Key, timestamp: u64)
    requires CursorInv(s) && Enabled(s, Sample(key, timestamp))
    ensures CursorInv(After(s, Sample(key, timestamp)))
  {
    hide Total, Stamps;
    var s' := After(s, Sample(key, timestamp));
    forall k: Key
      ensures Counted(s'.cursor, k) <= CountIn(s'.snapshot, k) == |StampsIn(s'.snapshot, k)|
      ensures StampsIn(s'.snapshot, k)[..Counted(s'.cursor, k)] == StampsIn(s.snapshot, k)[..Counted(s.cursor, k)]
    {
    }
  }

  lemma CommitKeepsCursor(s: State, sequence: u64)
    requires CursorInv(s)
    ensures CursorInv(s.(cursor := Advanced(s.cursor, s.snapshot),
                         committed := s.committed + [Packet(ProfileDelta, sequence, DeltaOf(s.cursor, s.snapshot))]))
  {
    var p := Packet(ProfileDelta, sequence, DeltaOf(s.cursor, s.snapshot));
    var s' := s.(cursor := Advanced(s.cursor, s.snapshot), committed := s.committed + [p]);
    hide Total, Stamps;
    forall k: Key
      ensures Total(s'.committed, k) == Counted(s'.cursor, k) <= CountIn(s'.snapshot, k)
      ensures Stamps(s'.committed, k) == StampsIn(s'.snapshot, k)[..Counted(s'.cursor, k)]
    {
      TotalAppend(s.committed, p, k);
      StampsAppend(s.committed, p, k);
      assert k in s.snapshot ==> Timed(s.snapshot[k]);
      KeyAdvances(s.cursor, s.snapshot, k);
      hide DeltaOf, Advanced;
    }
  }

  // For one key the delta is what lies behind the cursor.
  lemma KeyAdvances(counts: Counts, snapshot: Snapshot, k: Key)
    requires k in snapshot ==> Timed(snapshot[k])
    requires Counted(counts, k) <= CountIn(snapshot, k)
    ensures Counted(Advanced(counts, snapshot), k) == CountIn(snapshot, k)
         == Counted(counts, k) + CountIn(DeltaOf(counts, snapshot), k)
    ensures var stamps := StampsIn(snapshot, k);
      stamps[..Counted(counts, k)] + StampsIn(DeltaOf(counts, snapshot), k) == stamps == stamps[..CountIn(snapshot, k)]
  {
    var stamps, previous := StampsIn(snapshot, k), Counted(counts, k);
    assert stamps[..previous] + stamps[previous..] == stamps && stamps[..|stamps|] == stamps;
  }

  // ----- The wires -----

  lemma FlatAppend(wires: seq<seq<Packet>>, last: seq<Packet>)
    ensures Flat(wires + [last]) == Flat(wires) + last
  {
    assert (wires + [last])[..|wires|] == wires;
  }

  // One more packet on the last connection is one more packet in all.
  lemma FlatSend(wires: seq<seq<Packet>>, p: Packet)
    requires wires != []
    ensures Flat(wires[|wires| - 1 := wires[|wires| - 1] + [p]]) == Flat(wires) + [p]
  {
    var n := |wires| - 1;
    var wires' := wires[n := wires[n] + [p]];
    assert wires'[..n] == wires[..n];
    assert Flat(wires[..n]) + (wires[n] + [p]) == (Flat(wires[..n]) + wires[n]) + [p];
  }

  lemma DeltasAppend(packets: seq<Packet>, p: Packet)
    ensures Deltas(packets + [p]) == Deltas(packets) + if p.kind == ProfileDelta then [p] else []
  {
    assert (packets + [p])[..|packets|] == packets;
  }

  lemma {:induction false} DeltasOnly(packets: seq<Packet>)
    ensures forall p :: p in Deltas(packets) <==> p in packets && p.kind == ProfileDelta
  {
    if packets != [] {
      DeltasOnly(packets[..|packets| - 1]);
      assert packets == packets[..|packets| - 1] + [packets[|packets| - 1]];
    }
  }

  lemma NoDeltas()
    ensures Deltas([]) == []
  {
  }

  lemma {:induction false} DeltasRising(packets: seq<Packet>)
    requires Rising(packets)
    ensures Rising(Deltas(packets))
  {
    hide Deltas;
    NoDeltas();
    if packets != [] {
      var before, last := packets[..|packets| - 1], packets[|packets| - 1];
      assert packets == before + [last];
      DeltasRising(before);
      DeltasOnly(before);
      DeltasAppend(before, last);
      var d := Deltas(before);
      forall i | 0 <= i < |d|
        ensures d[i].sequence < packets[|before|].sequence || packets[|before|].sequence == U64_SIZE - 1
      {
        assert d[i] in before;
        var j :| 0 <= j < |before| && before[j] == d[i];
      }
    }
  }

  lemma RisingAppend(packets: seq<Packet>, p: Packet, sequence: u64)
    requires Rising(packets) && forall q :: q in packets ==> q.sequence <= sequence
    requires p.sequence == NextSequence(sequence)
    ensures Rising(packets + [p])
    ensures forall q :: q in packets + [p] ==> q.sequence <= p.sequence
  {
  }

  // A connection whose hello got through, or did not.
  lemma ConnectKeepsWires(s: State, connect: ConnectOutcome)
    requires WireInv(s)
    ensures WireInv(EnsureConnected(s, connect))
  {
    hide Flat, Deltas, Rising;
    var p := HelloPacket(NextSequence(s.sequence));
    FlatAppend(s.wires, []);
    FlatAppend(s.wires, [p]);
    DeltasAppend(Flat(s.wires), p);
    RisingAppend(Flat(s.wires), p, s.sequence);
    assert Flat(s.wires) + [] == Flat(s.wires);
    assert Deltas(Flat(s.wires)) + [] == Deltas(Flat(s.wires));
  }

  lemma SendKeepsWires(s: State, kind: FrameKind, delta: Snapshot, written: bool)
    requires WireInv(s) && s.stream.Some?
    ensures var t := SendOn(s, kind, delta, written);
      WireInv(if written && kind == ProfileDelta then t.(committed := s.committed + [Packet(kind, t.sequence, delta)])
              else if written && kind == ProfileCheckpoint
                then t.(checkpoints := s.checkpoints + [Packet(kind, t.sequence, delta)])
              else t)
  {
    hide Flat, Deltas, Rising;
    var p := Packet(kind, NextSequence(s.sequence), delta);
    FlatSend(s.wires, p);
    DeltasAppend(Flat(s.wires), p);
    RisingAppend(Flat(s.wires), p, s.sequence);
    assert Deltas(Flat(s.wires)) + [] == Deltas(Flat(s.wires));
  }

  // ----- The app's side -----

  ghost predicate TotalsOf(totals: map<Key, nat>, packets: seq<Packet>) {
    forall k: Key :: (if k in totals then totals[k] else 0) == Total(packets, k)
  }

  lemma MergeTotals(totals: map<Key, nat>, packets: seq<Packet>, p: Packet)
    requires TotalsOf(totals, packets)
    ensures TotalsOf(MergeCounts(totals, p.delta), packets + [p])
  {
    forall k: Key
      ensures (if k in MergeCounts(totals, p.delta) then MergeCounts(totals, p.delta)[k] else 0)
        == Total(packets + [p], k)
    {
      TotalAppend(packets, p, k);
    }
  }

  /** A journal replays to its last checkpoint and the deltas after it. */
  lemma {:induction false} ReplayMerges(journal: seq<Packet>)
    requires forall p :: p in journal ==> IsProfile(p)
    ensures Replay(journal).applied == Since(journal) && TotalsOf(Replay(journal).totals, Since(journal))
    ensures forall p :: p in journal ==> p.sequence <= Replay(journal).last
    ensures Replay(journal).last == 0 || exists p :: p in journal && p.sequence == Replay(journal).last
  {
    hide MergeCounts, TotalsOf, ReplaceCounts;
    NoTotals();
    if journal != [] {
      var before, p := journal[..|journal| - 1], journal[|journal| - 1];
      assert journal == before + [p];
      ReplayMerges(before);
      ReplaceTotals(p);
      MergeTotals(Replay(before).totals, Since(before), p);
      if Replay(journal).last != p.sequence && Replay(before).last != 0 {
        var q :| q in before && q.sequence == Replay(before).last;
        assert q in journal;
      }
    }
  }

  lemma NoTotals()
    ensures TotalsOf(map[], [])
  {
  }

  lemma ReplaceTotals(p: Packet)
    ensures TotalsOf(ReplaceCounts(p.delta), [p])
  {
    assert [p][..0] == [];
  }

  lemma {:induction false} SinceIsLed(packets: seq<Packet>)
    ensures Led(Since(packets)) && forall p :: p in Since(packets) ==> p in packets && IsProfile(p)
  {
    if packets != [] {
      var before := packets[..|packets| - 1];
      SinceIsLed(before);
      assert packets == before + [packets[|packets| - 1]];
    }
  }

  lemma {:induction false} SinceRises(packets: seq<Packet>)
    requires StrictlyRising(packets)
    ensures StrictlyRising(Since(packets))
  {
    if packets != [] {
      var before, p := packets[..|packets| - 1], packets[|packets| - 1];
      SinceRises(before);
      SinceIsLed(before);
      forall i | 0 <= i < |Since(before)| ensures Since(before)[i].sequence < p.sequence {
        assert Since(before)[i] in before;
        var j :| 0 <= j < |before| && before[j] == Since(before)[i];
        assert packets[j] == before[j];
      }
    }
  }

  lemma {:induction false} SinceIsDeltas(packets: seq<Packet>)
    requires forall p :: p in packets ==> p.kind != ProfileCheckpoint
    ensures Since(packets) == Deltas(packets)
  {
    if packets != [] {
      SinceIsDeltas(packets[..|packets| - 1]);
    }
  }

  // One more packet for the runtime.
  lemma AccumulateKeepsMerged(r: Runtime, s: State, p: Packet)
    requires Merged(r, s) && p.sequence > r.last && (IsProfile(p) ==> AllSent([p], s))
    ensures Merged(Accumulate(r.(last := p.sequence), p), s)
  {
    hide MergeCounts, ReplaceCounts, TotalsOf;
    ReplaceTotals(p);
    MergeTotals(r.totals, r.applied, p);
    assert p in [p];
  }

  lemma ReplayIsMerged(s: State)
    requires JournalInv(s)
    ensures Merged(Replay(s.journal), s) && forall p :: p in s.journal ==> p.sequence <= Replay(s.journal).last
  {
    hide Since, Replay, TotalsOf;
    ReplayMerges(s.journal);
    SinceIsLed(s.journal);
    SinceRises(s.journal);
  }

  lemma NewIsMerged(s: State)
    ensures Merged(NEW_RUNTIME, s)
  {
    NoTotals();
  }

  lemma JournalOn(s: State, t: State, p: Packet)
    requires JournalInv(s) && s.runtime.Some? && t.runtime.Some?
    requires t.runtime.value.last == p.sequence > s.runtime.value.last
    requires t.committed == s.committed && t.checkpoints == s.checkpoints
    requires t.journal == s.journal || (t.journal == s.journal + [p] && AllSent([p], s))
    ensures JournalInv(t)
  {
    assert p in [p];
    assert forall q :: q in t.journal ==> q in s.journal || q == p;
  }

  lemma MergedAside(r: Runtime, s: State, t: State)
    requires Merged(r, s) && s.committed <= t.committed && s.checkpoints <= t.checkpoints
    ensures Merged(r, t)
  {
    hide StrictlyRising, TotalsOf;
  }

  lemma ReceiveKeepsApp(s: State, c: nat, p: Packet, journaled: bool)
    requires AppInv(s) && (IsProfile(p) ==> AllSent([p], s))
    ensures AppInv(Receive(s, c, p, journaled))
  {
    hide Merged, JournalInv, AllSent, Accumulate, Replay;
    var t := Receive(s, c, p, journaled);
    AccumulateLast(s, p);
    if p.kind == Hello {
      if s.runtime.None? {
        NewIsMerged(t);
        if s.stored == Session(true) {
          ReplayIsMerged(s);
          MergedAside(Replay(s.journal), s, t);
        }
        HelloJournal(s, t);
      } else {
        MergedAside(s.runtime.value, s, t);
        HelloJournal(s, t);
      }
    } else if Accepts(s, c, p) {
      AccumulateKeepsMerged(s.runtime.value, s, p);
      MergedAside(t.runtime.value, s, t);
      if t.stored != PATHLESS {
        JournalOn(s, t, p);
      }
    }
  }

  lemma AccumulateLast(s: State, p: Packet)
    ensures s.runtime.Some? ==> Accumulate(s.runtime.value.(last := p.sequence), p).last == p.sequence
  {
  }

  lemma HelloJournal(s: State, t: State)
    requires t == s.(greeted := t.greeted, runtime := t.runtime, stored := t.stored)
    requires s.stored != PATHLESS ==> JournalInv(s)
    requires s.stored.NoSession? ==> s.journal == []
    requires s.runtime.Some? ==> t.runtime == s.runtime
    requires s.runtime.None? && s.stored == Session(true) ==> t.runtime == Some(Replay(s.journal))
    ensures s.stored != PATHLESS ==> JournalInv(t)
  {
    if s.stored == Session(true) && s.runtime.None? {
      ReplayIsMerged(s);
    }
  }

  lemma {:induction false} FlatHolds(wires: seq<seq<Packet>>, c: nat, i: nat)
    requires c < |wires| && i < |wires[c]|
    ensures wires[c][i] in Flat(wires)
  {
    if c < |wires| - 1 {
      FlatHolds(wires[..|wires| - 1], c, i);
    }
  }

  // More commits leave the app's side alone.
  lemma CommitKeepsApp(s: State, t: State)
    requires AppInv(s) && s.committed <= t.committed && s.checkpoints <= t.checkpoints
    requires t.journal == s.journal && t.runtime == s.runtime && t.stored == s.stored
    ensures AppInv(t)
  {
    hide StrictlyRising, TotalsOf, Led;
  }

  lemma PublishKeepsInv(s: State, connect: ConnectOutcome, written: bool)
    requires Inv(s)
    ensures Inv(PublishUpdate(s, connect, written))
  {
    hide CursorInv, WireInv, AppInv, DeltaOf, Advanced;
    WireOk(s);
    ConnectKeepsWires(s, connect);
    var t := EnsureConnected(s, connect);
    ConnectAside(s, t);
    WireOk(t);
    var delta, u := DeltaOf(t.cursor, t.snapshot), PublishUpdate(s, connect, written);
    CommitKeepsApp(s, u);
    if t.stream.Some? && delta != map[] {
      SendKeepsWires(t, ProfileDelta, delta, written);
      if written {
        CommitKeepsCursor(t, NextSequence(t.sequence));
        ConnectAside(t.(cursor := u.cursor, committed := u.committed), u);
        CursorAside(u.(cursor := t.cursor), u);
      } else {
        ConnectAside(t, u);
      }
    }
  }

  lemma CursorAside(s: State, t: State)
    requires WireInv(s) && t == s.(cursor := t.cursor)
    ensures WireInv(t)
  {
  }

  lemma WireOk(s: State)
    requires WireInv(s)
    ensures s.stream.Some? ==> s.stream.value < |s.wires|
  {
  }

  // The cursor's invariant is about nothing but the cursor, the snapshot and the commits.
  lemma ConnectAside(s: State, t: State)
    requires CursorInv(s) && t.snapshot == s.snapshot && t.cursor == s.cursor && t.committed == s.committed
    ensures CursorInv(t)
  {
  }

  lemma DeliverKeepsInv(s: State, c: nat, journaled: bool)
    requires Inv(s) && Enabled(s, Deliver(c, journaled))
    ensures Inv(After(s, Deliver(c, journaled)))
  {
    hide CursorInv, WireInv, AppInv, Receive;
    var p := s.wires[c][s.delivered[c]];
    OnlyTheApp(s, c, p, journaled);
    WirePacket(s, c, s.delivered[c]);
    ReceiveKeepsApp(s, c, p, journaled);
    var u := After(s, Deliver(c, journaled));
    CommitKeepsApp(Receive(s, c, p, journaled), u);
    ConnectAside(s, u);
    DeliverKeepsWires(s, u, c);
  }

  lemma LateKeepsInv(s: State, c: nat, i: nat, journaled: bool)
    requires Inv(s) && Enabled(s, Late(c, i, journaled))
    ensures Inv(After(s, Late(c, i, journaled)))
  {
    hide CursorInv, WireInv, AppInv, Receive;
    OnlyTheApp(s, c, s.wires[c][i], journaled);
    WirePacket(s, c, i);
    ReceiveKeepsApp(s, c, s.wires[c][i], journaled);
    var u := After(s, Late(c, i, journaled));
    ConnectAside(s, u);
    AppAside(s, u);
  }

  lemma WirePacket(s: State, c: nat, i: nat)
    requires WireInv(s) && c < |s.wires| && i < |s.wires[c]|
    ensures IsProfile(s.wires[c][i]) ==> AllSent([s.wires[c][i]], s)
  {
    FlatHolds(s.wires, c, i);
    DeltasOnly(Flat(s.wires));
    hide Flat, Deltas;
  }

  lemma DeliverKeepsWires(s: State, t: State, c: nat)
    requires WireInv(s) && c < |s.wires| == |s.delivered| && s.delivered[c] < |s.wires[c]|
    requires t == s.(delivered := s.delivered[c := s.delivered[c] + 1], greeted := t.greeted, runtime := t.runtime,
                     journal := t.journal,
                     stored := t.stored)
    ensures WireInv(t)
  {
    hide Flat, Deltas, Rising;
  }

  // The wires know nothing of the app.
  lemma AppAside(s: State, t: State)
    requires WireInv(s)
    requires t == s.(greeted := t.greeted, runtime := t.runtime, journal := t.journal, stored := t.stored,
                     closed := t.closed)
    ensures WireInv(t)
  {
    hide Flat, Deltas, Rising;
  }

  lemma CheckpointKeepsInv(s: State, content: Snapshot, connect: ConnectOutcome, written: bool)
    requires Inv(s)
    ensures (WireOk(s); Inv(PublishCheckpoint(s, content, connect, written)))
  {
    hide CursorInv, WireInv, AppInv;
    WireOk(s);
    ConnectKeepsWires(s, connect);
    var t := EnsureConnected(s, connect);
    WireOk(t);
    var u := PublishCheckpoint(s, content, connect, written);
    if t.stream.Some? {
      SendKeepsWires(t, ProfileCheckpoint, content, written);
    }
    ConnectAside(s, u);
    CommitKeepsApp(s, u);
  }

  lemma StepKeepsInv(s: State, step: Step)
    requires Inv(s) && Enabled(s, step)
    ensures Inv(After(s, step))
  {
    hide CursorInv, WireInv, AppInv, Receive, PublishUpdate, PublishCheckpoint;
    match step
    case Sample(key, timestamp) =>
      SampleKeepsCursor(s, key, timestamp);
      SampleAside(s, After(s, step));
    case Publish(connect, written) =>
      PublishKeepsInv(s, connect, written);
    case SendCheckpoint(content, connect, written) =>
      CheckpointKeepsInv(s, content, connect, written);
    case SendOther(kind, connect, written) =>
      OtherKeepsInv(s, kind, connect, written);
    case Deliver(c, journaled) =>
      DeliverKeepsInv(s, c, journaled);
    case Late(c, i, journaled) =>
      LateKeepsInv(s, c, i, journaled);
    case Restart =>
      ConnectAside(s, After(s, step));
      AppAside(s, After(s, step));
      RestartKeepsApp(s, After(s, step));
  }

  lemma SampleAside(s: State, t: State)
    requires t == s.(snapshot := t.snapshot) && WireInv(s) && AppInv(s)
    ensures WireInv(t) && AppInv(t)
  {
    hide Flat, Deltas, Rising, StrictlyRising, TotalsOf, Led;
  }

  lemma RestartKeepsApp(s: State, t: State)
    requires AppInv(s) && t == s.(runtime := None, greeted := {}, closed := t.closed)
    ensures AppInv(t)
  {
    hide StrictlyRising;
  }

  lemma OtherKeepsInv(s: State, kind: FrameKind, connect: ConnectOutcome, written: bool)
    requires Inv(s) && Enabled(s, SendOther(kind, connect, written))
    ensures Inv(After(s, SendOther(kind, connect, written)))
  {
    hide CursorInv, WireInv, AppInv;
    ConnectKeepsWires(s, connect);
    var t, u := EnsureConnected(s, connect), After(s, SendOther(kind, connect, written));
    if t.stream.Some? {
      SendKeepsWires(t, kind, map[], written);
    }
    ConnectAside(s, u);
    CommitKeepsApp(s, u);
  }

  // ----- At most once -----

  lemma EarlierFirst(before: seq<Packet>, p: Packet, committed: seq<Packet>, j: nat)
    requires StrictlyRising(before + [p]) && AllIn(before, committed) && Rising(committed)
    requires j < |committed| && committed[j] == p
    ensures StrictlyRising(before) && AllIn(before, committed[..j]) && Rising(committed[..j])
  {
    assert forall i :: 0 <= i < |before| ==> (before + [p])[i] == before[i];
    forall q | q in before ensures q in committed[..j] {
      var i :| 0 <= i < |before| && before[i] == q;
      assert (before + [p])[i].sequence < (before + [p])[|before|].sequence;
      var m :| 0 <= m < |committed| && committed[m] == q;
      assert committed[..j][m] == q;
    }
  }

  // A rising sequence of packets, each somewhere in `committed`, adds up to no more than `committed`.
  lemma {:induction false} SelectionTotals(packets: seq<Packet>, committed: seq<Packet>, k: Key)
    requires StrictlyRising(packets) && AllIn(packets, committed) && Rising(committed)
    ensures Total(packets, k) <= Total(committed, k)
    decreases |packets|
  {
    hide StrictlyRising, Rising;
    if packets != [] {
      var before, p := packets[..|packets| - 1], packets[|packets| - 1];
      assert p in packets && packets == before + [p];
      var j :| 0 <= j < |committed| && committed[j] == p;
      assert forall q :: q in before ==> q in packets;
      EarlierFirst(before, p, committed, j);
      SelectionTotals(before, committed[..j], k);
      assert committed[..j + 1][..j] == committed[..j];
      TotalPrefix(committed, j + 1, k);
    }
  }

  lemma {:induction false} TotalPrefix(packets: seq<Packet>, n: nat, k: Key)
    requires n <= |packets|
    ensures Total(packets[..n], k) <= Total(packets, k)
    decreases |packets|
  {
    if n < |packets| {
      assert packets[..|packets| - 1][..n] == packets[..n];
      TotalPrefix(packets[..|packets| - 1], n, k);
    } else {
      assert packets[..n] == packets;
    }
  }

  /** What the app shows for a key. */
  function Shown(s: State, k: Key): nat {
    if s.runtime.Some? && k in s.runtime.value.totals then s.runtime.value.totals[k] else 0
  }

  ghost predicate CanRun(s: State, steps: seq<Step>)
    decreases |steps|
  {
    steps == [] || (Enabled(s, steps[0]) && CanRun(After(s, steps[0]), steps[1..]))
  }

  ghost function Run(s: State, steps: seq<Step>): State
    requires CanRun(s, steps)
    decreases |steps|
  {
    if steps == [] then s else Run(After(s, steps[0]), steps[1..])
  }

  lemma InitialInv(s: State)
    requires Initial(s)
    ensures Inv(s)
  {
  }

  lemma {:induction false} RunKeepsInv(s: State, steps: seq<Step>)
    requires Inv(s) && CanRun(s, steps)
    ensures Inv(Run(s, steps))
    decreases |steps|
  {
    hide Inv, After, Enabled;
    if steps != [] {
      StepKeepsInv(s, steps[0]);
      RunKeepsInv(After(s, steps[0]), steps[1..]);
    }
  }

  /** What a checkpoint among the merged packets brought for a key. */
  function Restored(s: State, k: Key): nat {
    if s.runtime.Some? && s.runtime.value.applied != [] && s.runtime.value.applied[0].kind == ProfileCheckpoint
    then DeltaCount(s.runtime.value.applied[0], k) else 0
  }

  // A first packet apart from the others.
  lemma {:induction false} TotalFirst(packets: seq<Packet>, k: Key)
    requires packets != []
    ensures Total(packets, k) == DeltaCount(packets[0], k) + Total(packets[1..], k)
  {
    var n := |packets| - 1;
    if n == 0 {
      assert packets[..0] == [] && packets[1..] == [];
    } else {
      TotalFirst(packets[..n], k);
      assert packets[..n][1..] == packets[1..][..n - 1];
    }
  }

  lemma MergedDeltas(s: State, r: Runtime, deltas: seq<Packet>)
    requires Merged(r, s) && (deltas == r.applied || (r.applied != [] && deltas == r.applied[1..]))
    requires forall p :: p in deltas ==> p.kind == ProfileDelta
    ensures StrictlyRising(deltas) && AllIn(deltas, s.committed)
  {
    forall p | p in deltas ensures p in r.applied {
    }
  }

  lemma ShownAtMost(s: State, k: Key)
    requires Inv(s)
    ensures Shown(s, k) <= Restored(s, k) + Counted(s.cursor, k)
    ensures Counted(s.cursor, k) <= CountIn(s.snapshot, k)
    ensures Stamps(s.committed, k) == StampsIn(s.snapshot, k)[..Counted(s.cursor, k)]
    ensures s.checkpoints == [] ==> Restored(s, k) == 0
  {
    DeltasRising(Flat(s.wires));
    hide Total, Stamps, Flat, Deltas, StrictlyRising, AllIn;
    if s.runtime.Some? {
      var r := s.runtime.value;
      var applied := r.applied;
      if applied != [] && applied[0].kind == ProfileCheckpoint {
        TotalFirst(applied, k);
        assert applied[0] in applied;
        MergedDeltas(s, r, applied[1..]);
        SelectionTotals(applied[1..], s.committed, k);
      } else {
        assert applied != [] ==> applied[0] in applied;
        MergedDeltas(s, r, applied);
        SelectionTotals(applied, s.committed, k);
      }
    }
  }

  /** In every run, through drops, reconnects, frames in any order, lost journal entries and restarts of the
      app: beyond what a checkpoint brought, the app shows no more than the profiler committed, and that is
      no more than was sampled; the committed timestamps are the first of the sampled ones. */
  lemma AtMostOnce(s: State, steps: seq<Step>, k: Key)
    requires Initial(s) && CanRun(s, steps)
    ensures var t := Run(s, steps);
      && Shown(t, k) <= Restored(t, k) + Counted(t.cursor, k)
      && (t.checkpoints == [] ==> Shown(t, k) <= Counted(t.cursor, k))
      && Counted(t.cursor, k) <= CountIn(t.snapshot, k)
      && Counted(t.cursor, k) <= |StampsIn(t.snapshot, k)|
      && Stamps(t.committed, k) == StampsIn(t.snapshot, k)[..Counted(t.cursor, k)]
  {
    hide Inv, CanRun, Run, Stamps, Restored;
    InitialInv(s);
    RunKeepsInv(s, steps);
    ShownAtMost(Run(s, steps), k);
    CursorInRange(Run(s, steps), k);
  }

  lemma CursorInRange(s: State, k: Key)
    requires Inv(s)
    ensures Counted(s.cursor, k) <= |StampsIn(s.snapshot, k)|
  {
  }

  // When a key was sampled, one step after the other.
  function Sampled(steps: seq<Step>, k: Key): seq<u64> {
    if steps == [] then []
    else (if steps[0].Sample? && steps[0].key == k then [steps[0].timestamp] else []) + Sampled(steps[1..], k)
  }

  lemma StepSamples(s: State, step: Step, k: Key)
    requires Enabled(s, step)
    ensures StampsIn(After(s, step).snapshot, k) ==
      StampsIn(s.snapshot, k) + if step.Sample? && step.key == k then [step.timestamp] else []
  {
    hide Receive, DeltaOf, Advanced;
    if step.Deliver? {
      OnlyTheApp(s, step.connection, s.wires[step.connection][s.delivered[step.connection]], step.journaled);
    } else if step.Late? {
      OnlyTheApp(s, step.connection, s.wires[step.connection][step.index], step.journaled);
    }
  }

  /** A run's snapshot has the times at which it was sampled, in order. */
  lemma {:induction false} SnapshotIsSampled(s: State, steps: seq<Step>, k: Key)
    requires CanRun(s, steps)
    ensures StampsIn(Run(s, steps).snapshot, k) == StampsIn(s.snapshot, k) + Sampled(steps, k)
    decreases |steps|
  {
    hide After, Enabled;
    if steps != [] {
      StepSamples(s, steps[0], k);
      SnapshotIsSampled(After(s, steps[0]), steps[1..], k);
      var first := if steps[0].Sample? && steps[0].key == k then [steps[0].timestamp] else [];
      assert StampsIn(s.snapshot, k) + (first + Sampled(steps[1..], k))
        == (StampsIn(s.snapshot, k) + first) + Sampled(steps[1..], k);
    }
  }

  /** What was committed in a run are the first of its samples, as many as the cursor says. */
  lemma CommittedIsSampled(s: State, steps: seq<Step>, k: Key)
    requires Initial(s) && CanRun(s, steps)
    ensures var t := Run(s, steps);
      && CountIn(t.snapshot, k) == |Sampled(steps, k)| && Counted(t.cursor, k) <= |Sampled(steps, k)|
      && Stamps(t.committed, k) == Sampled(steps, k)[..Counted(t.cursor, k)]
  {
    hide CanRun, Run, Stamps, Restored, Sampled;
    AtMostOnce(s, steps, k);
    SnapshotIsSampled(s, steps, k);
    assert [] + Sampled(steps, k) == Sampled(steps, k);
    InitialInv(s);
    RunKeepsInv(s, steps);
  }

  // ----- Numbers -----

  /** The frames of a connection start with a hello and are numbered without a gap, up to the largest number. */
  ghost predicate Consecutive(wire: seq<Packet>) {
    && (wire != [] ==> wire[0].kind == Hello)
    && forall i :: 0 <= i < |wire| - 1 ==>
         wire[i + 1].sequence == if wire[i].sequence == 0xFFFF_FFFF_FFFF_FFFF then wire[i].sequence
                                 else wire[i].sequence + 1
  }

  /** So are those of every connection, and the publisher's number is that of the last frame on the open one.
      The first frame of all has number 1. */
  ghost predicate Numbered(s: State) {
    && (forall c :: 0 <= c < |s.wires| ==> Consecutive(s.wires[c]))
    && (s.stream.Some? ==>
          && s.stream.value + 1 == |s.wires| && s.wires[s.stream.value] != []
          && var wire := s.wires[s.stream.value]; wire[|wire| - 1].sequence == s.sequence)
    && (s.wires == [] ==> s.sequence == 0)
    && (s.wires != [] && s.wires[0] != [] ==> s.wires[0][0].sequence == 1)
  }

  lemma ConsecutiveNext(wire: seq<Packet>, p: Packet)
    requires wire != [] && Consecutive(wire) && p.sequence == NextSequence(wire[|wire| - 1].sequence)
    ensures Consecutive(wire + [p])
  {
  }

  lemma ConnectNumbers(s: State, connect: ConnectOutcome)
    requires Numbered(s)
    ensures Numbered(EnsureConnected(s, connect))
  {
  }

  lemma SendNumbers(s: State, kind: FrameKind, delta: Snapshot, written: bool)
    requires Numbered(s) && s.stream.Some?
    ensures Numbered(SendOn(s, kind, delta, written))
  {
    var c := s.stream.value;
    ConsecutiveNext(s.wires[c], Packet(kind, NextSequence(s.sequence), delta));
    hide Consecutive;
  }

  lemma NumbersAside(s: State, t: State)
    requires Numbered(s)
    ensures t.wires == s.wires && t.stream == s.stream && t.sequence == s.sequence ==> Numbered(t)
  {
    hide Consecutive;
  }

  lemma StepNumbers(s: State, step: Step)
    requires Numbered(s) && Enabled(s, step)
    ensures Numbered(After(s, step))
  {
    var t := After(s, step);
    hide Numbered, Receive, DeltaOf, Advanced;
    match step
    case Sample(_, _) => NumbersAside(s, t);
    case Restart => NumbersAside(s, t);
    case Deliver(c, journaled) =>
      OnlyTheApp(s, c, s.wires[c][s.delivered[c]], journaled);
      NumbersAside(s, t);
    case Late(c, i, journaled) =>
      OnlyTheApp(s, c, s.wires[c][i], journaled);
      NumbersAside(s, t);
    case Publish(connect, written) => WriteNumbers(s, ProfileDelta, DeltaOf(s.cursor, s.snapshot), connect, written, t);
    case SendCheckpoint(content, connect, written) =>
      WriteNumbers(s, ProfileCheckpoint, content, connect, written, t);
    case SendOther(kind, connect, written) => WriteNumbers(s, kind, map[], connect, written, t);
  }

  // A step that at most connects and sends.
  lemma WriteNumbers(s: State, kind: FrameKind, delta: Snapshot, connect: ConnectOutcome, written: bool, t: State)
    requires Numbered(s) && (s.stream.Some? ==> s.stream.value < |s.wires|)
    requires var u := EnsureConnected(s, connect);
      var sent := if u.stream.None? then u else SendOn(u, kind, delta, written);
      || (t.wires == u.wires && t.stream == u.stream && t.sequence == u.sequence)
      || (t.wires == sent.wires && t.stream == sent.stream && t.sequence == sent.sequence)
    ensures Numbered(t)
  {
    var u := EnsureConnected(s, connect);
    ConnectNumbers(s, connect);
    NumbersAside(u, t);
    if u.stream.Some? {
      SendNumbers(u, kind, delta, written);
      NumbersAside(SendOn(u, kind, delta, written), t);
    }
  }

  lemma {:induction false} RunNumbers(s: State, steps: seq<Step>)
    requires Numbered(s) && CanRun(s, steps)
    ensures Numbered(Run(s, steps))
    decreases |steps|
  {
    hide Numbered, After, Enabled;
    if steps != [] {
      StepNumbers(s, steps[0]);
      RunNumbers(After(s, steps[0]), steps[1..]);
    }
  }

  /** In every run. */
  lemma FramesAreNumbered(s: State, steps: seq<Step>)
    requires Initial(s) && CanRun(s, steps)
    ensures Numbered(Run(s, steps))
  {
    RunNumbers(s, steps);
  }

  // ----- Exactly once, in order -----

  /** The connections come to the app one after the other, and the app is never restarted. */
  ghost predicate InTurn(s: State, steps: seq<Step>)
    requires CanRun(s, steps)
    decreases |steps|
  {
    steps == []
    || (&& !steps[0].Restart? && !steps[0].Late?
        && (steps[0].Deliver? ==>
              forall i :: 0 <= i < steps[0].connection ==>
                i < |s.wires| == |s.delivered| && s.delivered[i] == |s.wires[i]|)
        && InTurn(After(s, steps[0]), steps[1..]))
  }

  ghost predicate Bounded(wires: seq<seq<Packet>>, delivered: seq<nat>) {
    |wires| == |delivered| && forall i :: 0 <= i < |wires| ==> delivered[i] <= |wires[i]|
  }

  ghost function Received(wires: seq<seq<Packet>>, delivered: seq<nat>): seq<Packet>
    requires Bounded(wires, delivered)
  {
    if wires == [] then []
    else
      var n := |wires| - 1;
      Received(wires[..n], delivered[..n]) + wires[n][..delivered[n]]
  }

  ghost predicate Sequential(wires: seq<seq<Packet>>, delivered: seq<nat>)
    requires |wires| == |delivered|
  {
    forall i, j :: 0 <= i < j < |wires| && delivered[j] > 0 ==> delivered[i] == |wires[i]|
  }

  // What was received is the beginning of what was written.
  ghost predicate Arrived(s: State, got: seq<Packet>) {
    && Bounded(s.wires, s.delivered) && Sequential(s.wires, s.delivered)
    && got == Received(s.wires, s.delivered)
  }

  // The app has merged what `got` leaves.
  ghost predicate Followed(s: State, got: seq<Packet>) {
    && s.closed == 0
    && (forall c :: 0 <= c < |s.delivered| && s.delivered[c] > 0 ==> c in s.greeted && s.runtime.Some?)
    && (if s.runtime.None? then Since(got) == [] && s.journal == []
        else
          && s.runtime.value.applied == Since(got)
          && (s.runtime.value.last == 0 || exists p :: p in got && p.sequence == s.runtime.value.last))
  }

  ghost predicate OrderInv(s: State) {
    exists got :: Arrived(s, got) && Followed(s, got)
  }

  lemma {:induction false} ReceivedNext(wires: seq<seq<Packet>>, delivered: seq<nat>, c: nat)
    requires Bounded(wires, delivered)
    requires c < |wires| && delivered[c] < |wires[c]|
    requires Sequential(wires, delivered)
    requires forall i :: 0 <= i < c ==> delivered[i] == |wires[i]|
    ensures var delivered' := delivered[c := delivered[c] + 1];
      && Bounded(wires, delivered') && Sequential(wires, delivered')
      && Received(wires, delivered') == Received(wires, delivered) + [wires[c][delivered[c]]]
  {
    var n := |wires| - 1;
    var delivered' := delivered[c := delivered[c] + 1];
    if c == n {
      assert delivered'[..n] == delivered[..n];
      assert wires[n][..delivered[n] + 1] == wires[n][..delivered[n]] + [wires[n][delivered[n]]];
    } else {
      ReceivedNext(wires[..n], delivered[..n], c);
      assert delivered'[..n] == delivered[..n][c := delivered[c] + 1];
      assert delivered[n] == 0;
    }
  }

  // What has been received in turn is the beginning of what was written.
  lemma {:induction false} ReceivedPrefix(wires: seq<seq<Packet>>, delivered: seq<nat>)
    requires Bounded(wires, delivered)
    requires Sequential(wires, delivered)
    ensures Received(wires, delivered) <= Flat(wires)
    ensures (forall i :: 0 <= i < |wires| ==> delivered[i] == |wires[i]|) ==> Received(wires, delivered) == Flat(wires)
  {
    if wires != [] {
      var n := |wires| - 1;
      ReceivedPrefix(wires[..n], delivered[..n]);
      assert wires[n][..|wires[n]|] == wires[n];
      if delivered[n] == 0 {
        assert Received(wires, delivered) == Received(wires[..n], delivered[..n]);
      } else {
        assert forall i :: 0 <= i < n ==> delivered[i] == |wires[i]|;
      }
    }
  }

  // Writing more does not change what has been received.
  lemma NewWire(s: State, t: State, wire: seq<Packet>, got: seq<Packet>)
    requires Arrived(s, got) && t.wires == s.wires + [wire] && t.delivered == s.delivered + [0]
    ensures Arrived(t, got)
  {
    var n := |s.wires|;
    assert t.wires[..n] == s.wires && t.delivered[..n] == s.delivered && t.wires[n][..0] == [];
    assert Bounded(t.wires, t.delivered);
    assert Received(t.wires, t.delivered) == got + [];
  }

  lemma LongerWire(s: State, t: State, p: Packet, got: seq<Packet>)
    requires Arrived(s, got) && s.wires != [] && t.delivered == s.delivered
    requires t.wires == s.wires[|s.wires| - 1 := s.wires[|s.wires| - 1] + [p]]
    ensures Arrived(t, got)
  {
    var n := |s.wires| - 1;
    assert t.wires[..n] == s.wires[..n];
    assert t.wires[n][..s.delivered[n]] == s.wires[n][..s.delivered[n]];
    assert Bounded(t.wires, t.delivered);
  }

  lemma FollowedOn(s: State, t: State, got: seq<Packet>)
    requires Followed(s, got) && t.closed == s.closed && t.greeted == s.greeted && t.runtime == s.runtime
    requires t.journal == s.journal
    requires t.stored == s.stored
    requires s.delivered <= t.delivered && forall c :: |s.delivered| <= c < |t.delivered| ==> t.delivered[c] == 0
    ensures Followed(t, got)
  {
    hide Since;
  }

  lemma ConnectKeepsOrder(s: State, connect: ConnectOutcome)
    requires OrderInv(s)
    ensures OrderInv(EnsureConnected(s, connect))
  {
    hide Arrived, Followed;
    var t := EnsureConnected(s, connect);
    var got :| Arrived(s, got) && Followed(s, got);
    FollowedOn(s, t, got);
    if t.wires != s.wires {
      NewWire(s, t, t.wires[|s.wires|], got);
    } else {
      SameWires(s, t, got);
    }
    assert Arrived(t, got) && Followed(t, got);
  }

  lemma SameWires(s: State, t: State, got: seq<Packet>)
    requires Arrived(s, got) && t.wires == s.wires && t.delivered == s.delivered
    ensures Arrived(t, got)
  {
  }

  lemma SendKeepsOrder(s: State, kind: FrameKind, delta: Snapshot, written: bool)
    requires OrderInv(s) && s.stream.Some? && s.stream.value + 1 == |s.wires|
    ensures OrderInv(SendOn(s, kind, delta, written))
  {
    hide Arrived, Followed;
    var t := SendOn(s, kind, delta, written);
    var got :| Arrived(s, got) && Followed(s, got);
    FollowedOn(s, t, got);
    if written {
      LongerWire(s, t, Packet(kind, t.sequence, delta), got);
    } else {
      SameWires(s, t, got);
    }
    assert Arrived(t, got) && Followed(t, got);
  }

  lemma CommitKeepsOrder(s: State, t: State)
    requires OrderInv(s)
    requires t == s.(cursor := t.cursor, committed := t.committed, checkpoints := t.checkpoints, snapshot := t.snapshot)
    ensures OrderInv(t)
  {
    hide Arrived, Followed;
    var got :| Arrived(s, got) && Followed(s, got);
    SameWires(s, t, got);
    FollowedOn(s, t, got);
    assert Arrived(t, got) && Followed(t, got);
  }

  lemma WriteKeepsOrder(s: State, step: Step)
    requires Inv(s) && OrderInv(s) && Enabled(s, step)
    requires (step.Publish? || step.SendCheckpoint? || step.SendOther? || step.Sample?)
    ensures OrderInv(After(s, step))
  {
    hide OrderInv, WireInv, CursorInv, AppInv, DeltaOf, Advanced;
    match step
    case Sample(_, _) =>
      CommitKeepsOrder(s, After(s, step));
    case Publish(connect, written) =>
      var t := EnsureConnected(s, connect);
      ConnectKeepsOrder(s, connect);
      ConnectKeepsWires(s, connect);
      LastStream(t);
      if t.stream.Some? {
        var u := SendOn(t, ProfileDelta, DeltaOf(t.cursor, t.snapshot), written);
        SendKeepsOrder(t, ProfileDelta, DeltaOf(t.cursor, t.snapshot), written);
        if written {
          CommitKeepsOrder(u, u.(cursor := Advanced(t.cursor, t.snapshot),
            committed := t.committed + [Packet(ProfileDelta, u.sequence, DeltaOf(t.cursor, t.snapshot))]));
        }
      }
    case SendCheckpoint(content, connect, written) =>
      var t := EnsureConnected(s, connect);
      ConnectKeepsOrder(s, connect);
      ConnectKeepsWires(s, connect);
      LastStream(t);
      if t.stream.Some? {
        var u := SendOn(t, ProfileCheckpoint, content, written);
        SendKeepsOrder(t, ProfileCheckpoint, content, written);
        if written {
          CommitKeepsOrder(u, u.(checkpoints := t.checkpoints + [Packet(ProfileCheckpoint, u.sequence, content)]));
        }
      }
    case SendOther(kind, connect, written) =>
      var t := EnsureConnected(s, connect);
      ConnectKeepsOrder(s, connect);
      ConnectKeepsWires(s, connect);
      LastStream(t);
      if t.stream.Some? {
        SendKeepsOrder(t, kind, map[], written);
      }
  }

  lemma LastStream(s: State)
    requires WireInv(s)
    ensures s.stream.Some? ==> s.stream.value + 1 == |s.wires|
  {
  }

  // The packet whose turn it is is newer than all that came before.
  lemma NextIsNewer(s: State, c: nat, got: seq<Packet>)
    requires WireInv(s) && Arrived(s, got) && s.sequence < U64_SIZE - 1
    requires c < |s.wires| && s.delivered[c] < |s.wires[c]|
    requires forall i :: 0 <= i < c ==> s.delivered[i] == |s.wires[i]|
    ensures 0 < s.wires[c][s.delivered[c]].sequence
    ensures forall p :: p in got ==> p.sequence < s.wires[c][s.delivered[c]].sequence
  {
    var p, flat := s.wires[c][s.delivered[c]], Flat(s.wires);
    ReceivedNext(s.wires, s.delivered, c);
    ReceivedPrefix(s.wires, s.delivered[c := s.delivered[c] + 1]);
    hide Flat, Received, Deltas, Sequential;
    var n := |got|;
    assert (got + [p])[n] == flat[n] && flat[n] in flat;
    forall q | q in got ensures q.sequence < p.sequence {
      var i :| 0 <= i < n && got[i] == q;
      assert (got + [p])[i] == flat[i] && flat[i] in flat;
    }
  }

  lemma SinceAppend(packets: seq<Packet>, p: Packet)
    ensures Since(packets + [p])
         ==
           if p.kind == ProfileCheckpoint then [p] else if p.kind == ProfileDelta then Since(packets) + [p]
           else Since(packets)
  {
    assert (packets + [p])[..|packets|] == packets;
  }

  lemma ReceiveFollows(s: State, c: nat, p: Packet, journaled: bool, got: seq<Packet>)
    requires Followed(s, got) && c < |s.delivered|
    requires 0 < p.sequence && forall q :: q in got ==> q.sequence < p.sequence
    requires p.kind != Hello ==> s.delivered[c] > 0
    ensures Followed(Receive(s, c, p, journaled).(delivered := s.delivered[c := s.delivered[c] + 1]), got + [p])
  {
    hide Since, MergeCounts, ReplaceCounts;
    SinceAppend(got, p);
    assert Replay([]) == NEW_RUNTIME;
    assert p in got + [p] && forall q :: q in got ==> q in got + [p];
  }

  lemma DeliverKeepsOrder(s: State, c: nat, journaled: bool)
    requires Inv(s) && OrderInv(s) && s.sequence < U64_SIZE - 1 && Enabled(s, Deliver(c, journaled))
    requires forall i :: 0 <= i < c ==> s.delivered[i] == |s.wires[i]|
    ensures OrderInv(After(s, Deliver(c, journaled)))
  {
    hide CursorInv, WireInv, AppInv, Arrived, Followed, Accumulate, Replay;
    var got :| Arrived(s, got) && Followed(s, got);
    var p, t := s.wires[c][s.delivered[c]], After(s, Deliver(c, journaled));
    NextIsNewer(s, c, got);
    FirstIsHello(s, c);
    ReceiveFollows(s, c, p, journaled, got);
    ReceiveArrives(s, t, c, got);
    assert Arrived(t, got + [p]) && Followed(t, got + [p]);
  }

  lemma FirstIsHello(s: State, c: nat)
    requires WireInv(s) && c < |s.wires| && s.wires[c] != []
    ensures s.wires[c][0].kind == Hello
  {
  }

  lemma ReceiveArrives(s: State, t: State, c: nat, got: seq<Packet>)
    requires Arrived(s, got) && c < |s.wires| && s.delivered[c] < |s.wires[c]|
    requires forall i :: 0 <= i < c ==> s.delivered[i] == |s.wires[i]|
    requires t.wires == s.wires && t.delivered == s.delivered[c := s.delivered[c] + 1]
    ensures Arrived(t, got + [s.wires[c][s.delivered[c]]])
  {
    ReceivedNext(s.wires, s.delivered, c);
  }

  lemma StepSequence(s: State, step: Step)
    requires Enabled(s, step)
    ensures s.sequence <= After(s, step).sequence
  {
    hide Receive, DeltaOf, Advanced;
    if step.Deliver? {
      OnlyTheApp(s, step.connection, s.wires[step.connection][s.delivered[step.connection]], step.journaled);
    } else if step.Late? {
      OnlyTheApp(s, step.connection, s.wires[step.connection][step.index], step.journaled);
    }
  }

  lemma OnlyTheApp(s: State, c: nat, p: Packet, journaled: bool)
    ensures var t := Receive(s, c, p, journaled);
      t == s.(greeted := t.greeted, runtime := t.runtime, journal := t.journal, stored := t.stored)
  {
    hide Accumulate, Replay;
  }

  lemma {:induction false} SequenceGrows(s: State, steps: seq<Step>)
    requires CanRun(s, steps)
    ensures s.sequence <= Run(s, steps).sequence
    decreases |steps|
  {
    hide After;
    if steps != [] {
      StepSequence(s, steps[0]);
      SequenceGrows(After(s, steps[0]), steps[1..]);
    }
  }

  lemma {:induction false} RunKeepsOrder(s: State, steps: seq<Step>)
    requires Inv(s) && OrderInv(s) && CanRun(s, steps) && InTurn(s, steps)
    requires Run(s, steps).sequence < U64_SIZE - 1
    ensures OrderInv(Run(s, steps))
    decreases |steps|
  {
    SequenceGrows(s, steps);
    hide Inv, OrderInv, After, Enabled;
    if steps != [] {
      StepKeepsInv(s, steps[0]);
      if steps[0].Deliver? {
        DeliverKeepsOrder(s, steps[0].connection, steps[0].journaled);
      } else {
        WriteKeepsOrder(s, steps[0]);
      }
      RunKeepsOrder(After(s, steps[0]), steps[1..]);
    }
  }

  lemma InitialOrder(s: State)
    requires Initial(s)
    ensures OrderInv(s)
  {
    assert Arrived(s, []) && Followed(s, []);
  }

  lemma AllArrived(s: State, k: Key)
    requires Inv(s) && OrderInv(s)
    requires forall i :: 0 <= i < |s.wires| ==> s.delivered[i] == |s.wires[i]|
    ensures Shown(s, k) == Total(Since(Flat(s.wires)), k)
    ensures s.checkpoints == [] ==> Shown(s, k) == Counted(s.cursor, k)
  {
    var got :| Arrived(s, got) && Followed(s, got);
    ReceivedPrefix(s.wires, s.delivered);
    if s.checkpoints == [] {
      SinceIsDeltas(Flat(s.wires));
    }
    hide Received, Flat, Deltas, Since, Sequential, Bounded, Stamps, Rising, StrictlyRising;
    assert got == Flat(s.wires);
    assert Total(s.committed, k) == Counted(s.cursor, k);
  }

  /** When the connections come in order, and the sequence has not saturated: once everything written has
      arrived, the app shows exactly what was written since the last checkpoint; without checkpoints, what
      the profiler committed. */
  lemma ExactlyOnceInOrder(s: State, steps: seq<Step>, k: Key)
    requires Initial(s) && CanRun(s, steps) && InTurn(s, steps)
    requires Run(s, steps).sequence < U64_SIZE - 1
    requires |Run(s, steps).delivered| == |Run(s, steps).wires|
    requires forall i :: 0 <= i < |Run(s, steps).wires| ==> Run(s, steps).delivered[i] == |Run(s, steps).wires[i]|
    ensures Shown(Run(s, steps), k) == Total(Since(Flat(Run(s, steps).wires)), k)
    ensures Run(s, steps).checkpoints == [] ==> Shown(Run(s, steps), k) == Counted(Run(s, steps).cursor, k)
  {
    hide Inv, OrderInv, CanRun, Run, InTurn;
    InitialInv(s);
    InitialOrder(s);
    RunKeepsInv(s, steps);
    RunKeepsOrder(s, steps);
    AllArrived(Run(s, steps), k);
  }

  // ----- The journal -----

  /** Every profile frame that counted was appended to the journal. */
  ghost predicate AllJournaled(s: State, steps: seq<Step>)
    requires CanRun(s, steps)
    decreases |steps|
  {
    steps == [] || (Journals(s, steps[0]) && AllJournaled(After(s, steps[0]), steps[1..]))
  }

  // The packet that a step hands to the app, its connection, and whether the app's files can be written.
  function HandedBy(s: State, step: Step): Option<(nat, Packet, bool)>
    requires Enabled(s, step)
  {
    match step
    case Deliver(c, journaled) => Some((c, s.wires[c][s.delivered[c]], journaled))
    case Late(c, i, journaled) => Some((c, s.wires[c][i], journaled))
    case _ => None
  }

  ghost predicate Journals(s: State, step: Step)
    requires Enabled(s, step)
  {
    var handed := HandedBy(s, step);
    handed.Some? && Accepts(s, handed.value.0, handed.value.1) && IsProfile(handed.value.1) ==> handed.value.2
  }

  // The step stores a final profile.
  ghost predicate Finishes(s: State, step: Step)
    requires Enabled(s, step)
  {
    var handed := HandedBy(s, step);
    handed.Some? && Accepts(s, handed.value.0, handed.value.1) && StoresFinal(handed.value.1, handed.value.2)
  }

  ghost predicate NeverFinishes(s: State, steps: seq<Step>)
    requires CanRun(s, steps)
    decreases |steps|
  {
    steps == [] || (!Finishes(s, steps[0]) && NeverFinishes(After(s, steps[0]), steps[1..]))
  }

  // A journal that has a path replays to what the app has.
  ghost predicate Kept(s: State) {
    && (s.stored == Session(true) && s.runtime.Some? ==>
          s.runtime.value.applied == Replay(s.journal).applied && s.runtime.value.totals == Replay(s.journal).totals)
    && (s.stored.NoSession? ==> s.runtime.None? && s.journal == [])
  }

  lemma ReplayNext(journal: seq<Packet>, p: Packet)
    requires IsProfile(p)
    ensures Replay(journal + [p]) == Accumulate(Replay(journal), p).(last := Max(Replay(journal).last, p.sequence))
  {
    hide Accumulate;
    assert (journal + [p])[..|journal|] == journal;
  }

  lemma ReceiveKeeps(s: State, c: nat, p: Packet, journaled: bool)
    requires Kept(s) && (Accepts(s, c, p) && IsProfile(p) ==> journaled)
    ensures Kept(Receive(s, c, p, journaled))
  {
    NothingReplayed();
    hide Replay, MergeCounts, ReplaceCounts;
    if IsProfile(p) {
      ReplayNext(s.journal, p);
    }
  }

  lemma {:induction false} RunKeepsJournal(s: State, steps: seq<Step>)
    requires Kept(s) && CanRun(s, steps) && AllJournaled(s, steps)
    ensures Kept(Run(s, steps))
    decreases |steps|
  {
    if steps != [] {
      StepKeepsJournal(s, steps[0]);
      hide Kept, After, Enabled;
      RunKeepsJournal(After(s, steps[0]), steps[1..]);
    }
  }

  lemma StepKeepsJournal(s: State, step: Step)
    requires Kept(s) && Enabled(s, step) && Journals(s, step)
    ensures Kept(After(s, step))
  {
    hide Replay, Receive, PublishUpdate, PublishCheckpoint, EnsureConnected, SendOn;
    if step.Deliver? {
      ReceiveKeeps(s, step.connection, s.wires[step.connection][s.delivered[step.connection]], step.journaled);
    } else if step.Late? {
      ReceiveKeeps(s, step.connection, s.wires[step.connection][step.index], step.journaled);
    } else if !step.Restart? {
      SendingAside(s, step);
    }
  }

  // A session has no path if it had none, or since a final profile was stored.
  lemma StepPath(s: State, step: Step)
    requires Enabled(s, step)
    ensures After(s, step).stored == PATHLESS <==> s.stored == PATHLESS || Finishes(s, step)
  {
    hide Replay, Accumulate, PublishUpdate, PublishCheckpoint, EnsureConnected, SendOn;
    if !step.Deliver? && !step.Late? && !step.Restart? {
      SendingAside(s, step);
    }
  }

  lemma {:induction false} RunPath(s: State, steps: seq<Step>)
    requires CanRun(s, steps)
    ensures Run(s, steps).stored == PATHLESS <==> s.stored == PATHLESS || !NeverFinishes(s, steps)
    decreases |steps|
  {
    if steps != [] {
      StepPath(s, steps[0]);
      hide After, Enabled;
      RunPath(After(s, steps[0]), steps[1..]);
    }
  }

  // The profiler's steps leave the app alone.
  ghost predicate LeavesApp(s: State, t: State) {
    t.runtime == s.runtime && t.journal == s.journal && t.stored == s.stored
  }

  lemma ConnectLeavesApp(s: State, connect: ConnectOutcome)
    requires s.stream.Some? ==> s.stream.value < |s.wires|
    ensures LeavesApp(s, EnsureConnected(s, connect))
    ensures EnsureConnected(s, connect).stream.Some? ==>
      EnsureConnected(s, connect).stream.value < |EnsureConnected(s, connect).wires|
  {
  }

  lemma SendLeavesApp(s: State, kind: FrameKind, delta: Snapshot, written: bool)
    requires s.stream.Some? && s.stream.value < |s.wires|
    ensures LeavesApp(s, SendOn(s, kind, delta, written))
  {
  }

  lemma SendingAside(s: State, step: Step)
    requires Enabled(s, step) && !step.Deliver? && !step.Late? && !step.Restart?
    ensures LeavesApp(s, After(s, step))
  {
    hide Receive, DeltaOf, Advanced, EnsureConnected, SendOn;
    match step
    case Sample(_, _) =>
    case Publish(connect, written) =>
      ConnectLeavesApp(s, connect);
      var t := EnsureConnected(s, connect);
      if t.stream.Some? {
        SendLeavesApp(t, ProfileDelta, DeltaOf(t.cursor, t.snapshot), written);
      }
    case SendCheckpoint(content, connect, written) =>
      ConnectLeavesApp(s, connect);
      var t := EnsureConnected(s, connect);
      if t.stream.Some? {
        SendLeavesApp(t, ProfileCheckpoint, content, written);
      }
    case SendOther(kind, connect, written) =>
      ConnectLeavesApp(s, connect);
      var t := EnsureConnected(s, connect);
      if t.stream.Some? {
        SendLeavesApp(t, kind, map[], written);
      }
  }

  /** The exact condition.  In every run in which each profile frame that counted was journaled: after a
      restart the next hello brings back what was shown, if and only if the session was not stored before its
      first hello and no final profile was stored, or nothing was shown. */
  lemma JournalRebuilds(s: State, steps: seq<Step>, c: nat, hello: Packet, journaled: bool)
    requires Initial(s) && CanRun(s, steps) && AllJournaled(s, steps)
    requires Run(s, steps).runtime.Some? && hello.kind == Hello
    ensures var t := Run(s, steps);
      var again := Receive(After(t, Restart), c, hello, journaled);
      && again.runtime.Some?
      && (s.stored.NoSession? && NeverFinishes(s, steps) ==> again.runtime.value.applied == t.runtime.value.applied)
      && ((forall k :: Shown(again, k) == Shown(t, k)) <==>
            (s.stored.NoSession? && NeverFinishes(s, steps)) || forall k :: Shown(t, k) == 0)
  {
    hide CanRun, Run, Replay, AllJournaled, NeverFinishes;
    NothingReplayed();
    RunKeepsJournal(s, steps);
    RunPath(s, steps);
  }

  const LAUNCHED: State := State(map[], map[], None, 0, [], [], [], [], 0, {}, None, [], PATHLESS)

  function OneDelta(k: Key, timestamp: u64): Packet {
    Packet(ProfileDelta, 2, map[k := Series(1, Some([timestamp]))])
  }

  // Its one sample is sent on a new connection.
  function LaunchedSent(k: Key, timestamp: u64): State {
    var d := OneDelta(k, timestamp);
    LAUNCHED.(snapshot := d.delta, cursor := map[k := 1], stream := Some(0), sequence := 2, committed := [d],
              wires := [[HelloPacket(1), d]], delivered := [0])
  }

  // The app has taken the hello, and then the delta.
  function LaunchedGreeted(k: Key, timestamp: u64): State {
    LaunchedSent(k, timestamp).(delivered := [1], greeted := {0}, runtime := Some(NEW_RUNTIME))
  }

  function LaunchedShown(k: Key, timestamp: u64): State {
    var d := OneDelta(k, timestamp);
    LaunchedGreeted(k, timestamp).(delivered := [2], runtime := Some(Runtime(2, map[k := 1], [d])), journal := [d])
  }

  lemma LaunchedSends(k: Key, timestamp: u64)
    ensures var sampled := LAUNCHED.(snapshot := OneDelta(k, timestamp).delta);
      && Enabled(LAUNCHED, Sample(k, timestamp)) && After(LAUNCHED, Sample(k, timestamp)) == sampled
      && Enabled(sampled, Publish(HelloWritten, true))
        && After(sampled, Publish(HelloWritten, true)) == LaunchedSent(k, timestamp)
  {
    var none: seq<u64> := [];
    assert none + [timestamp] == [timestamp];
    assert PushTimestamp(Series(0, Some(none)), timestamp) == Series(1, Some([timestamp]));
    var sampled := LAUNCHED.(snapshot := OneDelta(k, timestamp).delta);
    assert LAUNCHED.snapshot[k := Series(1, Some([timestamp]))] == sampled.snapshot;
    var t := EnsureConnected(sampled, HelloWritten);
    assert t.wires == [[HelloPacket(1)]] && t.delivered == [0] && t.sequence == 1 && t.stream == Some(0);
    assert Skip([timestamp], 0) == [timestamp];
    assert DeltaOf(map[], sampled.snapshot) == sampled.snapshot;
    assert Advanced(map[], sampled.snapshot) == map[k := 1];
    var u := SendOn(t, ProfileDelta, sampled.snapshot, true);
    assert [HelloPacket(1)] + [OneDelta(k, timestamp)] == [HelloPacket(1), OneDelta(k, timestamp)];
    assert u.wires == [[HelloPacket(1), OneDelta(k, timestamp)]];
  }

  lemma LaunchedReceives(k: Key, timestamp: u64)
    ensures var sent, greeted, shown := LaunchedSent(k, timestamp), LaunchedGreeted(k, timestamp),
      LaunchedShown(k, timestamp);
      && Enabled(sent, Deliver(0, true)) && After(sent, Deliver(0, true)) == greeted
      && Enabled(greeted, Deliver(0, true)) && After(greeted, Deliver(0, true)) == shown && Shown(shown, k) == 1
  {
    var sent, greeted, d := LaunchedSent(k, timestamp), LaunchedGreeted(k, timestamp), OneDelta(k, timestamp);
    assert Receive(sent, 0, HelloPacket(1), true) == greeted.(delivered := [0]);
    assert MergeCounts(map[], d.delta) == map[k := 1];
    var none: seq<Packet> := [];
    assert none + [d] == [d];
    assert Receive(greeted, 0, d, true) == LaunchedShown(k, timestamp).(delivered := [1]);
  }

  lemma WritableJournals(s: State, step: Step)
    requires Enabled(s, step) && (step.Deliver? || step.Late? ==> step.journaled)
    ensures Journals(s, step)
  {
    hide Accepts, Enabled;
  }

  function LaunchedSteps(k: Key, timestamp: u64): seq<Step> {
    [Sample(k, timestamp)] + ([Publish(HelloWritten, true)] + ([Deliver(0, true)] + ([Deliver(0, true)] + [])))
  }

  lemma LaunchedRuns(k: Key, timestamp: u64)
    ensures CanRun(LAUNCHED, LaunchedSteps(k, timestamp)) && AllJournaled(LAUNCHED, LaunchedSteps(k, timestamp))
    ensures Run(LAUNCHED, LaunchedSteps(k, timestamp)) == LaunchedShown(k, timestamp)
  {
    LaunchedSends(k, timestamp);
    LaunchedReceives(k, timestamp);
    hide After, Enabled, Journals, LaunchedSent, LaunchedGreeted, LaunchedShown, OneDelta, LAUNCHED;
    var sampled := After(LAUNCHED, Sample(k, timestamp));
    WritableJournals(LaunchedGreeted(k, timestamp), Deliver(0, true));
    OneStep(LaunchedGreeted(k, timestamp), Deliver(0, true), []);
    WritableJournals(LaunchedSent(k, timestamp), Deliver(0, true));
    OneStep(LaunchedSent(k, timestamp), Deliver(0, true), [Deliver(0, true)] + []);
    WritableJournals(sampled, Publish(HelloWritten, true));
    OneStep(sampled, Publish(HelloWritten, true), [Deliver(0, true)] + ([Deliver(0, true)] + []));
    WritableJournals(LAUNCHED, Sample(k, timestamp));
    OneStep(LAUNCHED, Sample(k, timestamp), [Publish(HelloWritten, true)]
            + ([Deliver(0, true)] + ([Deliver(0, true)] + [])));
  }

  /** A session that the app launched itself: its one delta is shown and journaled, and after a restart of the
      app the next hello shows nothing. */
  lemma LaunchedForgets(k: Key, timestamp: u64, hello: Packet)
    requires hello.kind == Hello
    ensures var steps := LaunchedSteps(k, timestamp);
      && Initial(LAUNCHED) && CanRun(LAUNCHED, steps) && AllJournaled(LAUNCHED, steps)
      && var t := Run(LAUNCHED, steps);
      && Shown(t, k) == 1 && |t.journal| == 1 && Shown(Receive(After(t, Restart), 1, hello, true), k) == 0
  {
    LaunchedRuns(k, timestamp);
    hide CanRun, Run, AllJournaled, Accumulate, Replay, LaunchedSteps;
  }

  lemma OneStep(s: State, step: Step, rest: seq<Step>)
    requires Enabled(s, step) && Journals(s, step)
    requires CanRun(After(s, step), rest) && AllJournaled(After(s, step), rest)
    ensures CanRun(s, [step] + rest) && AllJournaled(s, [step] + rest)
    ensures Run(s, [step] + rest) == Run(After(s, step), rest)
  {
    hide After, Enabled, Journals;
    assert ([step] + rest)[1..] == rest;
  }

  lemma NothingReplayed()
    ensures Replay([]) == NEW_RUNTIME
  {
  }
}
