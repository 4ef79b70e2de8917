/** The allocation recorder of `src/heap/recorder.c` as a state machine: threads calling the interposed
    allocator, one mutex, a per-thread recursion guard, and the log they append to.

    The allocator is any allocator: it returns an address that is not live, or fails.  A block carries
    the stack of the event that recorded its allocation, if one did.  What is proved: in every
    interleaving the log replays without a duplicate, and whenever the mutex is free the replay's live
    blocks are exactly the recorded blocks that the allocator still holds. */
module Recorder {
  import opened Prelude
  import opened HeapModel
  import opened AllocationLog

  type Tid = nat

  // The interposed calls; `calloc`, `memalign` and `aligned_alloc` are shaped like `malloc`.
  datatype Op =
    | MallocOp
    | FreeOp(p: u64)
    | ReallocOp(block: u64, size: nat)

  // Where a thread is.  In every state but `Outside` its recursion guard is up.
  datatype Pc =
    | Outside
    | Waiting(op: Op)                     // `enter` said yes; blocked on the mutex
    | Holding(op: Op)                     // mutex held, nothing done yet
    | Mallocked(p: u64, usable: u64)      // the allocator returned, the record is due
    | Freeing(p: u64)                     // recorded, the allocator call is due
    | Reallocked(block: u64, p: u64, size: nat, usable: u64, was: Option<Block>)  // the record is due
    | Leaving                             // about to unlock
    | Unlocked                            // unlocked, the guard still up
    | WaitingToFinish
    | Finishing                           // the destructor, mutex held

  // A block of the allocator; `origin` is the backtrace with which its allocation was recorded, leaf first.
  datatype Cell = Cell(size: u64, origin: Option<seq<u64>>)

  datatype State = State(
    open: bool,                    // `fd >= 0`
    lock: Option<Tid>,
    pcs: map<Tid, Pc>,
    heap: map<u64, Cell>,
    log: seq<Event>,
    final: map<u64, Cell>)         // the heap when the log was closed

  // One atomic step, with what the environment chose: the thread, the call, the allocator's answer and
  // the backtrace.
  datatype Step =
    | Call(t: Tid, op: Op)
    | Lock(t: Tid)
    | LibcMalloc(t: Tid, p: u64, usable: u64)
    | RecordMalloc(t: Tid, frames: seq<u64>)
    | RecordFree(t: Tid)
    | LibcFree(t: Tid)
    | LibcRealloc(t: Tid, p: u64, usable: u64)
    | RecordRealloc(t: Tid, frames: seq<u64>)
    | Unlock(t: Tid)
    | Return(t: Tid)
    | NestedMalloc(t: Tid, p: u64, usable: u64)
    | NestedFree(t: Tid, p: u64)
    | CallFinish(t: Tid)
    | Close(t: Tid)

  function PcOf(s: State, t: Tid): Pc {
    if t in s.pcs then s.pcs[t] else Outside
  }

  function Goto(s: State, t: Tid, pc: Pc): State {
    s.(pcs := s.pcs[t := pc])
  }

  predicate HoldsLock(pc: Pc) {
    match pc
    case Outside | Waiting(_) | Unlocked | WaitingToFinish => false
    case _ => true
  }

  // A `realloc` that gave up its old block: it moved, resized in place, or freed on size zero.
  predicate Released(pc: Pc) {
    pc.Reallocked? && (pc.p != 0 || pc.size == 0)
  }

  /** The block a call in flight works on; its client uses it for nothing else meanwhile. */
  function Owned(pc: Pc): set<u64> {
    (match pc
     case Waiting(FreeOp(p)) => {p}
     case Holding(FreeOp(p)) => {p}
     case Waiting(ReallocOp(q, _)) => {q}
     case Holding(ReallocOp(q, _)) => {q}
     case Mallocked(p, _) => {p}
     case Freeing(p) => {p}
     case Reallocked(q, p, _, _, _) => if Released(pc) then {p} else {q}
     case _ => {}) - {0}
  }

  ghost predicate InFlight(s: State, p: u64) {
    exists t :: t in s.pcs && p in Owned(s.pcs[t])
  }

  // `struct event`: the trace without its first two frames, padded with zeros.
  function MakeEvent(kind: u64, p: u64, oldAddress: u64, size: u64, frames: seq<u64>): (e: Event)
    requires |frames| <= 62
    ensures |e.slots| == MAX_DEPTH && e.depth == |frames|
  {
    Event(kind, p, oldAddress, size, |frames|, frames + seq(MAX_DEPTH - |frames|, _ => 0))
  }

  lemma MadeStack(kind: u64, p: u64, oldAddress: u64, size: u64, frames: seq<u64>)
    requires |frames| <= 62
    ensures EventStack(MakeEvent(kind, p, oldAddress, size, frames)) == Backtrace(frames)
  {
    assert MakeEvent(kind, p, oldAddress, size, frames).slots[..|frames|] == frames;
  }

  // `realloc` on the allocator: what becomes of the blocks.
  function Reallocate(heap: map<u64, Cell>, block: u64, size: nat, p: u64, usable: u64): map<u64, Cell> {
    if p != 0 then (heap - {block})[p := Cell(usable, None)]
    else if size == 0 then heap - {block}
    else heap
  }

  function WasRecorded(heap: map<u64, Cell>, p: u64): Option<Block> {
    if p in heap && heap[p].origin.Some? then Some(Block(heap[p].size, Backtrace(heap[p].origin.value)))
    else None
  }

  /** When a step can happen.  Clients free what they hold; a nested call, under the guard or after the
      log was closed, frees no recorded block while the log is open. */
  ghost predicate Enabled(s: State, step: Step) {
    var pc := PcOf(s, step.t);
    match step
    case Call(_, op) =>
      && pc.Outside? && s.open
      && (op.FreeOp? && op.p != 0 ==> op.p in s.heap && !InFlight(s, op.p))
      && (op.ReallocOp? && op.block != 0 ==> op.block in s.heap && !InFlight(s, op.block))
    case Lock(_) => (pc.Waiting? || pc.WaitingToFinish?) && s.lock.None?
    case LibcMalloc(_, p, _) => pc == Holding(MallocOp) && (p == 0 || p !in s.heap)
    case RecordMalloc(_, frames) => pc.Mallocked? && |frames| <= 62
    case RecordFree(_) => pc.Holding? && pc.op.FreeOp?
    case LibcFree(_) => pc.Freeing?
    case LibcRealloc(_, p, _) =>
      && pc.Holding? && pc.op.ReallocOp?
      && (p == 0 || p !in s.heap || p == pc.op.block)
      && (pc.op.size == 0 && pc.op.block != 0 ==> p == 0)
    case RecordRealloc(_, frames) => pc.Reallocked? && |frames| <= 62
    case Unlock(_) => pc.Leaving?
    case Return(_) => pc.Unlocked?
    case NestedMalloc(_, p, _) => (!pc.Outside? || !s.open) && p != 0 && p !in s.heap
    case NestedFree(_, p) =>
      && (!pc.Outside? || !s.open)
      && p in s.heap && !InFlight(s, p)
      && (s.open ==> s.heap[p].origin.None?)
    case CallFinish(_) => pc.Outside? && s.open
    case Close(_) => pc.Finishing?
  }

  function Append(s: State, e: Event): State {
    s.(log := s.log + [e])
  }

  function Mark(s: State, p: u64, frames: seq<u64>): State
    requires p in s.heap
  {
    s.(heap := s.heap[p := s.heap[p].(origin := Some(frames))])
  }

  function After(s: State, step: Step): State
    requires Enabled(s, step) && Inv(s)
  {
    var t := step.t;
    var pc := PcOf(s, t);
    match step
    case Call(_, op) => Goto(s, t, Waiting(op))
    case Lock(_) => Goto(s.(lock := Some(t)), t, if pc.Waiting? then Holding(pc.op) else Finishing)
    case LibcMalloc(_, p, usable) =>
      if p == 0 then Goto(s, t, Leaving)
      else Goto(s.(heap := s.heap[p := Cell(usable, None)]), t, Mallocked(p, usable))
    case RecordMalloc(_, frames) =>
      if !s.open then Goto(s, t, Leaving)
      else
        var e := MakeEvent(1, pc.p, 0, pc.usable, frames);
        Goto(Append(Mark(s, pc.p, frames), e), t, Leaving)
    case RecordFree(_) =>
      if pc.op.p == 0 || !s.open then Goto(s, t, Freeing(pc.op.p))
      else Goto(Append(s, MakeEvent(2, pc.op.p, 0, 0, [])), t, Freeing(pc.op.p))
    case LibcFree(_) => Goto(s.(heap := s.heap - {pc.p}), t, Leaving)
    case LibcRealloc(_, p, usable) =>
      var block, size := pc.op.block, pc.op.size;
      Goto(s.(heap := Reallocate(s.heap, block, size, p, usable)), t,
           Reallocked(block, p, size, usable, WasRecorded(s.heap, block)))
    case RecordRealloc(_, frames) =>
      if !Released(pc) || !s.open then Goto(s, t, Leaving)
      else
        var e := MakeEvent(3, pc.p, pc.block, if pc.p != 0 then pc.usable else 0, frames);
        if pc.p == 0 then Goto(Append(s, e), t, Leaving)
        else Goto(Append(Mark(s, pc.p, frames), e), t, Leaving)
    case Unlock(_) => Goto(s.(lock := None), t, Unlocked)
    case Return(_) => Goto(s, t, Outside)
    case NestedMalloc(_, p, usable) => s.(heap := s.heap[p := Cell(usable, None)])
    case NestedFree(_, p) => s.(heap := s.heap - {p})
    case CallFinish(_) => Goto(s, t, WaitingToFinish)
    case Close(_) => Goto(s.(open := false, final := if s.open then s.heap else s.final), t, Leaving)
  }

  // ----- Live blocks of a log -----

  /** The live blocks after one more event, unless it allocates an address that is live. */
  function LiveAfter(live: map<u64, Block>, e: Event): Option<map<u64, Block>>
    requires e.depth <= |e.slots|
  {
    var kept := match Freed(e) case None => live case Some(a) => live - {a};
    if !(e.kind == 1 || e.kind == 3) || e.address == 0 then Some(kept)
    else if e.address in kept then None
    else Some(kept[e.address := Block(e.size, EventStack(e))])
  }

  ghost predicate WellFormed(log: seq<Event>) {
    forall e :: e in log ==> 1 <= e.kind <= 3 && |e.slots| == MAX_DEPTH && e.depth <= MAX_DEPTH
  }

  function LiveOf(log: seq<Event>): Option<map<u64, Block>>
    requires WellFormed(log)
  {
    if log == [] then Some(map[])
    else match LiveOf(log[..|log| - 1])
         case None => None
         case Some(live) => LiveAfter(live, log[|log| - 1])
  }

  /** The reader's replay agrees: it can only fail when a stack's totals leave int64, and when it does
      not, its live blocks are these. */
  lemma {:induction false} ReplayAgrees(log: seq<Event>)
    requires WellFormed(log) && LiveOf(log).Some?
    ensures match ReplayAll(log)
            case Ok(r) => r.ledger.live == LiveOf(log).value && 0 !in r.ledger.live
            case Err(e) => e == OutOfRange
    decreases |log|
  {
    if log != [] {
      var e := log[|log| - 1];
      ReplayAgrees(log[..|log| - 1]);
      assert 1 <= e.kind <= 3;
    }
  }

  /** What the log allocates with a stack: how many blocks, and how many bytes. */
  function Recordings(log: seq<Event>, stack: Stack): Totals
    requires WellFormed(log)
  {
    if log == [] then Totals(0, 0)
    else
      var before, e := Recordings(log[..|log| - 1], stack), log[|log| - 1];
      if Allocates(e) && EventStack(e) == stack then Totals(before.objects + 1, before.bytes + e.size) else before
  }

  /** No stack is recorded more often, or with more bytes, than an int64 counts. */
  ghost predicate TotalsFit(log: seq<Event>)
    requires WellFormed(log)
  {
    forall s: Stack :: Recordings(log, s).objects <= I64_MAX && Recordings(log, s).bytes <= I64_MAX
  }

  ghost predicate Counts(r: Replay, log: seq<Event>)
    requires WellFormed(log)
  {
    forall s: Stack :: r.ledger.Allocated(s) == Recordings(log, s)
  }

  // One more event of a log that fits so far.
  lemma CountsNext(r: Replay, log: seq<Event>, e: Event)
    requires WellFormed(log + [e]) && WellFormed(log) && Counts(r, log) && TotalsFit(log)
    requires ReplayEvent(r, e).Ok? || ReplayEvent(r, e) == Err(OutOfRange)
    ensures ReplayEvent(r, e).Ok? <==> TotalsFit(log + [e])
    ensures ReplayEvent(r, e).Ok? ==> Counts(ReplayEvent(r, e).value, log + [e])
  {
    hide Recordings, EventStack, Backtrace;
    forall s: Stack
      ensures Recordings(log + [e], s) ==
        if Allocates(e) && EventStack(e) == s
          then Totals(Recordings(log, s).objects + 1, Recordings(log, s).bytes + e.size)
        else Recordings(log, s)
    {
      RecordingsNext(log, e, s);
    }
    var released := ReplayFree(r, Freed(e));
    assert released.ledger.allocs == r.ledger.allocs;
    if ReplayEvent(r, e).Err? {
      assert Recordings(log + [e], EventStack(e)).objects > I64_MAX || Recordings(log
          + [e], EventStack(e)).bytes > I64_MAX;
    }
  }

  lemma RecordingsNext(log: seq<Event>, e: Event, s: Stack)
    requires WellFormed(log + [e]) && WellFormed(log)
    ensures Recordings(log + [e], s) ==
      if Allocates(e) && EventStack(e) == s
        then Totals(Recordings(log, s).objects + 1, Recordings(log, s).bytes + e.size)
      else Recordings(log, s)
  {
    assert (log + [e])[..|log|] == log;
  }

  // Fewer events count less.
  lemma FitsBefore(log: seq<Event>, e: Event)
    requires WellFormed(log + [e]) && WellFormed(log) && TotalsFit(log + [e])
    ensures TotalsFit(log)
  {
    hide Recordings;
    forall s: Stack ensures Recordings(log, s).objects <= I64_MAX && Recordings(log, s).bytes <= I64_MAX {
      RecordingsNext(log, e, s);
    }
  }

  /** The exact condition: a log of live blocks replays if and only if the totals of its stacks fit, and then
      these are the totals that the reader has. */
  lemma {:induction false} ReplaysExactly(log: seq<Event>)
    requires WellFormed(log) && LiveOf(log).Some?
    ensures ReplayAll(log).Ok? <==> TotalsFit(log)
    ensures ReplayAll(log).Ok? ==> Counts(ReplayAll(log).value, log)
    decreases |log|
  {
    ReplayAgrees(log);
    if log != [] {
      var before, e := log[..|log| - 1], log[|log| - 1];
      assert log == before + [e];
      ReplaysExactly(before);
      hide TotalsFit, Counts, ReplayEvent, LiveAfter, Recordings;
      if TotalsFit(log) {
        FitsBefore(before, e);
      }
      if ReplayAll(before).Ok? {
        CountsNext(ReplayAll(before).value, before, e);
      }
    } else {
      NothingRecorded();
    }
  }

  lemma NothingRecorded()
    ensures TotalsFit([]) && Counts(START, [])
  {
  }

  // ----- The invariant -----

  function Recorded(heap: map<u64, Cell>): map<u64, Block> {
    map a | a in heap && heap[a].origin.Some? :: Block(heap[a].size, Backtrace(heap[a].origin.value))
  }

  /** What the log must replay to, given what the thread holding the mutex is in the middle of. */
  function Expected(s: State): map<u64, Block> {
    if !s.open then Recorded(s.final)
    else if s.lock.None? then Recorded(s.heap)
    else
      match PcOf(s, s.lock.value)
      case Freeing(p) => Recorded(s.heap) - {p}
      case Reallocked(q, p, size, usable, Some(block)) =>
        if p != 0 || size == 0 then Recorded(s.heap)[q := block] else Recorded(s.heap)
      case _ => Recorded(s.heap)
  }

  // What each thread may rely on.
  ghost predicate ThreadInv(s: State, pc: Pc) {
    && Owned(pc) <= s.heap.Keys
    && (pc.Mallocked? ==> pc.p != 0 && s.heap[pc.p] == Cell(pc.usable, None))
    && (pc.Reallocked? && pc.p != 0 ==> s.heap[pc.p] == Cell(pc.usable, None))
    && (Released(pc) && pc.block in s.heap ==> s.heap[pc.block].origin.None?)
    && (Released(pc) && pc.was.Some? ==> pc.block != 0)
  }

  ghost predicate LockInv(s: State) {
    && (forall t :: t in s.pcs ==> (HoldsLock(s.pcs[t]) <==> s.lock == Some(t)))
    && (s.lock.Some? ==> s.lock.value in s.pcs)
  }

  ghost predicate ThreadsInv(s: State) {
    && 0 !in s.heap
    && (forall t, u :: t in s.pcs && u in s.pcs && t != u ==> Owned(s.pcs[t]) !! Owned(s.pcs[u]))
    && (forall t :: t in s.pcs ==> ThreadInv(s, s.pcs[t]))
  }

  ghost predicate LogInv(s: State) {
    WellFormed(s.log) && LiveOf(s.log) == Some(Expected(s))
  }

  ghost predicate Inv(s: State) {
    LockInv(s) && ThreadsInv(s) && LogInv(s)
  }

  // ----- Every step keeps it -----

  lemma StepKeepsLock(s: State, step: Step)
    requires Inv(s) && Enabled(s, step)
    ensures LockInv(After(s, step))
  {
    hide LogInv, ThreadsInv, InFlight, Reallocate, MakeEvent, EventStack, Backtrace, WasRecorded;
  }

  // What a thread relies on survives a heap that keeps its blocks and records nothing new.
  lemma ThreadInvFrame(s: State, s': State, pc: Pc)
    requires ThreadInv(s, pc)
    requires forall p :: p in Owned(pc) ==> p in s'.heap && s'.heap[p] == s.heap[p]
    requires forall p :: p in s'.heap && s'.heap[p].origin.Some? ==> p in s.heap && s.heap[p].origin.Some?
    ensures ThreadInv(s', pc)
  {
    if pc.Mallocked? || (pc.Reallocked? && pc.p != 0) {
      assert pc.p in Owned(pc);
    }
  }

  // One thread moves on; the others keep their blocks, and nothing new is recorded.
  lemma MoveKeepsThreads(s: State, s': State, t: Tid, pc: Pc)
    requires ThreadsInv(s) && 0 !in s'.heap
    requires s'.pcs == s.pcs[t := pc] && ThreadInv(s', pc)
    requires forall u :: u in s.pcs && u != t ==> Owned(s.pcs[u]) !! Owned(pc)
    requires forall u, p :: u in s.pcs && u != t && p in Owned(s.pcs[u]) ==> p in s'.heap && s'.heap[p] == s.heap[p]
    requires forall p :: p in s'.heap && s'.heap[p].origin.Some? ==> p in s.heap && s.heap[p].origin.Some?
    ensures ThreadsInv(s')
  {
    hide ThreadInv, Owned;
    forall u | u in s'.pcs ensures ThreadInv(s', s'.pcs[u]) {
      if u != t {
        ThreadInvFrame(s, s', s.pcs[u]);
      }
    }
  }

  lemma OwnInv(s: State, t: Tid)
    requires Inv(s)
    ensures 0 !in s.heap && ThreadInv(s, PcOf(s, t))
    ensures forall u :: u in s.pcs && u != t ==> Owned(s.pcs[u]) !! Owned(PcOf(s, t))
  {
    hide LogInv, LockInv;
  }

  // The thread itself, when it leaves the heap alone.
  lemma ClientStepOwn(s: State, step: Step)
    requires Inv(s) && Enabled(s, step)
    requires step.Call? || step.Lock? || step.Unlock? || step.Return? || step.CallFinish? || step.Close?
      || step.RecordFree?
    ensures var s' := After(s, step);
      && s'.heap == s.heap && step.t in s'.pcs && s'.pcs == s.pcs[step.t := s'.pcs[step.t]]
      && ThreadInv(s', s'.pcs[step.t])
      && (if step.Call? then forall p :: p in Owned(s'.pcs[step.t]) ==> !InFlight(s, p)
          else Owned(s'.pcs[step.t]) <= Owned(PcOf(s, step.t)))
  {
    hide LogInv, LockInv, ThreadsInv, InFlight, MakeEvent, EventStack, Backtrace, Reallocate, WasRecorded;
    OwnInv(s, step.t);
  }

  lemma ClientStepKeepsThreads(s: State, step: Step)
    requires Inv(s) && Enabled(s, step)
    requires step.Call? || step.Lock? || step.Unlock? || step.Return? || step.CallFinish? || step.Close?
      || step.RecordFree?
    ensures ThreadsInv(After(s, step))
  {
    hide After, Enabled, LogInv, LockInv, Owned;
    var s' := After(s, step);
    OwnInv(s, step.t);
    ClientStepOwn(s, step);
    forall u, p | u in s.pcs && u != step.t && p in Owned(s.pcs[u])
      ensures p in s.heap && p !in Owned(s'.pcs[step.t])
    {
      assert ThreadInv(s, s.pcs[u]);
      assert InFlight(s, p);
    }
    hide ThreadInv;
    MoveKeepsThreads(s, s', step.t, s'.pcs[step.t]);
  }

  lemma HolderInv(s: State, t: Tid)
    requires Inv(s) && HoldsLock(PcOf(s, t))
    ensures t in s.pcs && s.lock == Some(t)
    ensures forall u :: u in s.pcs && u != t ==> !HoldsLock(s.pcs[u])
  {
    hide LogInv, ThreadsInv;
  }

  // Recording a block changes nothing but that block's origin.
  lemma RecordOwn(s: State, step: Step)
    requires Inv(s) && Enabled(s, step)
    requires step.RecordMalloc? || step.RecordRealloc?
    ensures var s', pc := After(s, step), PcOf(s, step.t);
      && HoldsLock(pc) && s'.pcs == s.pcs[step.t := Leaving]
      && (s'.heap == s.heap || (pc.p in s.heap && s'.heap == s.heap[pc.p := s'.heap[pc.p]]))
  {
    hide LogInv, LockInv, ThreadsInv, InFlight, MakeEvent, EventStack, Backtrace, Reallocate, WasRecorded;
    OwnInv(s, step.t);
  }

  lemma RecordKeepsThreads(s: State, step: Step)
    requires Inv(s) && Enabled(s, step)
    requires step.RecordMalloc? || step.RecordRealloc?
    ensures ThreadsInv(After(s, step))
  {
    hide After, Enabled, LogInv, LockInv;
    var s' := After(s, step);
    OwnInv(s, step.t);
    RecordOwn(s, step);
    HolderInv(s, step.t);
    forall u | u in s'.pcs ensures ThreadInv(s', s'.pcs[u]) {
      if u != step.t {
        assert ThreadInv(s, s.pcs[u]) && !s.pcs[u].Mallocked? && !s.pcs[u].Reallocked?;
      }
    }
  }

  // The blocks of the other threads are not touched.
  lemma LibcKeepsOthers(s: State, step: Step, u: Tid, p: u64)
    requires Inv(s) && Enabled(s, step)
    requires step.LibcMalloc? || step.LibcFree? || step.LibcRealloc?
    requires u in s.pcs && u != step.t && p in Owned(s.pcs[u])
    ensures p in s.heap && p !in Owned(After(s, step).pcs[step.t])
    ensures p in After(s, step).heap && After(s, step).heap[p] == s.heap[p]
  {
    hide LogInv, LockInv, InFlight, EventStack, Backtrace, MakeEvent, Mark, Append, LiveOf, WasRecorded;
    assert ThreadInv(s, s.pcs[u]);
    assert ThreadInv(s, PcOf(s, step.t));
    assert p !in Owned(PcOf(s, step.t)) && p != 0;
  }

  lemma LibcKeepsOwn(s: State, step: Step)
    requires Inv(s) && Enabled(s, step)
    requires step.LibcMalloc? || step.LibcFree? || step.LibcRealloc?
    ensures var s' := After(s, step);
      && step.t in s'.pcs && s'.pcs == s.pcs[step.t := s'.pcs[step.t]] && 0 !in s'.heap
      && ThreadInv(s', s'.pcs[step.t])
      && forall p :: p in s'.heap && s'.heap[p].origin.Some? ==> p in s.heap && s.heap[p].origin.Some?
  {
    hide LogInv, LockInv, ThreadsInv, InFlight, EventStack, Backtrace, MakeEvent, Mark, Append;
    OwnInv(s, step.t);
  }

  lemma LibcKeepsThreads(s: State, step: Step)
    requires Inv(s) && Enabled(s, step)
    requires step.LibcMalloc? || step.LibcFree? || step.LibcRealloc?
    ensures ThreadsInv(After(s, step))
  {
    hide After, Enabled, LogInv, LockInv, ThreadInv, Owned;
    var s' := After(s, step);
    LibcKeepsOwn(s, step);
    forall u, p | u in s.pcs && u != step.t && p in Owned(s.pcs[u])
      ensures p in s.heap && p !in Owned(s'.pcs[step.t]) && p in s'.heap && s'.heap[p] == s.heap[p]
    {
      LibcKeepsOthers(s, step, u, p);
    }
    MoveKeepsThreads(s, s', step.t, s'.pcs[step.t]);
  }

  lemma NestedKeepsThreads(s: State, step: Step)
    requires Inv(s) && Enabled(s, step)
    requires step.NestedMalloc? || step.NestedFree?
    ensures ThreadsInv(After(s, step))
  {
    hide LogInv;
    var s' := After(s, step);
    forall t | t in s'.pcs ensures ThreadInv(s', s'.pcs[t]) {
      ThreadInvFrame(s, s', s.pcs[t]);
    }
  }

  lemma LiveAppend(log: seq<Event>, e: Event)
    requires WellFormed(log) && LiveOf(log).Some?
    requires 1 <= e.kind <= 3 && |e.slots| == MAX_DEPTH && e.depth <= MAX_DEPTH
    ensures WellFormed(log + [e]) && LiveOf(log + [e]) == LiveAfter(LiveOf(log).value, e)
  {
    assert (log + [e])[..|log|] == log;
  }

  // The steps that change neither the log nor a block.
  lemma QuietKeepsLog(s: State, step: Step)
    requires Inv(s) && Enabled(s, step)
    requires step.Call? || step.Lock? || step.Unlock? || step.Return? || step.CallFinish? || step.Close?
    ensures LogInv(After(s, step))
  {
    hide LiveOf, WellFormed, InFlight, ThreadsInv, Recorded;
    var s' := After(s, step);
    assert s'.log == s.log;
  }

  // The steps that change only unrecorded blocks.
  lemma UnrecordedKeepsLog(s: State, step: Step)
    requires Inv(s) && Enabled(s, step)
    requires step.NestedMalloc? || step.NestedFree? || step.LibcMalloc?
    ensures LogInv(After(s, step))
  {
    hide LiveOf, WellFormed, InFlight, EventStack, Backtrace, MakeEvent, Owned, Mark, Reallocate, Append, ThreadsInv;
    var s' := After(s, step);
    assert s'.log == s.log;
    assert s.open ==> Recorded(s'.heap) == Recorded(s.heap);
  }

  lemma FreeKeepsLog(s: State, step: Step)
    requires Inv(s) && Enabled(s, step)
    requires step.RecordFree? || step.LibcFree?
    ensures LogInv(After(s, step))
  {
    hide LiveOf, InFlight, ThreadInv, Backtrace, EventStack;
    var s' := After(s, step);
    var pc := s.pcs[step.t];
    if step.RecordFree? {
      var p := pc.op.p;
      if p != 0 && s.open {
        LiveAppend(s.log, MakeEvent(2, p, 0, 0, []));
      } else {
        assert Recorded(s.heap) - {0} == Recorded(s.heap);
      }
    } else {
      assert Recorded(s.heap - {pc.p}) == Recorded(s.heap) - {pc.p};
    }
  }

  lemma ReallocKeepsLog(s: State, step: Step)
    requires Inv(s) && Enabled(s, step) && step.LibcRealloc?
    ensures LogInv(After(s, step))
  {
    hide LiveOf, WellFormed, InFlight, ThreadsInv, EventStack, Backtrace, MakeEvent, Owned, Mark;
    var s' := After(s, step);
    var q := s.pcs[step.t].op.block;
    assert s'.log == s.log;
    assert Recorded(Reallocate(s.heap, q, s.pcs[step.t].op.size, step.p, step.usable))
        == if Released(s'.pcs[step.t]) then Recorded(s.heap) - {q} else Recorded(s.heap);
    assert s.open ==> Expected(s') == Recorded(s.heap);
  }

  lemma RecordMallocKeepsLog(s: State, step: Step)
    requires Inv(s) && Enabled(s, step) && step.RecordMalloc?
    ensures LogInv(After(s, step))
  {
    hide LiveOf, InFlight, Backtrace, EventStack, ThreadsInv;
    OwnInv(s, step.t);
    var s' := After(s, step);
    var pc := s.pcs[step.t];
    if s.open {
      var e := MakeEvent(1, pc.p, 0, pc.usable, step.frames);
      assert ThreadInv(s, pc);
      LiveAppend(s.log, e);
      MadeStack(1, pc.p, 0, pc.usable, step.frames);
      assert Recorded(s'.heap) == Recorded(s.heap)[pc.p := Block(pc.usable, EventStack(e))];
    }
  }

  lemma RecordReallocKeepsLog(s: State, step: Step)
    requires Inv(s) && Enabled(s, step) && step.RecordRealloc?
    ensures LogInv(After(s, step))
  {
    hide LiveOf, InFlight, EventStack, Backtrace, Reallocate, WasRecorded, Owned, LockInv, ThreadsInv;
    OwnInv(s, step.t);
    HolderInv(s, step.t);
    var s' := After(s, step);
    var pc := s.pcs[step.t];
    if Released(pc) && s.open {
      var e := MakeEvent(3, pc.p, pc.block, if pc.p != 0 then pc.usable else 0, step.frames);
      LiveAppend(s.log, e);
      MadeStack(3, pc.p, pc.block, if pc.p != 0 then pc.usable else 0, step.frames);
      assert Recorded(s.heap) - {pc.block} == Recorded(s.heap);
      assert Expected(s) - {pc.block} == Recorded(s.heap);
      assert pc.block == 0 ==> Expected(s) == Recorded(s.heap);
      if pc.p != 0 {
        assert Recorded(s'.heap) == Recorded(s.heap)[pc.p := Block(pc.usable, EventStack(e))];
      }
    }
  }

  lemma StepKeepsLog(s: State, step: Step)
    requires Inv(s) && Enabled(s, step)
    ensures LogInv(After(s, step))
  {
    hide Enabled, After, Inv, LogInv;
    match step
    case RecordMalloc(_, _) => RecordMallocKeepsLog(s, step);
    case RecordRealloc(_, _) => RecordReallocKeepsLog(s, step);
    case LibcRealloc(_, _, _) => ReallocKeepsLog(s, step);
    case RecordFree(_) => FreeKeepsLog(s, step);
    case LibcFree(_) => FreeKeepsLog(s, step);
    case NestedMalloc(_, _, _) => UnrecordedKeepsLog(s, step);
    case NestedFree(_, _) => UnrecordedKeepsLog(s, step);
    case LibcMalloc(_, _, _) => UnrecordedKeepsLog(s, step);
    case _ => QuietKeepsLog(s, step);
  }

  lemma StepKeepsThreads(s: State, step: Step)
    requires Inv(s) && Enabled(s, step)
    ensures ThreadsInv(After(s, step))
  {
    hide Enabled, After, Inv, ThreadsInv;
    match step
    case RecordMalloc(_, _) => RecordKeepsThreads(s, step);
    case RecordRealloc(_, _) => RecordKeepsThreads(s, step);
    case LibcMalloc(_, _, _) => LibcKeepsThreads(s, step);
    case LibcRealloc(_, _, _) => LibcKeepsThreads(s, step);
    case LibcFree(_) => LibcKeepsThreads(s, step);
    case NestedMalloc(_, _, _) => NestedKeepsThreads(s, step);
    case NestedFree(_, _) => NestedKeepsThreads(s, step);
    case _ => ClientStepKeepsThreads(s, step);
  }

  lemma StepKeepsInv(s: State, step: Step)
    requires Inv(s) && Enabled(s, step)
    ensures Inv(After(s, step))
  {
    hide Enabled, After, LockInv, ThreadsInv, LogInv;
    StepKeepsLock(s, step);
    StepKeepsThreads(s, step);
    StepKeepsLog(s, step);
  }

  // ----- What is recorded -----

  /** The step writes an event for the block at `a`, with the trace that its thread took. */
  ghost predicate Records(s: State, step: Step, a: u64) {
    && s.open && a != 0
    && match PcOf(s, step.t)
       case Mallocked(p, _) => step.RecordMalloc? && p == a
       case Reallocked(_, p, _, _, _) => step.RecordRealloc? && p == a
       case _ => false
  }

  /** The last event of a log is this step's: its kind, the block and what it replaces, its size, and the trace
      PC by PC. */
  ghost predicate EndsWith(log: seq<Event>, kind: u64, a: u64, replaced: u64, size: u64, frames: seq<u64>) {
    && log != []
    && var e := log[|log| - 1];
      && e.kind == kind && e.address == a && e.oldAddress == replaced && e.size == size
      && e.depth == |frames| <= |e.slots| && forall i :: 0 <= i < |frames| ==> e.slots[i] == frames[i]
  }

  /** A block's backtrace is that of the step that recorded it; every other block keeps what it had, unless the
      allocator has just handed it out. */
  lemma StepOrigin(s: State, step: Step, a: u64)
    requires Inv(s) && Enabled(s, step)
    ensures Records(s, step, a) ==>
      var pc := PcOf(s, step.t);
      && a in After(s, step).heap && After(s, step).heap[a] == Cell(pc.usable, Some(step.frames))
      && EndsWith(After(s, step).log, if pc.Mallocked? then 1 else 3, a, if pc.Mallocked? then 0 else pc.block,
                  pc.usable, step.frames)
    ensures !Records(s, step, a) && a in After(s, step).heap && After(s, step).heap[a].origin.Some? ==>
      a in s.heap && After(s, step).heap[a].origin == s.heap[a].origin
  {
    hide LogInv, LockInv, ThreadsInv, InFlight, EventStack, Backtrace, LiveOf, WasRecorded;
    OwnInv(s, step.t);
  }

  // ----- Every run -----

  /** The recorder has just begun: the log is open and empty, and no block is recorded yet. */
  ghost predicate Initial(s: State) {
    && s.open && s.lock.None? && s.log == []
    && s.pcs == map[]
    && 0 !in s.heap
    && (forall p :: p in s.heap ==> s.heap[p].origin.None?)
  }

  ghost predicate CanRun(s: State, steps: seq<Step>)
    requires Inv(s)
    decreases |steps|
  {
    steps == [] || (Enabled(s, steps[0]) && (StepKeepsInv(s, steps[0]); CanRun(After(s, steps[0]), steps[1..])))
  }

  ghost function Run(s: State, steps: seq<Step>): State
    requires Inv(s) && CanRun(s, steps)
    decreases |steps|
  {
    if steps == [] then s else (StepKeepsInv(s, steps[0]); Run(After(s, steps[0]), steps[1..]))
  }

  lemma InitialInv(s: State)
    requires Initial(s)
    ensures Inv(s)
  {
    assert Recorded(s.heap) == map[];
  }

  lemma {:induction false} RunKeepsInv(s: State, steps: seq<Step>)
    requires Inv(s) && CanRun(s, steps)
    ensures Inv(Run(s, steps))
    ensures s.log <= Run(s, steps).log
    ensures !s.open ==> !Run(s, steps).open && Run(s, steps).log == s.log
    decreases |steps|
  {
    hide Inv;
    if steps != [] {
      StepKeepsInv(s, steps[0]);
      StepGrowsLog(s, steps[0]);
      hide After, Enabled;
      RunKeepsInv(After(s, steps[0]), steps[1..]);
    }
  }

  lemma StepGrowsLog(s: State, step: Step)
    requires Inv(s) && Enabled(s, step)
    ensures s.log <= After(s, step).log
    ensures !s.open ==> !After(s, step).open && After(s, step).log == s.log
  {
    hide Inv;
  }

  lemma {:induction false} LivePrefix(log: seq<Event>, n: nat)
    requires WellFormed(log) && LiveOf(log).Some? && n <= |log|
    ensures WellFormed(log[..n]) && LiveOf(log[..n]).Some?
    decreases |log|
  {
    if n < |log| {
      LivePrefix(log[..|log| - 1], n);
      assert log[..|log| - 1][..n] == log[..n];
    } else {
      assert log[..n] == log;
    }
  }

  /** In every interleaving, every prefix of the log replays, exactly if the totals of its stacks fit; a
      duplicate address never stops the reader. */
  lemma EveryPrefixReplays(s: State, steps: seq<Step>, n: nat)
    requires Initial(s)
    requires (InitialInv(s); CanRun(s, steps) && n <= |Run(s, steps).log|)
    ensures (InitialInv(s); var log := Run(s, steps).log[..n]; var replay := ReplayAll(log);
      && WellFormed(log) && (replay.Ok? <==> TotalsFit(log))
      && (replay.Ok? || replay == Err(OutOfRange)))
  {
    hide Inv, ReplayAll, LiveOf, TotalsFit, Counts;
    InitialInv(s);
    RunKeepsInv(s, steps);
    var log := Run(s, steps).log;
    InvLog(Run(s, steps));
    LivePrefix(log, n);
    ReplayAgrees(log[..n]);
    ReplaysExactly(log[..n]);
  }

  /** Block by block: the live blocks are those with a recorded backtrace, with its frames. */
  ghost predicate Mirrors(live: map<u64, Block>, heap: map<u64, Cell>) {
    && (forall a :: a in live <==> a in heap && heap[a].origin.Some?)
    && (forall a :: a in live ==> live[a].size == heap[a].size && HasFrames(live[a].stack, heap[a].origin.value))
  }

  lemma RecordedMirrors(heap: map<u64, Cell>)
    ensures Mirrors(Recorded(heap), heap)
  {
    hide Backtrace, HasFrames;
    forall a | a in heap && heap[a].origin.Some?
      ensures HasFrames(Backtrace(heap[a].origin.value), heap[a].origin.value)
    {
      BacktraceFrames(heap[a].origin.value, Backtrace(heap[a].origin.value));
    }
  }

  lemma InvLog(s: State)
    requires Inv(s)
    ensures WellFormed(s.log) && LiveOf(s.log) == Some(Expected(s))
  {
  }

  /** Whenever the mutex is free, the replayed live blocks are the allocator's recorded ones; and the log
      replays exactly if the totals of its stacks fit. */
  lemma ReplayIsTheHeap(s: State, steps: seq<Step>)
    requires Initial(s)
    requires (InitialInv(s); CanRun(s, steps) && Run(s, steps).open && Run(s, steps).lock.None?)
    ensures (InitialInv(s); var t := Run(s, steps);
      && WellFormed(t.log) && (ReplayAll(t.log).Ok? <==> TotalsFit(t.log))
      && (ReplayAll(t.log).Ok? ==> ReplayAll(t.log).value.ledger.live == Recorded(t.heap)
                                   && Mirrors(ReplayAll(t.log).value.ledger.live, t.heap)))
  {
    hide Inv, ReplayAll, LiveOf, Recorded, TotalsFit, Counts, Mirrors;
    InitialInv(s);
    RunKeepsInv(s, steps);
    InvLog(Run(s, steps));
    ReplayAgrees(Run(s, steps).log);
    ReplaysExactly(Run(s, steps).log);
    RecordedMirrors(Run(s, steps).heap);
  }

  /** The state is where some run from the start has led. */
  ghost predicate Reached(origin: State, steps: seq<Step>, s: State) {
    Initial(origin) && (InitialInv(origin); CanRun(origin, steps) && Run(origin, steps) == s)
  }

  lemma ReachedInv(origin: State, steps: seq<Step>, s: State)
    requires Reached(origin, steps, s)
    ensures Inv(s)
  {
    hide Inv;
    InitialInv(origin);
    RunKeepsInv(origin, steps);
  }

  /** Closing freezes the history: whatever ran before and runs afterwards, the log stays the one of the moment
      it was closed, and replays to the recorded blocks of that moment. */
  lemma ClosedLogIsFinal(origin: State, before: seq<Step>, s: State, t: Tid, after: seq<Step>)
    requires Reached(origin, before, s) && s.open && Enabled(s, Close(t))
    requires (ReachedInv(origin, before, s); StepKeepsInv(s, Close(t)); CanRun(After(s, Close(t)), after))
    ensures (ReachedInv(origin, before, s); StepKeepsInv(s, Close(t)); Run(After(s, Close(t)), after).log == s.log)
    ensures WellFormed(s.log) && (ReplayAll(s.log).Ok? <==> TotalsFit(s.log))
    ensures ReplayAll(s.log).Ok? ==> ReplayAll(s.log).value.ledger.live == Recorded(s.heap)
                                     && Mirrors(ReplayAll(s.log).value.ledger.live, s.heap)
  {
    hide ReplayAll, LiveOf, Recorded, ThreadsInv, Reached, TotalsFit, Counts, Mirrors;
    RecordedMirrors(s.heap);
    ReachedInv(origin, before, s);
    StepKeepsInv(s, Close(t));
    RunKeepsInv(After(s, Close(t)), after);
    ReplayAgrees(s.log);
    ReplaysExactly(s.log);
  }

  /** Through the file: a reader of the appended bytes, a torn record at the end or not, succeeds exactly if the
      status is good and the totals fit, and then it finds the heap. */
  lemma ReaderFindsTheHeap(origin: State, steps: seq<Step>, s: State, header: seq<u8>, torn: seq<u8>)
    requires Reached(origin, steps, s) && s.open && s.lock.None?
    requires |header| == HEADER && |torn| < RECORD
    ensures var bytes := LogBytes(header, s.log) + torn;
      && WellFormed(s.log)
      && (Outcome(bytes, false).Ok? <==> Status(bytes).Ok? && TotalsFit(s.log))
      && (Outcome(bytes, false).Ok? ==> Outcome(bytes, false).value.ledger.live == Recorded(s.heap)
                                        && Mirrors(Outcome(bytes, false).value.ledger.live, s.heap))
  {
    hide ReplayAll, LiveOf, Recorded, ThreadsInv, EventsOf, Status, Reached, TotalsFit, Counts, Mirrors;
    RecordedMirrors(s.heap);
    ReachedInv(origin, steps, s);
    LogReadsBack(header, s.log, torn);
    ReplayAgrees(s.log);
    ReplaysExactly(s.log);
  }

  /** Every block that a run has recorded was recorded by one of its steps, with that step's trace. */
  lemma {:induction false} OriginsAreRecorded(s: State, steps: seq<Step>, a: u64)
    requires Inv(s) && CanRun(s, steps)
    requires a in Run(s, steps).heap && Run(s, steps).heap[a].origin.Some?
    ensures var trace := Run(s, steps).heap[a].origin;
      || (a in s.heap && s.heap[a].origin == trace)
      || exists i :: 0 <= i < |steps| && RecordsTrace(steps[i], trace.value)
    decreases |steps|
  {
    hide Inv, Enabled, After, Records, EndsWith;
    if steps != [] {
      StepKeepsInv(s, steps[0]);
      StepOrigin(s, steps[0], a);
      OriginsAreRecorded(After(s, steps[0]), steps[1..], a);
      var trace := Run(s, steps).heap[a].origin.value;
      if i :| 0 <= i < |steps[1..]| && RecordsTrace(steps[1..][i], trace) {
        assert steps[1..][i] == steps[i + 1];
      } else if Records(s, steps[0], a) {
        RecordingStep(s, steps[0], a);
        assert RecordsTrace(steps[0], trace);
      }
    }
  }

  ghost predicate RecordsTrace(step: Step, trace: seq<u64>) {
    (step.RecordMalloc? || step.RecordRealloc?) && step.frames == trace
  }

  lemma RecordingStep(s: State, step: Step, a: u64)
    requires Records(s, step, a)
    ensures step.RecordMalloc? || step.RecordRealloc?
  {
  }

  /** From the threads to the reader: in every run, each live block of the replayed log has the frames of the
      trace that some thread recorded, in its order. */
  lemma LiveBlocksHaveTraces(s: State, steps: seq<Step>, a: u64)
    requires Initial(s)
    requires (InitialInv(s); CanRun(s, steps) && Run(s, steps).open && Run(s, steps).lock.None?)
    requires (InitialInv(s); var replay := ReplayAll(Run(s, steps).log);
      replay.Ok? && a in replay.value.ledger.live)
    ensures (InitialInv(s); var stack := ReplayAll(Run(s, steps).log).value.ledger.live[a].stack;
      exists i :: 0 <= i < |steps| && (steps[i].RecordMalloc? || steps[i].RecordRealloc?)
                  && HasFrames(stack, steps[i].frames))
  {
    hide Inv, ReplayAll, CanRun, Run, HasFrames;
    InitialInv(s);
    ReplayIsTheHeap(s, steps);
    OriginsAreRecorded(s, steps, a);
    var trace := Run(s, steps).heap[a].origin.value;
    var i :| 0 <= i < |steps| && RecordsTrace(steps[i], trace);
    assert HasFrames(ReplayAll(Run(s, steps).log).value.ledger.live[a].stack, steps[i].frames);
  }
}
