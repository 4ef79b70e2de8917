/** Heap measurements of `src/heap/mod.rs`: stacks, values, and strict accounting for an ordered
    allocation log.

    `Ledger` is the accounting as a value: what was ever allocated per stack, and what is live per
    address.  `NativeHeapTracker` implements it with interned stack ids. */
module HeapModel {
  import opened Prelude

  datatype HeapMapping = HeapMapping(memoryStart: u64, memoryLimit: u64, fileOffset: u64, filename: Text, buildId: Text)

  datatype HeapFrame = HeapFrame(address: u64, name: Text, file: Text, line: i64, mapping: Option<HeapMapping>)

  // Leaf first.
  type Stack = seq<HeapFrame>

  datatype HeapError =
    | NullAllocation
    | EmptyStack
    | DuplicateLive
    | UnknownFree
    | OutOfRange
    | ExecReplacedRecorder
    | RecorderLostEvents
    | InvalidStatus
    | TornLastRecord
    | CorruptDepth
    | UnknownRecord

  datatype HeapValues = HeapValues(allocObjects: u64, allocSpace: u64, inuseObjects: u64, inuseSpace: u64) {

    /** Fails when a sum leaves pprof's int64 range. */
    function CheckedAdd(other: HeapValues): Result<HeapValues, HeapError> {
      if && allocObjects + other.allocObjects <= I64_MAX
         && allocSpace + other.allocSpace <= I64_MAX
         && inuseObjects + other.inuseObjects <= I64_MAX
         && inuseSpace + other.inuseSpace <= I64_MAX
      then Ok(HeapValues(allocObjects + other.allocObjects, allocSpace + other.allocSpace,
                         inuseObjects + other.inuseObjects, inuseSpace + other.inuseSpace))
      else Err(OutOfRange)
    }
  }

  const NO_VALUES: HeapValues := HeapValues(0, 0, 0, 0)

  // ----- The ledger -----

  datatype Totals = Totals(objects: nat, bytes: nat)

  datatype Block = Block(size: u64, stack: Stack)

  datatype Ledger = Ledger(allocs: map<Stack, Totals>, live: map<u64, Block>) {

    function Allocated(stack: Stack): Totals {
      if stack in allocs then allocs[stack] else Totals(0, 0)
    }

    function Allocate(address: u64, size: u64, stack: Stack): Result<Ledger, HeapError> {
      if address == 0 then Err(NullAllocation)
      else if stack == [] then Err(EmptyStack)
      else if address in live then Err(DuplicateLive)
      else
        var t := Allocated(stack);
        if t.objects + 1 > I64_MAX || t.bytes + size > I64_MAX then Err(OutOfRange)
        else Ok(Ledger(allocs[stack := Totals(t.objects + 1, t.bytes + size)], live[address := Block(size, stack)]))
    }

    // Freeing null is allowed and changes nothing.
    function Release(address: u64): Result<Ledger, HeapError> {
      if address == 0 then Ok(this)
      else if address !in live then Err(UnknownFree)
      else Ok(Ledger(allocs, live - {address}))
    }

    /** What is in use never exceeds what was allocated, and that fits an int64. */
    ghost predicate Valid() {
      && (forall a :: a in live ==> a != 0 && live[a].stack in allocs)
      && (forall s :: s in allocs ==>
            && s != []
            && Inuse(live, live.Keys, s, false) <= allocs[s].objects <= I64_MAX
            && Inuse(live, live.Keys, s, true) <= allocs[s].bytes <= I64_MAX)
    }
  }

  const EMPTY_LEDGER: Ledger := Ledger(map[], map[])

  // What one live block counts for `stack`: an object, or its bytes.
  function Weight(block: Block, stack: Stack, bytes: bool): nat {
    if block.stack != stack then 0 else if bytes then block.size else 1
  }

  /** The objects (or bytes) of `stack` among the live blocks at `addresses`. */
  ghost function Inuse(live: map<u64, Block>, addresses: set<u64>, stack: Stack, bytes: bool): nat
    requires addresses <= live.Keys
  {
    if addresses == {} then 0
    else
      var a :| a in addresses;
      Weight(live[a], stack, bytes) + Inuse(live, addresses - {a}, stack, bytes)
  }

  /** The sum does not depend on the order of addition. */
  lemma {:induction false} InuseSplit(live: map<u64, Block>, addresses: set<u64>, a: u64, stack: Stack, bytes: bool)
    requires addresses <= live.Keys && a in addresses
    ensures Inuse(live, addresses, stack, bytes)
         == Weight(live[a], stack, bytes) + Inuse(live, addresses - {a}, stack, bytes)
    decreases addresses
  {
    var b :| b in addresses && Inuse(live, addresses, stack, bytes)
      == Weight(live[b], stack, bytes) + Inuse(live, addresses - {b}, stack, bytes);
    if a != b {
      InuseSplit(live, addresses - {b}, a, stack, bytes);
      InuseSplit(live, addresses - {a}, b, stack, bytes);
      assert addresses - {b} - {a} == addresses - {a} - {b};
    }
  }

  lemma {:induction false} InuseAgrees(live: map<u64, Block>, other: map<u64, Block>, addresses: set<u64>, stack: Stack,
                                       bytes: bool)
    requires addresses <= live.Keys && addresses <= other.Keys
    requires forall a :: a in addresses ==> live[a] == other[a]
    ensures Inuse(live, addresses, stack, bytes) == Inuse(other, addresses, stack, bytes)
    decreases addresses
  {
    if addresses != {} {
      var a :| a in addresses;
      InuseSplit(live, addresses, a, stack, bytes);
      InuseSplit(other, addresses, a, stack, bytes);
      InuseAgrees(live, other, addresses - {a}, stack, bytes);
    }
  }

  lemma {:induction false} InuseMonotone(live: map<u64, Block>, some: set<u64>, all: set<u64>, stack: Stack,
                                         bytes: bool)
    requires some <= all <= live.Keys
    ensures Inuse(live, some, stack, bytes) <= Inuse(live, all, stack, bytes)
    decreases some
  {
    if some != {} {
      var a :| a in some;
      InuseSplit(live, some, a, stack, bytes);
      InuseSplit(live, all, a, stack, bytes);
      InuseMonotone(live, some - {a}, all - {a}, stack, bytes);
    }
  }

  lemma {:induction false} NothingInuse(live: map<u64, Block>, addresses: set<u64>, stack: Stack, bytes: bool)
    requires addresses <= live.Keys
    requires forall a :: a in addresses ==> live[a].stack != stack
    ensures Inuse(live, addresses, stack, bytes) == 0
    decreases addresses
  {
    if addresses != {} {
      var a :| a in addresses;
      InuseSplit(live, addresses, a, stack, bytes);
      NothingInuse(live, addresses - {a}, stack, bytes);
    }
  }

  lemma InuseAfterAllocate(l: Ledger, address: u64, size: u64, stack: Stack, s: Stack, bytes: bool)
    requires address !in l.live
    ensures var live := l.live[address := Block(size, stack)];
      Inuse(live, live.Keys, s, bytes) == Inuse(l.live, l.live.Keys, s, bytes) + Weight(Block(size, stack), s, bytes)
  {
    var live := l.live[address := Block(size, stack)];
    InuseSplit(live, live.Keys, address, s, bytes);
    assert live.Keys - {address} == l.live.Keys;
    InuseAgrees(live, l.live, l.live.Keys, s, bytes);
  }

  lemma InuseAfterRelease(l: Ledger, address: u64, s: Stack, bytes: bool)
    requires address in l.live
    ensures var live := l.live - {address};
      Inuse(live, live.Keys, s, bytes) + Weight(l.live[address], s, bytes) == Inuse(l.live, l.live.Keys, s, bytes)
  {
    var live := l.live - {address};
    InuseSplit(l.live, l.live.Keys, address, s, bytes);
    assert live.Keys == l.live.Keys - {address};
    InuseAgrees(live, l.live, live.Keys, s, bytes);
  }

  /** Every operation keeps in-use below allocated. */
  lemma AllocateKeepsValid(l: Ledger, address: u64, size: u64, stack: Stack)
    requires l.Valid() && l.Allocate(address, size, stack).Ok?
    ensures l.Allocate(address, size, stack).value.Valid()
  {
    var l' := l.Allocate(address, size, stack).value;
    forall s | s in l'.allocs
      ensures Inuse(l'.live, l'.live.Keys, s, false) <= l'.allocs[s].objects
      ensures Inuse(l'.live, l'.live.Keys, s, true) <= l'.allocs[s].bytes
    {
      InuseAfterAllocate(l, address, size, stack, s, false);
      InuseAfterAllocate(l, address, size, stack, s, true);
      if s !in l.allocs {
        NothingInuse(l.live, l.live.Keys, s, false);
        NothingInuse(l.live, l.live.Keys, s, true);
      }
    }
  }

  lemma ReleaseKeepsValid(l: Ledger, address: u64)
    requires l.Valid() && l.Release(address).Ok?
    ensures l.Release(address).value.Valid()
  {
    if address != 0 {
      forall s: Stack, bytes: bool
        ensures Inuse(l.live - {address}, (l.live - {address}).Keys, s, bytes) <= Inuse(l.live, l.live.Keys, s, bytes)
      {
        InuseAfterRelease(l, address, s, bytes);
      }
    }
  }

  /** What a checkpoint reports for each stack. */
  ghost function Checkpoint(l: Ledger): map<Stack, HeapValues>
    requires l.Valid()
  {
    map s | s in l.allocs :: HeapValues(l.allocs[s].objects, l.allocs[s].bytes,
                                        Inuse(l.live, l.live.Keys, s, false), Inuse(l.live, l.live.Keys, s, true))
  }

  // ----- Histories -----

  datatype HeapOp = Malloc(address: u64, size: u64, stack: Stack) | Free(address: u64)

  function Perform(l: Ledger, op: HeapOp): Result<Ledger, HeapError> {
    match op
    case Malloc(address, size, stack) => l.Allocate(address, size, stack)
    case Free(address) => l.Release(address)
  }

  /** The ledger after some calls; one that fails changes nothing. */
  function After(ops: seq<HeapOp>): Ledger {
    if ops == [] then EMPTY_LEDGER
    else
      var l := After(ops[..|ops| - 1]);
      match Perform(l, ops[|ops| - 1])
      case Ok(l') => l'
      case Err(_) => l
  }

  // The successful allocations of `stack`.
  function Successes(ops: seq<HeapOp>, stack: Stack): Totals {
    if ops == [] then Totals(0, 0)
    else
      var before := Successes(ops[..|ops| - 1], stack);
      var op := ops[|ops| - 1];
      if op.Malloc? && op.stack == stack && Perform(After(ops[..|ops| - 1]), op).Ok?
      then Totals(before.objects + 1, before.bytes + op.size)
      else before
  }

  /** `i` is the allocation that still holds `a` after all of `ops`. */
  ghost predicate Holds(ops: seq<HeapOp>, a: u64, i: nat) {
    && i < |ops|
    && ops[i].Malloc? && ops[i].address == a
    && Perform(After(ops[..i]), ops[i]).Ok?
    && (forall j :: i < j < |ops| ==> ops[j] != Free(a))
  }

  lemma {:induction false} ReachableIsValid(ops: seq<HeapOp>)
    ensures After(ops).Valid()
  {
    if ops != [] {
      var n := |ops| - 1;
      var l := After(ops[..n]);
      ReachableIsValid(ops[..n]);
      match ops[n] {
        case Malloc(address, size, stack) =>
          if l.Allocate(address, size, stack).Ok? {
            AllocateKeepsValid(l, address, size, stack);
          }
        case Free(address) =>
          if l.Release(address).Ok? {
            ReleaseKeepsValid(l, address);
          }
      }
    }
  }

  /** The totals count the successful allocations. */
  lemma {:induction false} TotalsCountSuccesses(ops: seq<HeapOp>, s: Stack)
    ensures After(ops).Allocated(s) == Successes(ops, s)
  {
    if ops != [] {
      TotalsCountSuccesses(ops[..|ops| - 1], s);
    }
  }

  /** An address is live exactly while a successful allocation of it has not been freed. */
  lemma {:induction false} LiveIsHeld(ops: seq<HeapOp>, a: u64)
    ensures a in After(ops).live ==> exists i: nat :: Holds(ops, a, i)
    ensures forall i: nat :: Holds(ops, a, i) ==>
      a in After(ops).live && After(ops).live[a] == Block(ops[i].size, ops[i].stack)
  {
    if ops != [] {
      var n := |ops| - 1;
      var before := ops[..n];
      LiveIsHeld(before, a);
      if a in After(ops).live {
        if a in After(before).live {
          var i: nat :| Holds(before, a, i);
          assert ops[..i] == before[..i];
          assert Holds(ops, a, i);
        } else {
          assert Holds(ops, a, n);
        }
      }
      forall i: nat | Holds(ops, a, i)
        ensures a in After(ops).live && After(ops).live[a] == Block(ops[i].size, ops[i].stack)
      {
        if i < n {
          assert ops[..i] == before[..i];
          assert Holds(before, a, i);
        }
      }
    }
  }

  // ----- What a checkpoint counts -----

  // The i-th call allocated a block with this stack that is still held.
  ghost predicate Standing(ops: seq<HeapOp>, s: Stack, i: nat) {
    i < |ops| && ops[i].Malloc? && ops[i].stack == s && Holds(ops, ops[i].address, i)
  }

  // All of these are such calls, and none is named twice.
  ghost predicate Stands(ops: seq<HeapOp>, s: Stack, at: seq<nat>) {
    && (forall k, m :: 0 <= k < m < |at| ==> at[k] < at[m])
    && forall k :: 0 <= k < |at| ==> Standing(ops, s, at[k])
  }

  // Which of the first n calls are.
  ghost function StandingIn(ops: seq<HeapOp>, s: Stack, n: nat): (at: seq<nat>)
    requires n <= |ops|
    ensures Stands(ops, s, at)
    ensures forall i: nat :: i in at <==> i < n && Standing(ops, s, i)
  {
    if n == 0 then [] else StandingIn(ops, s, n - 1) + if Standing(ops, s, n - 1) then [n - 1] else []
  }

  ghost function Bytes(ops: seq<HeapOp>, s: Stack, at: seq<nat>): nat
    requires Stands(ops, s, at)
  {
    if at == [] then 0 else Bytes(ops, s, at[..|at| - 1]) + ops[at[|at| - 1]].size
  }

  // An address is held by one allocation.
  lemma HeldOnce(ops: seq<HeapOp>, a: u64, i: nat, j: nat)
    requires Holds(ops, a, i) && Holds(ops, a, j)
    ensures i == j
  {
    var first, last := if i < j then i else j, if i < j then j else i;
    if first < last {
      LiveIsHeld(ops[..last], a);
      assert ops[..last][..first] == ops[..first];
      assert Holds(ops[..last], a, first);
    }
  }

  // The blocks of these calls are those of the stack at the addresses.
  ghost predicate At(ops: seq<HeapOp>, s: Stack, at: seq<nat>, addresses: set<u64>)
    requires Stands(ops, s, at) && addresses <= After(ops).live.Keys
  {
    forall a :: a in addresses && After(ops).live[a].stack == s <==>
      exists k :: 0 <= k < |at| && ops[at[k]].address == a
  }

  lemma {:induction false} InuseOf(ops: seq<HeapOp>, s: Stack, at: seq<nat>, addresses: set<u64>)
    requires Stands(ops, s, at) && addresses <= After(ops).live.Keys && At(ops, s, at, addresses)
    ensures Inuse(After(ops).live, addresses, s, false) == |at|
    ensures Inuse(After(ops).live, addresses, s, true) == Bytes(ops, s, at)
    decreases |at|
  {
    var live := After(ops).live;
    hide Standing, After;
    if at == [] {
      NothingInuse(live, addresses, s, false);
      NothingInuse(live, addresses, s, true);
    } else {
      var n := |at| - 1;
      StandingLive(ops, s, at[n]);
      var a := ops[at[n]].address;
      OthersStand(ops, s, at, addresses);
      hide At;
      InuseSplit(live, addresses, a, s, false);
      InuseSplit(live, addresses, a, s, true);
      InuseOf(ops, s, at[..n], addresses - {a});
    }
  }

  lemma StandingLive(ops: seq<HeapOp>, s: Stack, i: nat)
    requires Standing(ops, s, i)
    ensures i < |ops| && ops[i].Malloc?
    ensures ops[i].address in After(ops).live && After(ops).live[ops[i].address] == Block(ops[i].size, s)
  {
    LiveIsHeld(ops, ops[i].address);
  }

  // Without the last of them, and without its address.
  lemma OthersStand(ops: seq<HeapOp>, s: Stack, at: seq<nat>, addresses: set<u64>)
    requires at != [] && Stands(ops, s, at) && addresses <= After(ops).live.Keys && At(ops, s, at, addresses)
    ensures Stands(ops, s, at[..|at| - 1]) && ops[at[|at| - 1]].address in addresses
    ensures At(ops, s, at[..|at| - 1], addresses - {ops[at[|at| - 1]].address})
  {
    hide After, Holds;
    var n := |at| - 1;
    var rest, last := at[..n], ops[at[n]].address;
    forall a ensures a in addresses - {last} && After(ops).live[a].stack == s <==>
                     exists k :: 0 <= k < n && ops[rest[k]].address == a {
      if k :| 0 <= k < n && ops[rest[k]].address == a {
        assert Standing(ops, s, at[k]) && Standing(ops, s, at[n]);
        if a == last {
          HeldOnce(ops, a, at[k], at[n]);
        }
        assert ops[at[k]].address == a;
      } else if a in addresses - {last} && After(ops).live[a].stack == s {
        var k :| 0 <= k < |at| && ops[at[k]].address == a;
        assert k < n && rest[k] == at[k];
      }
    }
  }

  /** A checkpoint after any calls: a stack is in it exactly if an allocation with it succeeded, with the count
      and the bytes of all that did, and with those of the allocations that are still held. */
  lemma CheckpointCounts(ops: seq<HeapOp>, s: Stack) returns (at: seq<nat>)
    ensures Stands(ops, s, at) && forall i: nat :: i in at <==> Standing(ops, s, i)
    ensures After(ops).Valid()
    ensures s in Checkpoint(After(ops)) <==> Successes(ops, s).objects > 0
    ensures s in Checkpoint(After(ops)) ==>
      var v := Checkpoint(After(ops))[s];
      && v.allocObjects == Successes(ops, s).objects && v.allocSpace == Successes(ops, s).bytes
      && v.inuseObjects == |at| && v.inuseSpace == Bytes(ops, s, at)
  {
    hide Inuse, Successes, Standing, Stands, Ledger.Valid;
    ReachableIsValid(ops);
    TotalsCountSuccesses(ops, s);
    ListedOnSuccess(ops, s);
    at := StandingIn(ops, s, |ops|);
    StandingInRange(ops, s);
    AllStand(ops, s, at);
    hide After;
    InuseOf(ops, s, at, After(ops).live.Keys);
  }

  lemma StandingInRange(ops: seq<HeapOp>, s: Stack)
    ensures forall i: nat :: Standing(ops, s, i) ==> i < |ops|
  {
  }

  lemma AllStand(ops: seq<HeapOp>, s: Stack, at: seq<nat>)
    requires Stands(ops, s, at) && forall i: nat :: i in at <==> Standing(ops, s, i)
    ensures At(ops, s, at, After(ops).live.Keys)
  {
    hide After, Standing;
    var live := After(ops).live;
    forall k | 0 <= k < |at|
      ensures at[k] < |ops| && ops[at[k]].Malloc?
      ensures ops[at[k]].address in live && live[ops[at[k]].address].stack == s
    {
      StandingLive(ops, s, at[k]);
    }
    forall a | a in live && live[a].stack == s ensures exists k :: 0 <= k < |at| && ops[at[k]].address == a {
      HeldWith(ops, s, a);
      var i: nat :| Standing(ops, s, i) && i < |ops| && ops[i].address == a;
      assert i in at;
      var k :| 0 <= k < |at| && at[k] == i;
      assert ops[at[k]].address == a;
    }
  }

  lemma HeldWith(ops: seq<HeapOp>, s: Stack, a: u64)
    ensures a in After(ops).live && After(ops).live[a].stack == s <==>
      exists i: nat :: Standing(ops, s, i) && i < |ops| && ops[i].address == a
  {
    LiveIsHeld(ops, a);
    if a in After(ops).live && After(ops).live[a].stack == s {
      var i: nat :| Holds(ops, a, i);
      assert Standing(ops, s, i);
    }
  }

  lemma {:induction false} ListedOnSuccess(ops: seq<HeapOp>, s: Stack)
    ensures s in After(ops).allocs <==> Successes(ops, s).objects > 0
  {
    if ops != [] {
      ListedOnSuccess(ops[..|ops| - 1], s);
    }
  }

  // ----- The tracker -----

  // The ids and the table are each other's inverse, and every live block has an id.
  ghost predicate Interned(stackIds: map<Stack, nat>, stacks: seq<(Stack, HeapValues)>, live: map<u64, (u64, nat)>) {
    && (forall s :: s in stackIds ==> stackIds[s] < |stacks| && stacks[stackIds[s]].0 == s)
    && (forall i :: 0 <= i < |stacks| ==>
          && stacks[i].0 in stackIds && stackIds[stacks[i].0] == i
          && stacks[i].1.inuseObjects == 0 && stacks[i].1.inuseSpace == 0)
    && (forall a :: a in live ==> live[a].1 < |stacks|)
  }

  // The ledger that interned tables stand for.
  ghost function Interpret(stackIds: map<Stack, nat>, stacks: seq<(Stack, HeapValues)>,
                           live: map<u64, (u64, nat)>): Ledger
    requires Interned(stackIds, stacks, live)
  {
    Ledger(
      map s | s in stackIds :: Totals(stacks[stackIds[s]].1.allocObjects, stacks[stackIds[s]].1.allocSpace),
      map a | a in live :: Block(live[a].0, stacks[live[a].1].0))
  }

  // What interning has recorded for a stack.
  function Recorded(stackIds: map<Stack, nat>, stacks: seq<(Stack, HeapValues)>, stack: Stack): HeapValues
    requires stack in stackIds ==> stackIds[stack] < |stacks|
  {
    if stack in stackIds then stacks[stackIds[stack]].1 else NO_VALUES
  }

  // The tables after one more allocation of `stack`, whose values are now `sum`.
  function Tables(stackIds: map<Stack, nat>, stacks: seq<(Stack, HeapValues)>, stack: Stack, sum: HeapValues)
      : (map<Stack, nat>, seq<(Stack, HeapValues)>, nat)
    requires stack in stackIds ==> stackIds[stack] < |stacks|
  {
    if stack in stackIds then (stackIds, stacks[stackIds[stack] := (stack, sum)], stackIds[stack])
    else (stackIds[stack := |stacks|], stacks + [(stack, sum)], |stacks|)
  }

  // `after` is `before` with one more live block, and `sum` recorded for its stack.
  ghost predicate AddsBlock(before: Ledger, after: Ledger, address: u64, size: u64, stack: Stack, sum: HeapValues) {
    && after.allocs == before.allocs[stack := Totals(sum.allocObjects, sum.allocSpace)]
    && after.live == before.live[address := Block(size, stack)]
  }

  lemma KnownStackInterned(stackIds: map<Stack, nat>, stacks: seq<(Stack, HeapValues)>, live: map<u64, (u64, nat)>,
                           address: u64, size: u64, stack: Stack, sum: HeapValues)
    requires Interned(stackIds, stacks, live) && sum.inuseObjects == 0 && sum.inuseSpace == 0
    requires stack in stackIds
    ensures Interned(stackIds, stacks[stackIds[stack] := (stack, sum)], live[address := (size, stackIds[stack])])
  {
  }

  lemma KnownStack(stackIds: map<Stack, nat>, stacks: seq<(Stack, HeapValues)>, live: map<u64, (u64, nat)>,
                   stacks': seq<(Stack, HeapValues)>, live': map<u64, (u64, nat)>,
                   address: u64, size: u64, stack: Stack, sum: HeapValues)
    requires Interned(stackIds, stacks, live) && sum.inuseObjects == 0 && sum.inuseSpace == 0
    requires stack in stackIds
    requires stacks' == stacks[stackIds[stack] := (stack, sum)]
    requires live' == live[address := (size, stackIds[stack])]
    ensures Interned(stackIds, stacks', live')
    ensures AddsBlock(Interpret(stackIds, stacks, live), Interpret(stackIds, stacks', live'), address, size, stack, sum)
  {
    KnownStackInterned(stackIds, stacks, live, address, size, stack, sum);
    var l, l' := Interpret(stackIds, stacks, live), Interpret(stackIds, stacks', live');
    assert l'.allocs == l.allocs[stack := Totals(sum.allocObjects, sum.allocSpace)];
    assert l'.live == l.live[address := Block(size, stack)];
  }

  lemma NewStackInterned(stackIds: map<Stack, nat>, stacks: seq<(Stack, HeapValues)>, live: map<u64, (u64, nat)>,
                         address: u64, size: u64, stack: Stack, sum: HeapValues)
    requires Interned(stackIds, stacks, live) && sum.inuseObjects == 0 && sum.inuseSpace == 0
    requires stack !in stackIds
    ensures Interned(stackIds[stack := |stacks|], stacks + [(stack, sum)], live[address := (size, |stacks|)])
  {
    var ids', stacks' := stackIds[stack := |stacks|], stacks + [(stack, sum)];
    forall s | s in ids' ensures ids'[s] < |stacks'| && stacks'[ids'[s]].0 == s {
      if s != stack {
        assert stacks'[ids'[s]] == stacks[stackIds[s]];
      }
    }
    forall i | 0 <= i < |stacks'| ensures stacks'[i].0 in ids' && ids'[stacks'[i].0] == i {
      if i < |stacks| {
        assert stacks'[i] == stacks[i];
      }
    }
  }

  lemma NewStackAdds(stackIds: map<Stack, nat>, stacks: seq<(Stack, HeapValues)>, live: map<u64, (u64, nat)>,
                     ids': map<Stack, nat>, stacks': seq<(Stack, HeapValues)>, live': map<u64, (u64, nat)>,
                     address: u64, size: u64, stack: Stack, sum: HeapValues)
    requires Interned(stackIds, stacks, live) && Interned(ids', stacks', live')
    requires ids' == stackIds[stack := |stacks|] && stacks' == stacks + [(stack, sum)]
    requires live' == live[address := (size, |stacks|)]
    ensures AddsBlock(Interpret(stackIds, stacks, live), Interpret(ids', stacks', live'), address, size, stack, sum)
  {
  }

  lemma AllocateInterned(stackIds: map<Stack, nat>, stacks: seq<(Stack, HeapValues)>, live: map<u64, (u64, nat)>,
                         address: u64, size: u64, stack: Stack)
    requires Interned(stackIds, stacks, live)
    requires address != 0 && stack != [] && address !in live
    ensures var sum := Recorded(stackIds, stacks, stack).CheckedAdd(HeapValues(1, size, 0, 0));
      match Interpret(stackIds, stacks, live).Allocate(address, size, stack)
      case Err(e) => sum == Err(e)
      case Ok(l) =>
        && sum.Ok?
        && var (ids', stacks', id) := Tables(stackIds, stacks, stack, sum.value);
        && Interned(ids', stacks', live[address := (size, id)])
        && Interpret(ids', stacks', live[address := (size, id)]) == l
  {
    hide Interned, Interpret, AddsBlock;
    InterpretFinds(stackIds, stacks, live, stack);
    var previous := Recorded(stackIds, stacks, stack);
    var sum := previous.CheckedAdd(HeapValues(1, size, 0, 0));
    if sum.Ok? {
      var (ids', stacks', id) := Tables(stackIds, stacks, stack, sum.value);
      var live' := live[address := (size, id)];
      if stack in stackIds {
        KnownStack(stackIds, stacks, live, stacks', live', address, size, stack, sum.value);
      } else {
        NewStackInterned(stackIds, stacks, live, address, size, stack, sum.value);
        NewStackAdds(stackIds, stacks, live, ids', stacks', live', address, size, stack, sum.value);
      }
      BlockAdded(Interpret(stackIds, stacks, live), Interpret(ids', stacks', live'), address, size, stack, sum.value);
    }
  }

  lemma TableInterpreted(stackIds: map<Stack, nat>, stacks: seq<(Stack, HeapValues)>, live: map<u64, (u64, nat)>)
    requires Interned(stackIds, stacks, live)
    ensures var l := Interpret(stackIds, stacks, live);
      && l.live.Keys == live.Keys
      && (forall a :: a in live ==> live[a].1 < |stacks| && l.live[a] == Block(live[a].0, stacks[live[a].1].0))
      && (forall i :: 0 <= i < |stacks| ==>
            && stacks[i].0 in l.allocs && stacks[i].1.inuseObjects == 0 && stacks[i].1.inuseSpace == 0
            && l.Allocated(stacks[i].0) == Totals(stacks[i].1.allocObjects, stacks[i].1.allocSpace))
      && (forall i, j :: 0 <= i < |stacks| && 0 <= j < |stacks| && stacks[i].0 == stacks[j].0 ==> i == j)
  {
  }

  lemma InterpretFinds(stackIds: map<Stack, nat>, stacks: seq<(Stack, HeapValues)>, live: map<u64, (u64, nat)>,
                       stack: Stack)
    requires Interned(stackIds, stacks, live)
    ensures stack in stackIds ==> stackIds[stack] < |stacks|
    ensures var previous := Recorded(stackIds, stacks, stack);
      && previous.inuseObjects == 0 && previous.inuseSpace == 0
      && Interpret(stackIds, stacks, live).Allocated(stack) == Totals(previous.allocObjects, previous.allocSpace)
    ensures Interpret(stackIds, stacks, live).live.Keys == live.Keys
  {
  }

  lemma BlockAdded(before: Ledger, after: Ledger, address: u64, size: u64, stack: Stack, sum: HeapValues)
    requires AddsBlock(before, after, address, size, stack, sum)
    requires address != 0 && stack != [] && address !in before.live
    requires sum.allocObjects == before.Allocated(stack).objects + 1 <= I64_MAX
    requires sum.allocSpace == before.Allocated(stack).bytes + size <= I64_MAX
    ensures before.Allocate(address, size, stack) == Ok(after)
  {
  }

  /** The totals of each interned stack, and the live blocks with their stack's id. */
  class NativeHeapTracker {
    var stackIds: map<Stack, nat>
    var stacks: seq<(Stack, HeapValues)>
    var live: map<u64, (u64, nat)>

    ghost predicate Valid()
      reads this
    {
      Interned(stackIds, stacks, live) && Interpret(stackIds, stacks, live).Valid()
    }

    ghost function Account(): Ledger
      reads this
      requires Valid()
    {
      Interpret(stackIds, stacks, live)
    }

    constructor ()
      ensures Valid() && Account() == EMPTY_LEDGER
    {
      stackIds := map[];
      stacks := [];
      live := map[];
    }

    /** A failing allocation changes nothing. */
    method Allocate(address: u64, size: u64, stack: Stack) returns (r: Result<(), HeapError>)
      requires Valid()
      modifies this
      ensures Valid()
      ensures match old(Account()).Allocate(address, size, stack)
              case Ok(l) => r.Ok? && Account() == l
              case Err(e) => r == Err(e) && Account() == old(Account())
    {
      if address == 0 {
        return Err(NullAllocation);
      }
      if stack == [] {
        return Err(EmptyStack);
      }
      if address in live {
        return Err(DuplicateLive);
      }
      AllocateInterned(stackIds, stacks, live, address, size, stack);
      var previous := if stack in stackIds then stacks[stackIds[stack]].1 else NO_VALUES;
      var sum := previous.CheckedAdd(HeapValues(1, size, 0, 0));
      if sum.Err? {
        return Err(sum.error);
      }
      AllocateKeepsValid(Account(), address, size, stack);
      if stack in stackIds {
        var id := stackIds[stack];
        stacks := stacks[id := (stack, sum.value)];
        live := live[address := (size, id)];
      } else {
        var id := |stacks|;
        stackIds := stackIds[stack := id];
        stacks := stacks + [(stack, sum.value)];
        live := live[address := (size, id)];
      }
      r := Ok(());
    }

    /** A failing release changes nothing. */
    method Release(address: u64) returns (r: Result<(), HeapError>)
      requires Valid()
      modifies this
      ensures Valid()
      ensures match old(Account()).Release(address)
              case Ok(l) => r.Ok? && Account() == l
              case Err(e) => r == Err(e) && Account() == old(Account())
    {
      ghost var l := Account();
      if address == 0 {
        return Ok(());
      }
      if address !in live {
        return Err(UnknownFree);
      }
      ReleaseKeepsValid(l, address);
      live := live - {address};
      assert Interpret(stackIds, stacks, live) == l.Release(address).value;
      r := Ok(());
    }

    // The values per stack id, live blocks included: no sum can leave int64.
    method CountLive() returns (values: seq<HeapValues>)
      requires Valid()
      ensures |values| == |stacks|
      ensures forall i :: 0 <= i < |values| ==> Counted(Account(), Account().live.Keys, stacks[i].0, values[i])
    {
      hide Inuse, AllCounted, Counted, Interned, Interpret;
      ghost var l := Account();
      var table, blocks := stacks, live;
      values := seq(|table|, i requires 0 <= i < |table| => table[i].1);
      TableInterpreted(stackIds, stacks, live);
      NothingCounted(l, table, values);
      var todo := blocks.Keys;
      ghost var done: set<u64> := {};
      while todo != {}
        invariant done !! todo && done + todo == l.live.Keys
        invariant AllCounted(l, done, table, values) && |values| == |table|
      {
        var a :| a in todo;
        var (size, id) := blocks[a];
        CountStep(l, done, a, table, values, id);
        var sum := values[id].CheckedAdd(HeapValues(0, 0, 1, size));
        assert sum.Ok?;
        values := values[id := sum.value];
        done := done + {a};
        todo := todo - {a};
      }
      assert done == l.live.Keys;
      AllAreCounted(l, table, values);
    }

    /** Never fails. */
    method Snapshot() returns (r: Result<HeapProfile, HeapError>)
      requires Valid()
      ensures r.Ok? && fresh(r.value) && r.value.samples == Checkpoint(Account())
    {
      hide Inuse, Counted, Interned, Interpret;
      ghost var l := Account();
      ghost var ids := stackIds;
      var table := stacks;
      TableListed(stackIds, stacks, live);
      var values := CountLive();
      var profile := new HeapProfile();
      for i := 0 to |table|
        invariant fresh(profile) && Reported(l, table, profile.samples, i)
      {
        CountedInRange(l, table[i].0, values[i]);
        NotReported(l, table, profile.samples, i);
        var added := profile.AddSample(table[i].0, values[i]);
      }
      AllReported(l, ids, table, profile.samples);
      SamplesAreCheckpoint(l, profile.samples);
      r := Ok(profile);
    }
  }

  // `values` reports `stack` with the blocks at `addresses` in use.
  ghost predicate Counted(l: Ledger, addresses: set<u64>, stack: Stack, values: HeapValues)
    requires addresses <= l.live.Keys
  {
    && values.allocObjects == l.Allocated(stack).objects
    && values.allocSpace == l.Allocated(stack).bytes
    && values.inuseObjects == Inuse(l.live, addresses, stack, false)
    && values.inuseSpace == Inuse(l.live, addresses, stack, true)
  }

  ghost predicate AllCounted(l: Ledger, addresses: set<u64>, table: seq<(Stack, HeapValues)>, values: seq<HeapValues>)
    requires addresses <= l.live.Keys
  {
    |values| == |table| && forall i :: 0 <= i < |table| ==> Counted(l, addresses, table[i].0, values[i])
  }

  lemma NothingCounted(l: Ledger, table: seq<(Stack, HeapValues)>, values: seq<HeapValues>)
    requires |values| == |table| && forall i :: 0 <= i < |table| ==> values[i] == table[i].1
    requires forall i :: 0 <= i < |table| ==>
      l.Allocated(table[i].0) == Totals(table[i].1.allocObjects, table[i].1.allocSpace)
      && table[i].1.inuseObjects == 0 && table[i].1.inuseSpace == 0
    ensures AllCounted(l, {}, table, values)
  {
  }

  lemma AllAreCounted(l: Ledger, table: seq<(Stack, HeapValues)>, values: seq<HeapValues>)
    requires AllCounted(l, l.live.Keys, table, values)
    ensures |values| == |table| && forall i :: 0 <= i < |table| ==> Counted(l, l.live.Keys, table[i].0, values[i])
  {
    hide Counted;
  }

  // The stacks up to the i-th have been counted.
  ghost predicate Reported(l: Ledger, table: seq<(Stack, HeapValues)>, samples: map<Stack, HeapValues>, i: nat) {
    && (forall s :: s in samples ==> s in l.allocs && Counted(l, l.live.Keys, s, samples[s]))
    && (forall j :: 0 <= j < |table| ==> (table[j].0 in samples <==> j < i))
  }

  // The ledger's stacks are those of the table, each once.
  ghost predicate Listed(l: Ledger, stackIds: map<Stack, nat>, table: seq<(Stack, HeapValues)>) {
    && (forall s :: s in l.allocs ==> s in stackIds && stackIds[s] < |table| && table[stackIds[s]].0 == s)
    && (forall i :: 0 <= i < |table| ==> table[i].0 in l.allocs && table[i].0 in stackIds && stackIds[table[i].0] == i)
  }

  lemma TableListed(stackIds: map<Stack, nat>, stacks: seq<(Stack, HeapValues)>, live: map<u64, (u64, nat)>)
    requires Interned(stackIds, stacks, live)
    ensures Listed(Interpret(stackIds, stacks, live), stackIds, stacks)
    ensures Reported(Interpret(stackIds, stacks, live), stacks, map[], 0)
  {
  }

  lemma CountedInRange(l: Ledger, stack: Stack, values: HeapValues)
    requires l.Valid() && stack in l.allocs && Counted(l, l.live.Keys, stack, values)
    ensures stack != [] && NO_VALUES.CheckedAdd(values) == Ok(values)
  {
  }

  lemma NotReported(l: Ledger, table: seq<(Stack, HeapValues)>, samples: map<Stack, HeapValues>, i: nat)
    requires Reported(l, table, samples, i) && i < |table|
    ensures table[i].0 !in samples
  {
  }

  lemma AllReported(l: Ledger, stackIds: map<Stack, nat>, table: seq<(Stack, HeapValues)>,
                    samples: map<Stack, HeapValues>)
    requires Listed(l, stackIds, table) && Reported(l, table, samples, |table|)
    ensures samples.Keys == l.allocs.Keys
  {
    hide Counted;
    forall s | s in l.allocs ensures s in samples {
      assert table[stackIds[s]].0 in samples;
    }
  }

  lemma SamplesAreCheckpoint(l: Ledger, samples: map<Stack, HeapValues>)
    requires l.Valid() && samples.Keys == l.allocs.Keys
    requires forall s :: s in samples ==> Counted(l, l.live.Keys, s, samples[s])
    ensures samples == Checkpoint(l)
  {
  }

  lemma CountOne(l: Ledger, done: set<u64>, a: u64, stack: Stack, bytes: bool)
    requires l.Valid() && stack in l.allocs
    requires done <= l.live.Keys && a in l.live && a !in done
    ensures Inuse(l.live, done + {a}, stack, bytes)
      == Inuse(l.live, done, stack, bytes) + Weight(l.live[a], stack, bytes)
    ensures Inuse(l.live, done + {a}, stack, bytes) <= I64_MAX
  {
    InuseSplit(l.live, done + {a}, a, stack, bytes);
    assert done + {a} - {a} == done;
    InuseMonotone(l.live, done + {a}, l.live.Keys, stack, bytes);
  }

  // One more block: there is room for it, and the values count it.
  lemma CountStep(l: Ledger, done: set<u64>, a: u64, table: seq<(Stack, HeapValues)>, values: seq<HeapValues>, id: nat)
    requires l.Valid() && done <= l.live.Keys && a in l.live && a !in done
    requires AllCounted(l, done, table, values)
    requires id < |table| && l.live[a].stack == table[id].0
    requires forall i :: 0 <= i < |table| ==> table[i].0 in l.allocs && (table[i].0 == table[id].0 ==> i == id)
    ensures var sum := values[id].CheckedAdd(HeapValues(0, 0, 1, l.live[a].size));
      sum.Ok? && AllCounted(l, done + {a}, table, values[id := sum.value])
  {
    var stack := table[id].0;
    assert Counted(l, done, stack, values[id]);
    CountOne(l, done, a, stack, false);
    CountOne(l, done, a, stack, true);
    var sum := values[id].CheckedAdd(HeapValues(0, 0, 1, l.live[a].size));
    forall i | 0 <= i < |table| ensures Counted(l, done + {a}, table[i].0, values[id := sum.value][i]) {
      assert Counted(l, done, table[i].0, values[i]);
      CountOne(l, done, a, table[i].0, false);
      CountOne(l, done, a, table[i].0, true);
    }
  }

  /** One heap checkpoint. */
  class HeapProfile {
    var samples: map<Stack, HeapValues>

    constructor ()
      ensures samples == map[]
    {
      samples := map[];
    }

    /** Adds to what the stack already has, or fails without a change. */
    method AddSample(stack: Stack, values: HeapValues) returns (r: Result<(), HeapError>)
      modifies this
      ensures stack == [] ==> r == Err(EmptyStack)
      ensures stack != [] ==>
        match (if stack in old(samples) then old(samples)[stack] else NO_VALUES).CheckedAdd(values)
        case Ok(sum) => r.Ok? && samples == old(samples)[stack := sum]
        case Err(e) => r == Err(e)
      ensures r.Err? ==> samples == old(samples)
    {
      if stack == [] {
        return Err(EmptyStack);
      }
      var previous := if stack in samples then samples[stack] else NO_VALUES;
      var sum := previous.CheckedAdd(values);
      if sum.Err? {
        return Err(sum.error);
      }
      samples := samples[stack := sum.value];
      r := Ok(());
    }
  }
}
