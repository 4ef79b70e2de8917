# Verified model of the profiler

This project models the parts of the profiler in which most can go wrong, and proves what they promise: the
heap recorder and its replay, the signed difference of heap profiles, the pprof codec, the live session
between the profiler and the app, and the places where costs are attributed and call trees are built.
`dafny verify dfyconfig.toml` checks everything.

Code that works step by step is a method or a class with the source's fields, proved against a function or
a predicate that says what it is for; concurrent parties are state machines whose every step is proved to
keep an invariant. All results hold for all inputs, all runs or all reachable states.

## The modules

* **Heap recording and replay.** `Recorder` is `recorder.c` as steps of threads over one mutex, a recursion
  guard, any allocator and a growing log. In every interleaving each prefix of the log replays, and whenever
  the mutex is free the replayed live blocks are the recorded blocks that the allocator still holds.
  `AllocationLog` has the file format and the incremental reader; `HeapModel` the accounting that the reader
  feeds, as a ledger and as the tracker with interned stacks; `HeapExport` the pprof export.
* **Heap difference.** `HeapValidation` says which heap profiles are accepted, `SampleKeys` what identifies a
  sample, `KeyedSums` how values are added with checks, `TableMerge` how tables move into another id space,
  and `HeapDiff` puts these together: for every key and metric the result is current minus base.
* **pprof codec.** `Wire` is the Protocol Buffers wire format (sections "Base 128 Varints" and "Packed
  Repeated Fields" of the Protocol Buffers Encoding guide) as writers, readers and a decoder loop; `Pprof`
  the messages; `PprofCodec` the codec and its laws; `PprofWire` says byte by byte what is written.
* **Live session.** `SessionStream` has frame headers and the frame parser; `LiveSession` the whole protocol
  as one state machine, from the sampler's counts through the cursor, breaking connections and the app's
  sequence filter to what the app shows; `LiveAccumulator` the app's merge of profiles, `LiveCounts` what
  it says of a thread and a stack, and `LiveRender` how a delta becomes a profile and what the app reads of
  its bytes; `LiveBuild` and `LiveMeaning` say entry by entry what that profile and a merged one hold.
  `LivePublisher` and `LiveReceiver` are the two programs, on real bytes and real profiles; they
  are proved to take the machine's steps, and the app's accumulator to count what the machine counts.
  `LiveRun` puts sampler, publisher, connections and app together: every sequence of their calls is a run of
  the machine.
* **Costs and call trees.** `ProfileReport` attributes costs to frames and stacks; `CallTree` builds trees
  from stacks, with saturating sums for the report and plain ones for the flame graph; `TreeViews` renders
  a tree under a limit and flattens it breadth first; `FlameGraph` is the whole conversion for the app;
  `LazyTree` the tree that is never built.
* **perf ring.** `PerfRing` is the kernel's ring of bytes, the reader of it, and the parser of sample records.

`Prelude` and `Words` hold integer widths and words as bytes.

## Conditions

Some laws hold only under a condition; the condition is then stated exactly, or a counterexample shown.

* Encoding and decoding a profile is not the identity: submessages that encode to no bytes, and zero comments,
  are dropped from the leaves up. `PprofCodec.RoundTripIsIdentity` says exactly when nothing changes.
* Re-keying replayed stacks lets two of them meet exactly if the symbolizer resolves address zero and the log
  has both an allocation with a lone zero PC and one without a backtrace; the profile then lacks one stack
  (`AllocationLog.StacksMeetExactly`, `AllocationLog.NothingLost`; a log of two events that does it is in
  `AllocationLog.StacksCanMeet`).
* A log of recorded blocks replays exactly if the objects and bytes of each stack fit an int64
  (`Recorder.ReplaysExactly`).
* A frame without a symbol meets another without one in the same place of the same file; it also meets a
  function that is really called `[unknown]`, if its place in the file is zero (`SampleKeys.KeysMeet`).
* A difference fails for lack of range exactly when a running total leaves int64 (`HeapDiff.OverflowExactly`);
  the final difference may still fit.
* A bad frame header fails the whole call of the parser, and with it the good frames of the same call. The
  frames handled do not depend on how a stream is cut exactly if no header is bad or no frame stands before
  the bad one (`SessionStream.ChunkInvariance`, `SessionStream.BadHeaderLosesItsCall`).
* The saturating call tree holds the plain sums after every stack exactly if every running sum of a path is an
  int64 (`CallTree.SaturatesExactly`), without negative values exactly if all together are one
  (`CallTree.NonNegativeFitsExactly`). Beyond that a node need not be its own cost plus its children's
  (`CallTree.SaturationUnbalances`). The report's total is exact exactly if the absolute values together are an
  int64 (`ProfileReport.ExactlyWhenFits`), a frame's costs exactly if its own running sums are
  (`ProfileReport.FrameExactlyWhenFits`).
* The flame graph's index inverts its list exactly if any two call paths of the selected samples with the same
  id are equal (`FlameGraph.IndexInvertsExactly`). They are when no name has a slash
  (`FlameGraph.PlainNamesInvert`); with one they need not be (`FlameGraph.SlashedProfileCollides`).
* After a restart of the app a hello brings back what was shown exactly if the session was not stored before its
  first hello and no final profile was stored, or nothing was shown (`LiveSession.JournalRebuilds`). A session
  that the app launches itself is stored before its first hello, without a path to its journal, and never gets
  one: its frames are journaled and not read back (`LiveSession.LaunchedForgets`).
* A live delta loses what has no stack, and counts above an int64 (`LiveRender.Symbolicate`); the sampler's own
  deltas lose no count of a stack that is not empty (`LiveRender.Render`, `LivePublisher.DeltaSendable`).
* The report and the flame graph do not build the same paths: the report reverses the lines of a location,
  the conversion does not. Each is modelled as its code has it.

## Model

| member | source | states |
|---|---|---|
| `Recorder.StepKeepsInv` | src/heap/recorder.c:67-112 | every step of every thread keeps the invariant: the mutex has one holder, no two calls in flight own a block, and the log replays to the recorded blocks, adjusted for what the holder is in the middle of |
| `Recorder.RunKeepsInv` | src/heap/recorder.c:184-264 | so does every run; the log only grows, and not at all once closed |
| `Recorder.EveryPrefixReplays` | src/heap/recorder.c:184-264 | in every interleaving every prefix of the log replays without a duplicate live address, exactly if the totals of its stacks fit an int64 |
| `Recorder.ReplayIsTheHeap` | src/heap/recorder.c:184-264 | with the mutex free, the log replays exactly if its stacks' totals fit, and then to the allocator's recorded live blocks with their sizes, and for each the addresses that its thread's backtrace had when it recorded the block, leaf first; failed and size-zero `realloc` included |
| `Recorder.ClosedLogIsFinal` | src/heap/recorder.c:171-183 | from the start, through any run, a close and any run after it: the log is that of the moment it was closed, and replays to the blocks recorded then, each with its backtrace |
| `Recorder.ReaderFindsTheHeap` | src/heap/linux.rs:143-205 | a reader of the file's bytes, a torn record at the end or not, succeeds exactly if the status is good and the totals fit, and finds the recorded live blocks, each with its backtrace |
| `Recorder.ReplayAgrees` | src/heap/linux.rs:167-205 | on a well-formed log the reader can only fail because a stack's totals leave int64, and otherwise its live blocks are those of the log's history |
| `Recorder.ReplaysExactly` | src/heap/mod.rs:226-254 | the exact condition: the replay succeeds if and only if no stack's recorded objects or bytes exceed an int64, and its totals are those of the log |
| `Recorder.LiveAppend` | src/heap/recorder.c:67-84 | one more record changes the log's live blocks by exactly that record |
| `Recorder.StepOrigin` | src/heap/recorder.c:67-84 | a step that records a block puts an event with the block's address, its usable size and the thread's PCs in order at the end of the log, and the block keeps exactly these PCs until it goes |
| `Recorder.OriginsAreRecorded` | src/heap/recorder.c:76-81 | in every run the PCs of a live block are those that some recording step had |
| `Recorder.LiveBlocksHaveTraces` | src/heap/recorder.c:76-81 | so a replay gives every live block a stack whose i-th frame is the i-th PC of a recording step of the run |
| `AllocationLog.LogReadsBack` | src/heap/linux.rs:161-175 | of a header, appended events and a torn record, the reader sees exactly the events; records are 552 bytes from offset 32 |
| `AllocationLog.EventReadsBack` | src/heap/linux.rs:168-189 | each word of an event, its 64 frames included, is read from where the recorder put it |
| `AllocationLog.EventsAgree` | src/heap/linux.rs:160-175 | the events read depend on nothing behind them, nor on the header |
| `AllocationLog.ReplayPrefix` | src/heap/linux.rs:167-205 | a replay that failed once never recovers |
| `AllocationLog.LogReader.constructor` | src/heap/linux.rs:117-142 | a fresh reader stands behind the header with an empty tracker |
| `AllocationLog.OpenLog` | src/heap/linux.rs:117-142 | opened exactly if the header is there, magic and version are known, the process is the right one and the file private; otherwise the first of these that fails |
| `AllocationLog.RecorderLogOpens` | src/heap/recorder.c:148-148 | a log that the recorder has started is opened for its own process and no other |
| `AllocationLog.LogReader.ReadEvent` | src/heap/linux.rs:167-205 | one record: release, then allocate, then refuse an unknown kind; the stack is the event's PCs in their order, or the one frame without an address |
| `AllocationLog.LogReader.ReadEvents` | src/heap/linux.rs:161-205 | however far earlier calls had come, afterwards the tracker is one replay of all complete records |
| `AllocationLog.LogReader.Snapshot` | src/heap/linux.rs:143-250 | status and torn-record checks as in the source; otherwise the tracker is one replay of all complete records, the offset is 32 plus 552 per record, and the profile is its re-keyed checkpoint. Word by word: every allocating record k of depth n > 0 has a stack of n frames in it, the i-th at the address in bytes 32 + 552k + 40 + 8i, and no stack is of no record; and the live blocks are those of the records that still hold their address, with the size in byte 24 |
| `AllocationLog.BacktraceFrames` | src/heap/linux.rs:184-202 | a stack is that of some PCs exactly if its i-th frame is the bare i-th PC, or there is no PC and it is the one frame that says so |
| `AllocationLog.LiveRecords` | src/heap/linux.rs:170-203 | after a replay an address is live exactly if an allocating record with it in byte 8 is followed by none that releases it, with that record's size and PCs |
| `AllocationLog.SnapshotStacks` | src/heap/linux.rs:184-243 | the re-keyed stacks are those of the allocating records' words: each record has its stack, each stack a record |
| `AllocationLog.InitialFreesCount` | src/heap/linux.rs:176-183 | the counter of initial frees is the number of releases of an address that no earlier record holds |
| `AllocationLog.RekeySamples` | src/heap/linux.rs:220-243 | every re-keyed stack arrives, with the values of a stack that it came from |
| `AllocationLog.RekeyedStacksMeet` | src/heap/linux.rs:220-243 | two stacks of a log become one exactly if they are equal, or both a single frame at zero that is resolved |
| `AllocationLog.ReplayedStacks` | src/heap/linux.rs:184-202 | the stacks of a replay are exactly those of the allocations in the log |
| `AllocationLog.StacksMeetExactly` | src/heap/linux.rs:220-243 | two stacks of a replay meet if and only if address zero is resolved and the log has both a lone zero PC and a record without a backtrace |
| `AllocationLog.NothingLost` | src/heap/linux.rs:220-243 | re-keying keeps every stack with its values; exactly if the log collides it lacks one stack, one of the two that meet, and all others keep theirs |
| `AllocationLog.StacksCanMeet` | src/heap/linux.rs:194-243 | a log of two allocations whose re-keyed checkpoint has lost a stack and its bytes |
| `AllocationLog.ReplayIsValid` | src/heap/linux.rs:167-205 | a replayed ledger has no stack with more in use than allocated |
| `HeapModel.AllocateKeepsValid` | src/heap/mod.rs:226-254 | in use stays at most allocated, and that at most int64's maximum |
| `HeapModel.ReleaseKeepsValid` | src/heap/mod.rs:255-263 | so does a release |
| `HeapModel.ReachableIsValid` | src/heap/mod.rs:226-263 | hence in every reachable state |
| `HeapModel.TotalsCountSuccesses` | src/heap/mod.rs:226-254 | per stack the totals count and size exactly the successful allocations |
| `HeapModel.LiveIsHeld` | src/heap/mod.rs:226-263 | an address is live exactly while a successful allocation of it has not been freed, with that allocation's size and stack |
| `HeapModel.InuseSplit` | src/heap/mod.rs:264-272 | what is in use does not depend on the order in which the live map is walked |
| `HeapModel.NativeHeapTracker.constructor` | src/heap/mod.rs:218-225 | starts empty |
| `HeapModel.NativeHeapTracker.Allocate` | src/heap/mod.rs:226-254 | the interned tables follow the ledger; a failure names its cause and changes nothing |
| `HeapModel.NativeHeapTracker.Release` | src/heap/mod.rs:255-263 | likewise; null is allowed, an unknown address refused |
| `HeapModel.NativeHeapTracker.CountLive` | src/heap/mod.rs:264-272 | adding up the live blocks cannot leave int64 and gives each stack what is in use |
| `HeapModel.NativeHeapTracker.Snapshot` | src/heap/mod.rs:264-278 | never fails, and reports all successful and all live allocations per stack |
| `HeapModel.CheckpointCounts` | src/heap/mod.rs:226-278 | after any calls a stack is in the checkpoint exactly if an allocation with it succeeded, with the number and bytes of those that did, and the number and bytes of those that are still held |
| `HeapModel.HeapProfile.AddSample` | src/heap/mod.rs:86-94 | adds to what the stack has, or fails without a change |
| `HeapExport.InternInto` | src/pprof.rs:125-133 | an interned string is found at its index, and everything else stays where it was |
| `HeapExport.Header` | src/heap/mod.rs:95-122 | the four metrics by name, default, time, domain label and comment |
| `HeapExport.FrameFlags` | src/heap/mod.rs:128-135 | an image's flags say what any of its frames has |
| `HeapExport.ImageFlags` | src/heap/mod.rs:127-135 | over all frames of all stacks |
| `HeapExport.AddMapping` | src/heap/mod.rs:138-151 | the next id resolves to the image |
| `HeapExport.AddImages` | src/heap/mod.rs:136-152 | every image once, under an id that resolves back to it |
| `HeapExport.AddFrame` | src/heap/mod.rs:156-189 | a frame's location resolves back to it, nameless frames under their address |
| `HeapExport.FrameId` | src/heap/mod.rs:156-189 | a frame that was met before keeps its location |
| `HeapExport.AddStack` | src/heap/mod.rs:153-191 | the location ids resolve back to the stack |
| `HeapExport.AddSamples` | src/heap/mod.rs:153-197 | every stack once, with its four values and the label |
| `HeapExport.ToPprof` | src/heap/mod.rs:95-206 | fails exactly for an empty domain or an unusable time; otherwise an export of all stacks, images and values, each column under its own name |
| `HeapExport.ExportAccepted` | src/heap/mod.rs:288-394 | an export passes `validate_profile` |
| `HeapExport.ExportDecodesBack` | src/pprof.rs:476-591 | decoding an encoded export gives exactly the export |
| `HeapExport.ExportConserves` | src/heap/mod.rs:98-204 | by name: the column called `alloc_objects`, `alloc_space`, `inuse_objects` or `inuse_space` adds up to what the stacks of the heap profile have of that |
| `HeapExport.ExportColumns` | src/heap/mod.rs:98-196 | each of the four names has one column, and there is no other; in it every sample has its own stack's number of that name |
| `HeapExport.ExportFrames` | src/heap/mod.rs:153-191 | the i-th location of a sample is the i-th frame of its stack: address, name or hexadecimal address, file, line and image; each stack once |
| `HeapExport.ExportImages` | src/heap/mod.rs:127-152 | the images are those of the frames, each once, numbered from 1, with range, offset, file and build id; a flag says exactly that some frame in the image has a name, a file or a line |
| `HeapExport.ExportHeader` | src/heap/mod.rs:97-122 | names and units as written out, `inuse_space` as the default, time and comment, and the label `heap` with the domain on every sample; without stacks one sample of four zeros |
| `HeapExport.HexNameReads` | src/heap/mod.rs:158-162 | the name of a nameless frame is `0x` and sixteen digits whose value is the address |
| `HeapExport.CheckpointInRange` | src/heap/mod.rs:48-64 | a checkpoint of the tracker can always be exported |
| `HeapValidation.IdsSize` | src/heap/mod.rs:304-314 | a set of ids is as large as the table exactly if none repeats |
| `HeapValidation.CollectIds` | src/heap/mod.rs:304-314 | fails exactly for a zero or repeated id |
| `HeapValidation.ShapePasses` | src/heap/mod.rs:359-392 | some of the four heap metrics, none twice, and as many values per sample |
| `HeapValidation.ValidateProfile` | src/heap/mod.rs:288-394 | the passes over the tables accept exactly the profiles whose references, strings and metrics are in order |
| `SampleKeys.IndexFinds` | src/heap/compare.rs:167-175 | with unique ids an index finds every entry |
| `SampleKeys.FrameKeyFor` | src/heap/compare.rs:188-235 | fails exactly if a reference does not resolve; otherwise binary, address if nothing is symbolic, and lines, which `KeysMeet` describes |
| `SampleKeys.SampleKeyFor` | src/heap/compare.rs:176-250 | likewise for the whole sample; the order of labels does not matter |
| `SampleKeys.AcceptedKeysResolve` | src/heap/mod.rs:327-348 | in an accepted profile every sample has a key |
| `SampleKeys.KeysMeet` | src/heap/compare.rs:176-250 | from the tables alone, when two samples have one key: as many frames, and frame by frame the same build id, or without one the same file; the same lines, names that are only addresses aside; without a symbol also the same address less the image's start plus its offset, as far as that fits; and the same labels as often |
| `SampleKeys.BinaryKeysMeet` | src/heap/compare.rs:205-214 | the binaries of two frames are equal if and only if both have a nonempty build id and these are equal, or the one text that stands for either is |
| `SampleKeys.AddressKeysMeet` | src/heap/compare.rs:215-225 | the addresses of two frames are equal if and only if both have a symbol, or their places in the file are the same, with zero for a frame that has a symbol |
| `SampleKeys.RelocationKeepsKeys` | src/heap/compare.rs:205-235 | moving images and their locations, and naming unresolved frames after other addresses, changes no key |
| `KeyedSums.Add` | src/heap/compare.rs:150-160 | each value added or subtracted, or nothing if one leaves int64 |
| `KeyedSums.FoldSums` | src/heap/compare.rs:55-63 | a key's total moves by the plain sum of its entries |
| `KeyedSums.FoldOverflows` | src/heap/compare.rs:150-160 | it fails exactly if some running total leaves int64 |
| `KeyedSums.SumOfDistinct` | src/heap/compare.rs:139-142 | when keys do not repeat, a key's sum is its value |
| `TableMerge.InternAll` | src/heap/compare.rs:64-69 | every base string is found at its new index, and no old one moves |
| `TableMerge.RenumberingFinds` | src/heap/compare.rs:70-99 | the k-th entry gets the k-th id after the largest in use |
| `TableMerge.AppendMappings` | src/heap/compare.rs:73-82 | fails exactly when ids run out; otherwise all base mappings, renumbered |
| `TableMerge.AppendFunctions` | src/heap/compare.rs:83-93 | likewise functions |
| `TableMerge.AppendLocations` | src/heap/compare.rs:94-109 | likewise locations, their references following |
| `TableMerge.CarriedKey` | src/heap/compare.rs:110-137 | a base sample carried over has the key it had in base, and resolves |
| `TableMerge.KeptOver` | src/heap/compare.rs:53-63 | the current tables keep their place and meaning |
| `TableMerge.AddedOver` | src/heap/compare.rs:64-109 | the base tables are all there with their meaning |
| `TableMerge.MergedUnique` | src/heap/compare.rs:73-109 | ids stay unique |
| `TableMerge.MergedResolve` | src/heap/compare.rs:64-109 | every reference of the merged tables resolves |
| `TableMerge.MergedJoins` | src/heap/compare.rs:64-109 | entry by entry: behind the current tables stand those of base in their order, numbered on from the largest id, with the same texts, and their references are to the entries that stand where base's stood |
| `HeapDiff.AggregateCurrent` | src/heap/compare.rs:55-63 | one sample per key, with the key's sums |
| `HeapDiff.Negate` | src/heap/compare.rs:117-120 | negated values, or nothing if one is the least int64 |
| `HeapDiff.MergeTables` | src/heap/compare.rs:53-109 | fails exactly if the two id spaces do not fit one |
| `HeapDiff.SubtractBase` | src/heap/compare.rs:110-138 | every base sample is subtracted under its key, or carried over negated |
| `HeapDiff.KeepNonzero` | src/heap/compare.rs:139-142 | exactly the samples with a nonzero value, each once |
| `HeapDiff.Difference` | src/heap/compare.rs:10-149 | fails with the source's causes in their order; otherwise an accepted profile with distinct keys, no all-zero sample, for every key and metric current minus base, and the tables of base behind those of current |
| `HeapDiff.DifferenceByMeeting` | src/heap/compare.rs:10-149 | by name and from the tables alone: what an output sample has in a column is the sum over the current samples that meet it, less that over the base samples that do, each in its own column of that name; no two output samples meet |
| `HeapDiff.ChangesAppear` | src/heap/compare.rs:139-142 | and where these sums differ there is an output sample |
| `HeapDiff.BuildsStayApart` | src/heap/compare.rs:205-214 | samples whose frames lie in images with different nonempty build ids never meet |
| `HeapDiff.RefusedExactly` | src/heap/compare.rs:11-46 | refused exactly for an unaccepted profile, for types that differ as sets of name and unit or in number, and for domains that differ |
| `HeapDiff.SampleIsChange` | src/heap/compare.rs:110-142 | an output sample's values are its key's changes |
| `HeapDiff.KeyAppears` | src/heap/compare.rs:139-142 | a key is in the output exactly if some metric of it changed |
| `HeapDiff.BaseSum` | src/heap/compare.rs:47-52 | the metric order takes each base value to the same metric |
| `HeapDiff.OrderInverse` | src/heap/compare.rs:47-50 | the orders of the two directions are each other's inverse |
| `HeapDiff.SwapNegates` | src/heap/compare.rs:10-149 | swapping the arguments negates every value, under its own metric |
| `HeapDiff.NothingChanged` | src/heap/compare.rs:139-142 | equal sums give an empty difference |
| `HeapDiff.SelfDifference` | src/heap/compare.rs:10-149 | a profile does not differ from itself |
| `HeapDiff.RelocatedDifference` | src/heap/compare.rs:176-250 | nor from the same program loaded elsewhere |
| `HeapDiff.OverflowExactly` | src/heap/compare.rs:150-160 | the difference overflows exactly if a running total of current, or of the subtraction, leaves int64 |
| `Pprof.FromStrings` | src/pprof.rs:135-144 | refuses a table without the empty string in front; otherwise each string is known by its first occurrence |
| `Wire.VarintRoundTrip` | src/pprof.rs:18-28 | every u64 reads back from its varint, whatever follows |
| `Wire.PackedReadsBack` | src/pprof.rs:58-78 | every packed list reads back |
| `Wire.FieldReadsBack` | src/pprof.rs:626-654 | so does every field |
| `Wire.DecodeEmitted` | src/pprof.rs:559-588 | decoding written fields applies exactly these fields |
| `Wire.ApplyRepeated` | src/pprof.rs:479-512 | of a repeated submessage exactly those come back that encode to some bytes |
| `Wire.WrittenFits` | src/pprof.rs:38-49 | what fits a slice as a whole fits in its parts |
| `Wire.RepeatedKeep` | src/pprof.rs:38-49 | dropping what encodes to nothing changes no byte |
| `Wire.DecodeAppend` | src/pprof.rs:559-588 | decoding one input after another is decoding the second into the first's message |
| `Wire.EncodeVarint` | src/pprof.rs:18-28 | appends the groups of seven bits |
| `Wire.EncodeVarintField` | src/pprof.rs:30-36 | nothing for zero |
| `Wire.EncodeBytesField` | src/pprof.rs:51-56 | always written, empty or not |
| `Wire.EncodeLengthDelimited` | src/pprof.rs:42-49 | nothing for an empty value |
| `Wire.EncodePacked` | src/pprof.rs:58-78 | one field for the whole list, nothing for an empty one |
| `Wire.EncodeRepeated` | src/pprof.rs:479-512 | each item in a buffer of its own, in order |
| `Wire.ReadVarint` | src/pprof.rs:670-684 | ten bytes at most, the tenth at most one; the offset never passes the end |
| `Wire.Fields.constructor` | src/pprof.rs:622-624 | starts in front |
| `Wire.Fields.Take` | src/pprof.rs:656-667 | the bytes asked for, or nothing |
| `Wire.Fields.Next` | src/pprof.rs:626-654 | the next field or the reason there is none; a field strictly advances the offset, never past the end |
| `Wire.DecodeMessage` | src/pprof.rs:229-243 | every decoder's loop ends and applies all fields in order |
| `Wire.DecodePacked` | src/pprof.rs:594-600 | all varints in order, or the first error |
| `PprofWire.ValueTypeOnWire` | src/pprof.rs:158-166 | the bytes of a value type are fields that carry type and unit under 1 and 2; default values are not there |
| `PprofWire.LineOnWire` | src/pprof.rs:185-192 | likewise a line's function, line and column, signed values in two's complement |
| `PprofWire.LabelOnWire` | src/pprof.rs:353-361 | likewise a label |
| `PprofWire.FunctionOnWire` | src/pprof.rs:308-317 | likewise a function |
| `PprofWire.MappingOnWire` | src/pprof.rs:260-275 | likewise an image, flags as zero or one |
| `PprofWire.LocationOnWire` | src/pprof.rs:216-228 | likewise a location, each line under 4 in a message of its own |
| `PprofWire.SampleOnWire` | src/pprof.rs:387-400 | likewise a sample, ids and values packed in one field each, in order |
| `PprofWire.ProfileOnWire` | src/pprof.rs:476-549 | likewise the profile: every table under its number, in order, every string under 6, empty or not |
| `PprofWire.PackedOrNot` | src/pprof.rs:393-417 | ids, values and comments are read alike from one packed field and from one field each |
| `PprofCodec.ValueTypeRoundTrip` | src/pprof.rs:158-176 | reads back; empty exactly if default |
| `PprofCodec.LineRoundTrip` | src/pprof.rs:185-205 | likewise, signed values included |
| `PprofCodec.LabelRoundTrip` | src/pprof.rs:353-378 | likewise |
| `PprofCodec.FunctionRoundTrip` | src/pprof.rs:308-335 | likewise |
| `PprofCodec.MappingRoundTrip` | src/pprof.rs:260-297 | likewise, flags included |
| `PprofCodec.LocationRoundTrip` | src/pprof.rs:216-244 | reads back without default lines; empty exactly if that leaves the default |
| `PprofCodec.SampleRoundTrip` | src/pprof.rs:387-417 | reads back without default labels; empty exactly if that leaves the default |
| `PprofCodec.RoundTrip` | src/pprof.rs:476-591 | decoding an encoded profile gives it back, normalised and with its string cache rebuilt; a table without the empty string in front is refused |
| `PprofCodec.NormaliseIsIdentity` | src/pprof.rs:42-49 | normalising changes nothing exactly if nothing in the profile encodes to nothing |
| `PprofCodec.RoundTripIsIdentity` | src/pprof.rs:476-591 | the exact condition for the round trip to be the identity |
| `PprofCodec.EncodesNormal` | src/pprof.rs:476-549 | what is dropped leaves no trace in the bytes |
| `PprofCodec.DecodedText` | src/pprof.rs:569-573 | only well-formed UTF-8 gets into the string table |
| `PprofCodec.ReencodingIsStable` | src/pprof.rs:476-591 | of any accepted bytes, the re-encoding is a fixed point of decoding and encoding |
| `PprofCodec.DecodeOverlays` | src/pprof.rs:559-588 | decoding into any profile overlays what the bytes decode to alone |
| `PprofCodec.DecodeConcatenation` | src/pprof.rs:552-591 | two accepted inputs in a row: lists run on, present scalars and period type of the second win |
| `PprofCodec.EncodeProfile` | src/pprof.rs:476-549 | writes the fields in the source's order |
| `PprofCodec.DecodeProfile` | src/pprof.rs:552-591 | decodes, then rebuilds the string cache |
| `SessionStream.HeaderReadsBack` | src/stream.rs:57-86 | what the profiler writes, both sides read back; the app refuses only oversized payloads |
| `SessionStream.HeaderWritesBack` | src/stream.rs:70-85 | a header is read from no other bytes |
| `SessionStream.HeaderLayout` | src/stream.rs:57-68 | a header byte by byte: magic, versions, kind and flags in two bytes each, sequence and length in eight, most significant first |
| `SessionStream.KindOf` | src/stream.rs:27-45 | a frame kind for exactly the ten codes |
| `SessionStream.ParseConserves` | apps/macos/Sources/PProfessorKit/SessionStreamProtocol.swift:85-103 | the frames found and the bytes left are the bytes given |
| `SessionStream.ParseAppend` | apps/macos/Sources/PProfessorKit/SessionStreamProtocol.swift:85-103 | more bytes go on exactly where the parse stopped |
| `SessionStream.FramesReadBack` | apps/macos/Sources/PProfessorKit/SessionStreamProtocol.swift:85-103 | encoded frames within the limit are parsed as written, in order |
| `SessionStream.PartialFrame` | apps/macos/Sources/PProfessorKit/SessionStreamProtocol.swift:88-92 | a strict prefix of a frame yields nothing and is kept |
| `SessionStream.PrefixFrames` | apps/macos/Sources/PProfessorKit/SessionStreamProtocol.swift:85-103 | of a stream cut anywhere, exactly the frames that arrived whole are there |
| `SessionStream.SessionFrameParser.constructor` | apps/macos/Sources/PProfessorKit/SessionStreamProtocol.swift:80-83 | starts with no bytes |
| `SessionStream.SessionFrameParser.Append` | apps/macos/Sources/PProfessorKit/SessionStreamProtocol.swift:85-103 | all complete frames of buffer and bytes; the rest stays |
| `SessionStream.ChunksDoNotMatter` | apps/macos/Sources/PProfessorKit/SessionStreamProtocol.swift:85-103 | any sequence of calls gives what one call with all bytes gives |
| `SessionStream.ReadLoop` | apps/macos/Sources/PProfessorKit/TCPSessionServer.swift:97-112 | the handler gets the frames of the reads until one fails |
| `SessionStream.HandledPrefix` | apps/macos/Sources/PProfessorKit/TCPSessionServer.swift:97-112 | what was handled is a prefix of what arrived, and all of it unless a read failed |
| `SessionStream.ConnectionPrefix` | src/stream.rs:171-216 | of a connection that breaks in a frame, the handler sees a prefix of the frames written, none of them torn |
| `SessionStream.WrittenFramesArrive` | src/stream.rs:218-235 | however a stream of frames is cut, they all arrive and nothing is held back |
| `SessionStream.BadHeaderLosesItsCall` | apps/macos/Sources/PProfessorKit/SessionStreamProtocol.swift:85-103 | a bad header loses the frame before it in the same call, and does not in a later one |
| `SessionStream.ChunkInvariance` | apps/macos/Sources/PProfessorKit/SessionStreamProtocol.swift:85-103 | however a stream is cut the same frames are handled, if and only if no header is bad or no frame stands before the bad one |
| `LiveSession.RawProfileCursor.constructor` | src/sampler/mod.rs:81-84 | starts with given counts |
| `LiveSession.RawProfileCursor.Delta` | src/sampler/mod.rs:86-117 | exactly what is beyond the cursor, counts and timestamps, and the cursor catches up; nothing new is no delta |
| `LiveSession.CommitKeepsCursor` | src/main.rs:93-109 | committing a sent delta keeps: committed counts are the cursor, committed timestamps a prefix of the sampled |
| `LiveSession.StepKeepsInv` | src/main.rs:71-110 | every step of sampler, publisher, network and app keeps the protocol's invariant: deltas and checkpoints, frames handed over in any order, restarts |
| `LiveSession.LateKeepsInv` | apps/macos/Sources/PProfessor/SessionCoordinator.swift:49-53 | a frame handed over by its own task, at any time and in any order, too |
| `LiveSession.RunKeepsInv` | src/stream.rs:171-216 | so does every run |
| `LiveSession.SelectionTotals` | apps/macos/Sources/PProfessor/SessionCoordinator.swift:195-215 | deltas with rising sequences, each committed, add up to at most what was committed |
| `LiveSession.AtMostOnce` | apps/macos/Sources/PProfessor/SessionCoordinator.swift:195-215 | in every run, through drops, reconnects, frames in any order and restarts: shown ≤ restored by the last checkpoint + committed, without checkpoints shown ≤ committed ≤ sampled, per thread and stack; committed timestamps are the first of those sampled |
| `LiveSession.SnapshotIsSampled` | src/sampler/mod.rs:43-48 | in every run the snapshot has, per thread and stack, the times of its samples in order |
| `LiveSession.CommittedIsSampled` | src/main.rs:93-109 | and what was committed are the first of them, as many as the cursor says |
| `LiveSession.FramesAreNumbered` | src/stream.rs:171-216 | in every run each connection starts with a hello, and its frames are numbered one after the other, the first of all with 1, until the number is the largest |
| `LiveSession.ExactlyOnceInOrder` | src/main.rs:90-109 | when connections are read in order and all that was written arrived, shown is exactly what was sent since the last checkpoint, and without checkpoints what was committed |
| `LiveSession.ReplayMerges` | apps/macos/Sources/PProfessor/SessionCoordinator.swift:324-342 | a journal of checkpoints and deltas replays to the sums since its last checkpoint and to the largest sequence |
| `LiveSession.JournalRebuilds` | apps/macos/Sources/PProfessor/SessionCoordinator.swift:233-259 | the exact condition: in every run from the start in which each profile frame that counted was journaled, a restart and a hello bring back what was shown if and only if the session was not stored before its first hello and no final profile was stored, or nothing was shown |
| `LiveSession.LaunchedForgets` | apps/macos/Sources/PProfessor/SessionCoordinator.swift:161-172 | a session launched by the app: its delta is shown and journaled, and after a restart and a hello nothing is shown |
| `LiveSession.StepPath` | apps/macos/Sources/PProfessor/SessionCoordinator.swift:249-259 | a stored session has no path to its journal if and only if it had none, or a final profile was stored |
| `LiveRender.LocationArrives` | apps/macos/Sources/PProfessorKit/PProf/ProfileDecoder.swift:26-71 | of a written profile the app reads each location as its frame: name, file, line and image |
| `LiveRender.SampleArrives` | apps/macos/Sources/PProfessorKit/PProf/ProfileDecoder.swift:26-71 | and each sample as its frames and labels |
| `LiveRender.NearestImage` | src/encode.rs:99-101 | a frame's image is one of those loaded, the nearest at or below its address; without one it has none |
| `LiveRender.LiveHeader` | src/encode.rs:14-45 | the value types, the period and the times, and every text of a label at its position |
| `LiveRender.HeaderArrives` | src/encode.rs:14-45 | the app reads them so |
| `LiveRender.AddImages` | src/encode.rs:47-69 | every image once, in the order of addresses, under the ids from 1 |
| `LiveRender.AddLocation` | src/encode.rs:83-110 | a location and function for an address that has none; it resolves to the address's frame |
| `LiveRender.AddStack` | src/encode.rs:76-114 | the ids of a stack resolve to its frames; addresses without one are skipped |
| `LiveRender.AddLabels` | src/encode.rs:120-150 | thread, thread name if there is one, and time if there is one |
| `LiveRender.AddSamples` | src/encode.rs:75-158 | one sample for each that has a stack, with count and wall time as far as they fit |
| `LiveRender.BuildProto` | src/encode.rs:11-161 | stops only for a frequency of zero or for want of memory; otherwise header, images and all samples |
| `LiveBuild.BuiltHeader` | src/encode.rs:14-45 | the texts of types, units and period as written out, 10^9 over the frequency as period, duration and start |
| `LiveBuild.BuiltImages` | src/encode.rs:47-69 | the images in the order of their addresses, equal ones as they came, numbered from 1, each up to the next, the last up to its file's size |
| `LiveBuild.BuiltSamples` | src/encode.rs:75-158 | sample by sample: one for each that has a known address, its frames in the order of the stack with name, file, line and nearest image, its labels, count and wall time |
| `LiveBuild.DecodedValues` | src/encode.rs:152-157 | what the app decodes has as values the count and the count times the period, each as far as it fits an int64 |
| `LiveBuild.AppHasAll` | apps/macos/Sources/PProfessorKit/PProf/ProfileDecoder.swift:26-71 | the app has every entry of every table, in order, field by field |
| `LiveRender.BuiltArrives` | src/pprof.rs:476-591 | what is built, encoded and decoded by the app gives exactly the samples that were to be sent |
| `LiveRender.EntriesCount` | src/encode.rs:126-157 | the values of a thread and stack add up to its count in the samples |
| `LiveRender.Symbolicate` | src/symbolicated.rs:103-188 | a frame for exactly the addresses of the delta, the symbolizer's or the hexadecimal one; the samples are, series by series, one per timestamp or one with the count, and per thread and stack as many counts as the delta has; empty stacks are dropped |
| `LiveRender.Render` | src/main.rs:97-105 | from a delta to bytes: the app reads exactly its symbolicated samples, and counts each thread on each stack as often as the delta does, if and only if every series has one timestamp per count or a count that fits an int64 |
| `LiveRender.MergeAddsDelta` | apps/macos/Sources/PProfessorKit/LiveProfileAccumulator.swift:28-147 | merging a rendered delta adds exactly the delta's count to each thread and stack |
| `LiveCounts.SameSelected` | apps/macos/Sources/PProfessorKit/LiveProfileAccumulator.swift:123-146 | profiles with equal sums for every meaning have equal sums for every choice of meanings |
| `LiveCounts.MergeAddsSelected` | apps/macos/Sources/PProfessorKit/LiveProfileAccumulator.swift:28-147 | a merge adds to each thread and stack exactly what the incoming profile has of it |
| `LivePublisher.CarriesMore` | src/stream.rs:218-235 | a write puts a whole frame on the connection, or a strict prefix of it at its end |
| `LivePublisher.SessionPublisher.constructor` | src/stream.rs:135-143 | no connection, sequence zero |
| `LivePublisher.SessionPublisher.WriteFrame` | src/stream.rs:218-235 | header and payload, as far as the connection takes them; fails exactly if not all |
| `LivePublisher.PublishedBytes` | src/stream.rs:218-235 | the bytes of a published frame: magic, version 1.0, the kind's code, no flags, the sequence, the payload's length, and the payload |
| `LivePublisher.SessionPublisher.Connect` | src/stream.rs:194-216 | a connection starts with a hello and is kept only if that was written; the sequence advances either way |
| `LivePublisher.SessionPublisher.EnsureConnected` | src/stream.rs:163-169 | an open connection is kept |
| `LivePublisher.SessionPublisher.Send` | src/stream.rs:171-192 | connects if it must, advances the sequence, and drops the connection on a failed write; which failures the caller sees |
| `LivePublisher.PublishUpdate` | src/main.rs:71-110 | connects, renders the delta and sends it: the cursor moves only if the frame was written, the app reads from its bytes exactly the samples of the delta, and cursor and publisher take exactly the protocol's step |
| `LivePublisher.DeltaSendable` | src/sampler/mod.rs:86-117 | the deltas of sampled series have one timestamp per count, so that rendering them loses no count |
| `LivePublisher.PublishHeapCheckpoint` | src/stream.rs:147-153 | an unaccepted profile is not sent; any other is the protocol's checkpoint, whatever the app counts in it |
| `LivePublisher.ExportConveysNothing` | src/heap/mod.rs:108-122 | an exported heap profile names no thread, so that its checkpoint counts for none |
| `LivePublisher.SendOther` | src/stream.rs:171-192 | a frame that is no profile takes the protocol's step |
| `LiveReceiver.RuntimeSession.Take` | apps/macos/Sources/PProfessor/SessionCoordinator.swift:207-215 | a checkpoint replaces, a delta is merged: for every meaning the accumulator has the sum over the frames it holds; stops exactly on overflow |
| `LiveReceiver.ReplayJournal` | apps/macos/Sources/PProfessor/SessionCoordinator.swift:324-342 | from the bytes of the file: nothing if it does not parse, otherwise a runtime with the frames since the last checkpoint and the largest sequence; stops exactly on overflow |
| `LiveReceiver.SessionCoordinator.ReceiveHello` | apps/macos/Sources/PProfessor/SessionCoordinator.swift:233-264 | takes the protocol's step for a hello: a runtime from the bytes of the journal, if there is none and the stored session has a path; a session that is not stored gets one; a journal that was kept up always replays |
| `LiveReceiver.SessionCoordinator.constructor` | apps/macos/Sources/PProfessor/SessionCoordinator.swift:30-34 | an app that starts has nothing but its store and the journal |
| `LiveReceiver.SessionCoordinator.Receive` | apps/macos/Sources/PProfessor/SessionCoordinator.swift:195-231 | takes the protocol's step for any frame: old sequences and unknown connections are ignored; the journal stays current as long as it can be written |
| `LiveReceiver.SessionCoordinator.AppendJournal` | apps/macos/Sources/PProfessor/SessionCoordinator.swift:311-322 | the file is the journaled frames, one after the other |
| `LiveReceiver.AppCounts` | apps/macos/Sources/PProfessor/SessionCoordinator.swift:195-215 | the accumulator of decoded profiles counts each thread and stack as the protocol does |
| `LiveReceiver.AppShowsAtMostOnce` | apps/macos/Sources/PProfessor/SessionCoordinator.swift:195-215 | so in every run it shows no more than was restored by a checkpoint and committed, and without checkpoints no more than was committed |
| `LiveReceiver.AppShowsExactlyOnce` | src/main.rs:90-109 | and with everything delivered in order exactly that |
| `LiveReceiver.JournalRestores` | apps/macos/Sources/PProfessor/SessionCoordinator.swift:324-342 | an app that starts with the journal of another has, after a hello, the same sum for every meaning and value |
| `LiveRun.LiveSystem.constructor` | src/stream.rs:135-143 | a session that is new to the app, or that the app has launched |
| `LiveRun.LiveSystem.Sample` | src/sampler/mod.rs:43-50 | one more sample is a step of the run |
| `LiveRun.LiveSystem.Publish` | src/main.rs:71-110 | so is an update of cursor, publisher and connection |
| `LiveRun.LiveSystem.SendCheckpoint` | src/stream.rs:147-153 | a heap checkpoint |
| `LiveRun.LiveSystem.SendOther` | src/main.rs:213-229 | any other frame |
| `LiveRun.LiveSystem.Deliver` | apps/macos/Sources/PProfessor/SessionCoordinator.swift:195-231 | the next frame of a connection, taken by the app |
| `LiveRun.LiveSystem.Late` | apps/macos/Sources/PProfessor/SessionCoordinator.swift:49-53 | any frame of a connection, at any time |
| `LiveRun.LiveSystem.Restart` | apps/macos/Sources/PProfessor/SessionCoordinator.swift:48-60 | and a restart of the app from its store and its journal |
| `LiveRun.LiveSystem.ShowsAtMostOnce` | apps/macos/Sources/PProfessor/SessionCoordinator.swift:195-215 | hence after any sequence of these calls the accumulator shows at most what was committed and restored |
| `LiveRun.LiveSystem.ShowsExactlyOnce` | src/main.rs:90-109 | and exactly what was sent since the last checkpoint, once that was delivered in order |
| `LiveAccumulator.InverseAppend` | apps/macos/Sources/PProfessorKit/LiveProfileAccumulator.swift:59-69 | adding an unknown key keeps an index the exact inverse of its table |
| `LiveAccumulator.SampleStays` | apps/macos/Sources/PProfessorKit/LiveProfileAccumulator.swift:28-147 | growing tables change no sample's meaning |
| `LiveAccumulator.KeysDiffer` | apps/macos/Sources/PProfessorKit/LiveProfileAccumulator.swift:134-145 | different keys mean different things |
| `LiveAccumulator.SamplesDiffer` | apps/macos/Sources/PProfessorKit/LiveProfileAccumulator.swift:134-145 | no two accumulated samples mean the same |
| `LiveAccumulator.LiveProfileAccumulator.constructor` | apps/macos/Sources/PProfessorKit/LiveProfileAccumulator.swift:12-21 | valid and empty |
| `LiveAccumulator.LiveProfileAccumulator.Intern` | apps/macos/Sources/PProfessorKit/LiveProfileAccumulator.swift:149-155 | the string is at its id; nothing else changes |
| `LiveAccumulator.LiveProfileAccumulator.MapMapping` | apps/macos/Sources/PProfessorKit/LiveProfileAccumulator.swift:50-71 | an id that means the incoming mapping; an entry is added exactly for a new key, and keeps its flags |
| `LiveAccumulator.LiveProfileAccumulator.MapFunction` | apps/macos/Sources/PProfessorKit/LiveProfileAccumulator.swift:81-100 | an id that means the incoming function |
| `LiveAccumulator.LiveProfileAccumulator.MapLines` | apps/macos/Sources/PProfessorKit/LiveProfileAccumulator.swift:77-105 | lines with a known function, meaning what they meant |
| `LiveAccumulator.LiveProfileAccumulator.MapLocation` | apps/macos/Sources/PProfessorKit/LiveProfileAccumulator.swift:75-120 | an id that means the incoming location |
| `LiveAccumulator.LiveProfileAccumulator.MapLabels` | apps/macos/Sources/PProfessorKit/LiveProfileAccumulator.swift:125-132 | labels that mean what they meant; position zero stays |
| `LiveAccumulator.LiveProfileAccumulator.MapStack` | apps/macos/Sources/PProfessorKit/LiveProfileAccumulator.swift:124-124 | the known locations, in order |
| `LiveAccumulator.LiveProfileAccumulator.AddSample` | apps/macos/Sources/PProfessorKit/LiveProfileAccumulator.swift:123-146 | its values are added to the one sample that means the same, or it is appended; stops exactly on overflow |
| `LiveAccumulator.LiveProfileAccumulator.MergeMappings` | apps/macos/Sources/PProfessorKit/LiveProfileAccumulator.swift:49-71 | every incoming id leads to an entry that means the same; of repeated ids the last counts |
| `LiveAccumulator.LiveProfileAccumulator.MergeLocations` | apps/macos/Sources/PProfessorKit/LiveProfileAccumulator.swift:73-121 | likewise locations |
| `LiveAccumulator.LiveProfileAccumulator.MergeSamples` | apps/macos/Sources/PProfessorKit/LiveProfileAccumulator.swift:123-146 | every total moves by what the incoming samples add up to |
| `LiveAccumulator.LiveProfileAccumulator.InternTypes` | apps/macos/Sources/PProfessorKit/LiveProfileAccumulator.swift:30-32 | the sample types keep their names and units |
| `LiveAccumulator.LiveProfileAccumulator.InternComments` | apps/macos/Sources/PProfessorKit/LiveProfileAccumulator.swift:40-40 | the comments keep their texts |
| `LiveAccumulator.LiveProfileAccumulator.MergeHeader` | apps/macos/Sources/PProfessorKit/LiveProfileAccumulator.swift:29-47 | the header of the first profile with sample types; after that only the duration grows |
| `LiveAccumulator.LiveProfileAccumulator.Merge` | apps/macos/Sources/PProfessorKit/LiveProfileAccumulator.swift:28-147 | for any incoming profile: pointwise sum per meaning, the five indices exact inverses, every reference resolving; stops exactly when a running total leaves int64 |
| `LiveMeaning.MeaningIsUnique` | apps/macos/Sources/PProfessorKit/LiveProfileAccumulator.swift:134-145 | in a profile's tables a sample means at most one thing: frames and lines that resolve, in order, with all texts, and labels in order |
| `LiveMeaning.IncomingMeans` | apps/macos/Sources/PProfessorKit/LiveProfileAccumulator.swift:49-132 | what the merge takes an incoming sample for is what it means there; of repeated locations and images the last counts, of functions the first |
| `LiveMeaning.AccumulatedMeans` | apps/macos/Sources/PProfessorKit/LiveProfileAccumulator.swift:134-145 | and an accumulated sample is taken for what it means |
| `LiveMeaning.MergeByMeaning` | apps/macos/Sources/PProfessorKit/LiveProfileAccumulator.swift:28-147 | hence by the tables alone: for everything a sample can mean, a merge adds what the incoming samples with that meaning have, and no two accumulated samples mean the same |
| `LiveMeaning.HeaderIsMeant` | apps/macos/Sources/PProfessorKit/LiveProfileAccumulator.swift:29-47 | the merged header has the texts at the incoming header's positions, none for position zero |
| `LiveMeaning.FirstHeaderStays` | apps/macos/Sources/PProfessorKit/LiveProfileAccumulator.swift:29-46 | over any number of merges it is that of the first profile with sample types |
| `LiveMeaning.LongestDuration` | apps/macos/Sources/PProfessorKit/LiveProfileAccumulator.swift:47-47 | and the duration is the longest, at least zero |
| `LiveAccumulator.LiveProfileAccumulator.Replace` | apps/macos/Sources/PProfessorKit/LiveProfileAccumulator.swift:23-26 | depends on the checkpoint alone |
| `LiveAccumulator.AddValues` | apps/macos/Sources/PProfessorKit/LiveProfileAccumulator.swift:136-141 | missing values count as zero |
| `LiveAccumulator.SumOfDistinct` | apps/macos/Sources/PProfessorKit/LiveProfileAccumulator.swift:134-145 | when meanings do not repeat, a meaning's sum is its value |
| `LiveAccumulator.MergesAddUp` | apps/macos/Sources/PProfessorKit/LiveProfileAccumulator.swift:28-147 | merging two profiles adds up as merging both at once, in either order |
| `ProfileReport.ResolveLocation` | src/report.rs:774-800 | a location's frames, callers first; its address if it has no lines |
| `ProfileReport.ResolveStack` | src/report.rs:767-803 | a sample's frames, root first; what does not resolve is skipped. By position: the frames are those of the lines that resolve, or of the address of a location without lines, from the last location to the first and within one from the last line to the first |
| `ProfileReport.LeafFrame` | src/report.rs:148-151 | the frame that bears the flat cost is that of the first line of the first location, or its address |
| `ProfileReport.PlainStack` | src/report.rs:773-802 | for locations of one line, frame k is that of location n - 1 - k |
| `ProfileReport.InlinedFrames` | src/report.rs:788-800 | within a location, frame k is that of line n - 1 - k |
| `ProfileReport.AddFrames` | src/report.rs:153-159 | each frame of a stack is counted once, however often it is on it |
| `ProfileReport.FromProfile` | src/report.rs:130-160 | flat sums samples whose leaf a frame is, cumulative those that have it anywhere, each stack its own; no other frame or stack is listed. The samples are, in order, those that have a value at the index, each with that value and its stack by position |
| `ProfileReport.SamplesWeigh` | src/report.rs:133-140 | the samples that count are exactly those with a value at the index, with that value |
| `ProfileReport.CostsOfOne` | src/report.rs:148-159 | what one sample costs: flat its last frame, cumulative each of its frames, its stack, and the total its absolute value |
| `ProfileReport.CostsAdd` | src/report.rs:133-160 | the plain costs of two lists of samples add up |
| `ProfileReport.SumsAreExact` | src/report.rs:130-160 | while the absolute values fit together, no sum saturates |
| `ProfileReport.ExactlyWhenFits` | src/report.rs:130-160 | nothing saturates at all if and only if they do |
| `ProfileReport.FrameExactlyWhenFits` | src/report.rs:148-160 | a frame's flat and cumulative sums are the plain ones all along if and only if its own running sums are int64s |
| `ProfileReport.CostsAreOrdered` | src/report.rs:130-160 | non-negative samples: 0 ≤ flat ≤ cumulative ≤ total |
| `ProfileReport.FlatsAddUp` | src/report.rs:148-151 | the flats of all leaves add up to the samples with a stack |
| `ProfileReport.StacksAddUp` | src/report.rs:139-147 | and so do the stacks |
| `CallTree.FromStacks` | src/report.rs:560-577 | the loop builds the tree that inserting stack by stack gives |
| `CallTree.InsertAt` | src/report.rs:563-575 | one stack adds to exactly the nodes along its path, and to its last node's own cost |
| `CallTree.NodeValues` | src/report.rs:560-577 | the node of a path holds the sum of the stacks below it, and as its own that of the stacks that end there; there is a node for every such path and no other |
| `CallTree.ChildrenAppear` | apps/macos/Sources/PProfessorKit/ProfileConverter.swift:129-156 | a node's children are the frames one level below its path, each once, in the order of their first stacks |
| `CallTree.SaturatesAtTheEnds` | src/report.rs:564-574 | the saturating sum is the plain one if that is an int64, else the nearer end |
| `CallTree.InsertBalances` | apps/macos/Sources/PProfessorKit/ProfileConverter.swift:129-156 | a plain insertion keeps total = self + children everywhere |
| `CallTree.BuiltBalances` | apps/macos/Sources/PProfessorKit/ProfileConverter.swift:95-157 | so every built tree has it |
| `CallTree.NothingSaturates` | src/report.rs:560-577 | while the absolute values fit together, saturating and plain sums agree |
| `CallTree.SaturatesExactly` | src/report.rs:560-577 | the saturating tree holds the plain sums after every stack if and only if each running sum of each path is an int64 |
| `CallTree.NonNegativeFitsExactly` | src/report.rs:560-577 | without negative values: if and only if all values together are an int64 |
| `CallTree.TreeConserves` | src/report.rs:560-577 | while every running sum is an int64, the report's tree has total = self + children too |
| `CallTree.SaturationUnbalances` | src/report.rs:564-574 | and beyond that it need not |
| `TreeViews.RenderChildren` | src/report.rs:587-628 | under a limit, exactly the first lines of the whole rendering |
| `TreeViews.LinesInOrder` | src/report.rs:595-626 | the whole rendering line by line: one line for every choice of shown children, before what is below it, siblings in the view's order, with a connector for each level |
| `TreeViews.CountPermutes` | src/report.rs:579-585 | the count does not depend on the order of children |
| `TreeViews.EligibleIsLines` | src/report.rs:579-585 | the eligible nodes are as many as the lines of the whole rendering |
| `TreeViews.OmittedIsExact` | src/report.rs:484-493 | emitted is the smaller of limit and eligible, so what is reported as omitted is exact |
| `TreeViews.Flatten` | apps/macos/Sources/PProfessorKit/ProfileConverter.swift:161-193 | ends; every node once with its values, level by level, siblings in their order; the index leads to the last node with an id |
| `TreeViews.PathIdIs` | apps/macos/Sources/PProfessorKit/ProfileConverter.swift:133-134 | an id is `root` and the names of the path behind slashes |
| `TreeViews.IndexInverts` | apps/macos/Sources/PProfessorKit/ProfileConverter.swift:185-186 | the index inverts the list exactly if no id repeats |
| `TreeViews.PlainIdsDiffer` | apps/macos/Sources/PProfessorKit/ProfileConverter.swift:133-134 | paths of names without a slash have ids of their own |
| `TreeViews.PlainNamesIndex` | apps/macos/Sources/PProfessorKit/ProfileConverter.swift:161-193 | so without slashes the index inverts the list |
| `TreeViews.SlashCollides` | apps/macos/Sources/PProfessorKit/ProfileConverter.swift:133-134 | with one, two paths can have one id |
| `FlameGraph.IndexTables` | apps/macos/Sources/PProfessorKit/ProfileConverter.swift:52-60 | of repeated ids the first counts |
| `FlameGraph.ResolvePath` | apps/macos/Sources/PProfessorKit/ProfileConverter.swift:113-127 | locations from the last to the first, the lines of each in their order; what does not resolve is skipped. By position: the names of the lines that resolve, in that order |
| `FlameGraph.SelectStacks` | apps/macos/Sources/PProfessorKit/ProfileConverter.swift:95-127 | the samples of the wanted sign that the filters keep, each with its path by position and its magnitude |
| `FlameGraph.StacksAreChosen` | apps/macos/Sources/PProfessorKit/ProfileConverter.swift:95-127 | the selected stacks are, in order, exactly those of samples whose value has the wanted sign and which the filter keeps, with the value's absolute value |
| `FlameGraph.PathIsPath` | apps/macos/Sources/PProfessorKit/ProfileConverter.swift:113-127 | a path by position: last location first, lines in their order, of repeated ids the first |
| `FlameGraph.SelectedSums` | apps/macos/Sources/PProfessorKit/ProfileConverter.swift:96-100 | the selected magnitudes are positive, and the root's total is their sum |
| `FlameGraph.TrieFits` | apps/macos/Sources/PProfessorKit/ProfileConverter.swift:129-156 | no sum of the trie leaves int64, exactly if the selected magnitudes together do not |
| `FlameGraph.Convert` | apps/macos/Sources/PProfessorKit/ProfileConverter.swift:20-204 | nothing for a profile without samples; otherwise one node per path of a selected sample, and the root, with its name, its children's ids, and the sums of the stacks below it and on it; level by level; a root id exactly if some sample was selected |
| `FlameGraph.IndexInvertsExactly` | apps/macos/Sources/PProfessorKit/ProfileConverter.swift:129-193 | the index of a converted profile leads back to every node if and only if any two call paths of its selected samples with one id are equal |
| `FlameGraph.PlainNamesInvert` | apps/macos/Sources/PProfessorKit/ProfileConverter.swift:133-134 | it does for a profile in which no name has a slash |
| `FlameGraph.SlashedProfileCollides` | apps/macos/Sources/PProfessorKit/ProfileConverter.swift:133-134 | a profile with the functions `a/b`, `a` and `b` for which it does not |
| `LazyTree.Roots` | src/symbolicated.rs:226-243 | the outermost frames, each once, as the samples come |
| `LazyTree.Children` | src/symbolicated.rs:296-320 | the frames one level below a prefix, each once, as the samples come |
| `LazyTree.NextFramesAre` | src/symbolicated.rs:296-320 | exactly the frames that some sample runs through there, without repetition |
| `LazyTree.NextFramesAppear` | src/symbolicated.rs:296-320 | they come in the order of the first samples that have them |
| `LazyTree.TotalIsSelfAndChildren` | src/symbolicated.rs:271-320 | a node's total is its own count plus its children's totals |
| `LazyTree.RootsCoverAll` | src/symbolicated.rs:226-243 | the roots account for all samples that have a stack |
| `LazyTree.CountsFit` | src/symbolicated.rs:271-294 | self ≤ total ≤ all counts, so nothing overflows while all counts fit |
| `LazyTree.LazyIsBuilt` | src/symbolicated.rs:226-320 | at every path the lazy tree answers what the built tree holds, and lists a child exactly where that has a node |
| `Words.LeWeights` | src/heap/linux.rs:251-253 | the words of the log and of the ring: the first byte weighs least |
| `Words.BeWeights` | src/stream.rs:61-66 | those of a frame header: it weighs most |
| `PerfRing.TakeU64` | src/sampler/linux.rs:551-555 | the word at the offset, or nothing past the end |
| `PerfRing.TakeU32` | src/sampler/linux.rs:557-561 | likewise half a word |
| `PerfRing.ParsePerfSample` | src/sampler/linux.rs:528-549 | nothing for a truncated record or more than 4096 frames; otherwise the thread, and as stack the words of the call chain that are neither zero nor markers, in their order, with the instruction pointer in front exactly if it is not zero and not already there |
| `PerfRing.SampleReadsBack` | src/sampler/linux.rs:528-549 | of a record as the kernel lays it out: its thread, and by position exactly its frames that are nonzero and below the markers, in their order, behind the instruction pointer exactly if that is nonzero and not already first |
| `PerfRing.StackIsCallChain` | src/sampler/linux.rs:538-547 | there is a strictly rising list of exactly the indices that are kept, and the stack is the words at these, behind the pointer if it must be |
| `PerfRing.SamplesReported` | src/sampler/linux.rs:463-494 | the samples of whole records are, in order, those of exactly the records of that type that can be read, byte by byte |
| `PerfRing.RecordsDrain` | src/sampler/linux.rs:463-494 | whole records are all consumed, every parseable sample comes out once, in order |
| `PerfRing.Wrapped` | src/sampler/linux.rs:498-515 | where a position less than a ring further on lies |
| `PerfRing.WindowIsStream` | src/sampler/linux.rs:463-496 | what stands between tail and head is the stream, though more is written behind it |
| `PerfRing.PerfEvent.constructor` | src/sampler/linux.rs:463-470 | starts at the tail of the mapped page |
| `PerfRing.PerfEvent.CopyRing` | src/sampler/linux.rs:498-515 | the ring's bytes from a position on, around its end; every access lies inside |
| `PerfRing.PerfEvent.TakeRecord` | src/sampler/linux.rs:475-488 | the record at the tail, if a whole one is there; the tail moves past it |
| `PerfRing.PerfEvent.DrainSamples` | src/sampler/linux.rs:463-496 | all between tail and head, or, after an overrun, what the ring can hold; nothing when the head is behind |
| `PerfRing.PerfEvent.DrainsNewRecords` | src/sampler/linux.rs:463-496 | unless lapped, the records written since the last call, all of them, whatever the kernel writes during this one |
| `PerfRing.KernelWrites` | src/sampler/linux.rs:498-515 | writing around the ring keeps its end of the stream in place |
| `PerfRing.DrainAll` | src/sampler/linux.rs:463-496 | from any position, over any number of calls during each of which the kernel goes on writing: every sample written comes out exactly once, in order, wrapped ones too, each with its thread and its call chain by position |

## Left out

- `Recorder.EveryPrefixReplays`: log writes are complete and succeed; a failed write (status 1) and an exec that replaces the recorder (status 3) appear only as statuses that the reader refuses.
- `Recorder.StepKeepsInv`: the allocator is used as C demands (blocks are freed once, by whoever holds them) and nested calls free no recorded block; start-up before the log is open, the fork hooks and the header's creation are not steps of the machine.
- `AllocationLog.LogReader.Snapshot`: the mapping and symbol of an address are functions given as parameters; reading `/proc`, symbol tables and DWARF is left out, and so is the profile's comment.
- `AllocationLog.OpenLog`: whether the file is private and the user's own is a parameter.
- `SampleKeys.SampleKeyFor`: the key is a structured value with a multiset of labels where the source has the JSON text of sorted labels; that the text determines the value is assumed.
- `HeapDiff.Difference`: the order of the output samples is left open; the source lists them by the text of their keys. Table sizes are assumed to fit the address space, and the string cache to point at no wrong string.
- `HeapExport.ToPprof`: the order of images and samples is left open; the source walks ordered maps. The clock is a parameter, and so is its failure.
- `Wire.Fields.Take`: an offset that overflows and a value that is truncated are one error, and a length is never too large for `usize`.
- `Wire.ReadVarint`: the bits of each byte are added where the source sets them; they never overlap.
- `Wire.EncodeRepeated`: an item's own bytes come from a function, not from a second imperative writer.
- `Pprof.FromStrings`: string tables are values, as the source clones and compares them; interning returns the changed table.
- `LivePublisher.PublishUpdate`: the symbolizer is a function, and refreshing it is left out; after a stop nothing is promised.
- `LiveRender.AppDecode`: the app's own protobuf decoder is taken to read what the profiler's reads of the same bytes; a payload that this one refuses stands for an empty profile.
- `LiveRender.Symbolicate`: only `Unresolved::Hex`, which live updates use; the sizes of image files and the clock are parameters.
- `LiveRender.BuildProto`: the profile under construction is a value that each step replaces; the source's second map, of functions, always equals the one of locations and is left out. Sorting and `partition_point` of the standard library are functions.
- `LiveSession.AtMostOnce`: one session; frames other than hellos, deltas, checkpoints and final profiles matter only by their sequence. A journal write happens or does not; a torn one is left out.
- `LiveReceiver.SessionCoordinator.Receive`: the stored session's status, sample count and selection are left out, and so is deleting it; a hello always names this session.
- `LiveReceiver.AppShowsExactlyOnce`: not for stacks without an address, which the protocol counts and the rendering drops.
- `LiveSession.ExactlyOnceInOrder`: up to the sequence number's last value, from which on it stays the same.
- `LiveAccumulator.LiveProfileAccumulator.Merge`: ids of the accumulator are natural numbers; strings are compared by their bytes where Swift compares them up to canonical equivalence; a mapping's four flags are no part of what it means, as they are none of its key.
- `ProfileReport.FromProfile`: choice of the metric, names, files and lines of frames, ranking, percentages and all formatting are left out.
- `CallTree.FromStacks`: the tree is a value that each stack replaces along its path; the source walks a mutable reference down a map or a dictionary.
- `TreeViews.RenderChildren`: the order of children is any permutation and eligibility any predicate on the value; the source's percentages are floating point.
- `FlameGraph.Convert`: thread, heap domain and time filters are one predicate; percentages, system names, files and lines of nodes are left out.
- `LazyTree.TotalIsSelfAndChildren`: counts are natural numbers; `CountsFit` says when the source's 64-bit sums agree.
- `PerfRing.PerfEvent.DrainSamples`: words are little-endian, head and tail stay below 2^64, and the kernel publishes whole records; memory fences are left out.
- The Swift protobuf codec, except as said above, gzip, symbol resolution, sockets and files, ptrace and Mach sampling, the command line and the app's user interface.
