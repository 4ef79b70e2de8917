/** A live session from end to end: sampler, cursor, publisher, connections and app as one system.  Whatever
    sequence of calls is made, the system is where a run of the protocol has led, so that everything proved of
    runs holds of what the app shows. */
module LiveRun {
  import opened Prelude
  import opened SessionStream
  import opened LiveSession
  import opened LiveAccumulator
  import opened LiveRender
  import Heap = HeapValidation
  import Pprof
  import Codec = PprofCodec
  import Publisher = LivePublisher
  import Receiver = LiveReceiver

  lemma {:induction false} RunNext(s: State, steps: seq<Step>, step: Step)
    requires CanRun(s, steps) && Enabled(Run(s, steps), step)
    ensures CanRun(s, steps + [step]) && Run(s, steps + [step]) == After(Run(s, steps), step)
    decreases |steps|
  {
    hide After, Enabled;
    if steps == [] {
      assert [step][1..] == [];
      assert steps + [step] == [step];
    } else {
      RunNext(After(s, steps[0]), steps[1..], step);
      assert (steps + [step])[1..] == steps[1..] + [step];
    }
  }

  // Sending leaves the snapshot and the app alone.
  ghost predicate OnlySent(s: State, t: State) {
    t == s.(cursor := t.cursor, stream := t.stream, sequence := t.sequence, committed := t.committed,
            checkpoints := t.checkpoints, wires := t.wires, delivered := t.delivered)
  }

  lemma SendsOnly(s: State, step: Step)
    requires Enabled(s, step) && (step.Publish? || step.SendCheckpoint? || step.SendOther?)
    ensures OnlySent(s, After(s, step))
  {
    ConnectsOnly(s, step.connect);
    var t := EnsureConnected(s, step.connect);
    hide DeltaOf, Advanced, EnsureConnected, SendOn;
    if t.stream.Some? {
      if step.Publish? {
        WritesOnly(t, ProfileDelta, DeltaOf(t.cursor, t.snapshot), step.written);
      } else if step.SendCheckpoint? {
        WritesOnly(t, ProfileCheckpoint, step.content, step.written);
      } else {
        WritesOnly(t, step.kind, map[], step.written);
      }
    }
  }

  lemma ConnectsOnly(s: State, connect: ConnectOutcome)
    requires s.stream.Some? ==> s.stream.value < |s.wires|
    ensures var t := EnsureConnected(s, connect);
      OnlySent(s, t) && (t.stream.Some? ==> t.stream.value < |t.wires|)
  {
  }

  lemma WritesOnly(s: State, kind: FrameKind, delta: Snapshot, written: bool)
    requires s.stream.Some? && s.stream.value < |s.wires|
    ensures OnlySent(s, SendOn(s, kind, delta, written))
  {
  }

  // Receiving leaves the profiler and what it wrote alone.
  ghost predicate OnlyReceived(s: State, t: State) {
    t == s.(delivered := t.delivered, greeted := t.greeted, runtime := t.runtime, journal := t.journal,
            stored := t.stored)
  }

  lemma ReceivesOnly(s: State, step: Step)
    requires Enabled(s, step) && (step.Deliver? || step.Late?)
    ensures OnlyReceived(s, After(s, step))
  {
    hide Accumulate, Replay;
  }

  lemma RunInv(s: State, steps: seq<Step>)
    requires Initial(s) && CanRun(s, steps)
    ensures Inv(Run(s, steps)) && CursorInv(Run(s, steps))
    ensures Run(s, steps).stream.Some? ==> Run(s, steps).stream.value < |Run(s, steps).wires|
  {
    InitialInv(s);
    RunKeepsInv(s, steps);
    hide CanRun, Run, CursorInv, AppInv;
  }

  class LiveSystem {
    const cursor: RawProfileCursor
    const publisher: Publisher.SessionPublisher
    var snapshot: Snapshot
    var app: Receiver.SessionCoordinator
    // The run that has led here.
    ghost const origin: State
    ghost var steps: seq<Step>

    ghost predicate Valid()
      reads this, cursor, publisher, app, app.runtime, if app.runtime == null then {} else {app.runtime.accumulator}
    {
      && Initial(origin) && CanRun(origin, steps)
      && publisher.Valid() && app.Valid()
      && At(Run(origin, steps))
    }

    /** Every part is where the machine is. */
    ghost predicate At(s: State)
      reads this, cursor, publisher, app, app.runtime
    {
      s.snapshot == snapshot && Publisher.Refines(cursor, publisher, s) && app.Refines(s)
    }

    ghost function Now(): State
      reads this
      requires CanRun(origin, steps)
    {
      Run(origin, steps)
    }

    /** Nothing has been sampled or sent; the app may have stored the session already. */
    constructor (hello: seq<u8>, launched: bool)
      requires |hello| <= I64_MAX
      ensures Valid() && steps == [] && origin.stored == if launched then PATHLESS else NoSession
    {
      var stored := if launched then PATHLESS else NoSession;
      cursor := new RawProfileCursor(map[]);
      publisher := new Publisher.SessionPublisher(hello);
      app := new Receiver.SessionCoordinator([], stored, []);
      snapshot := map[];
      origin := LAUNCHED.(stored := stored);
      steps := [];
    }

    /** `push_timestamp`. */
    method Sample(key: Key, timestamp: u64)
      requires Valid() && Enabled(Now(), LiveSession.Sample(key, timestamp))
      modifies this`snapshot, this`steps
      ensures Valid() && steps == old(steps) + [LiveSession.Sample(key, timestamp)]
    {
      hide CanRun, Run, Initial, Publisher.SessionPublisher.Valid, Receiver.SessionCoordinator.Valid;
      ghost var s := Now();
      RunNext(origin, steps, LiveSession.Sample(key, timestamp));
      var series := if key in snapshot then snapshot[key] else Series(0, Some([]));
      snapshot := snapshot[key := PushTimestamp(series, timestamp)];
      steps := steps + [LiveSession.Sample(key, timestamp)];
    }

    // The app is where it was, and the profiler's side where the step leads.
    lemma AppStays(s: State, t: State)
      requires OnlySent(s, t) && snapshot == s.snapshot && app.Refines(s) && Publisher.Refines(cursor, publisher, t)
      ensures At(t)
    {
      hide AllConvey, Publisher.Follows, Receiver.RuntimeSession.Holds;
    }

    // The run goes on with a step that has been taken.
    ghost method Took(step: Step)
      requires Initial(origin) && CanRun(origin, steps) && Enabled(Now(), step)
      modifies this`steps
      ensures steps == old(steps) + [step]
      ensures CanRun(origin, steps) && Now() == After(old(Now()), step)
    {
      RunNext(origin, steps, step);
      steps := steps + [step];
    }

    /** `publish_update`; when it stops, nothing more is promised. */
    method Publish(c: Context, symbolize: u64 -> Option<FrameInfo>, attempt: Publisher.Attempt, taken: nat,
                   transient: bool)
      returns (stopped: bool, ghost written: bool)
      requires Valid() && ContextOk(c, symbolize)
      modifies cursor, publisher, this`steps
      ensures var connect := Publisher.Outcome(attempt, HEADER_LENGTH + |publisher.hello|);
        !stopped ==> Valid() && steps == old(steps) + [LiveSession.Publish(connect, written)]
    {
      hide CanRun, Run, Initial, Enabled, After, Publisher.SessionPublisher.Valid, Receiver.SessionCoordinator.Valid,
           Publisher.Follows, Receiver.RuntimeSession.Holds, AllConvey, ContextOk, Symbolicated, Unrendered, CursorInv,
           PublishUpdate, EnsureConnected, DeltaOf, EntriesFor, AppDecode, IncomingEntries,
           Receiver.SessionCoordinator.Refines;
      ghost var s := Now();
      RunInv(origin, steps);
      var payload: seq<u8>;
      ghost var d: SymbolicatedProfile;
      stopped, payload, d :=
        Publisher.PublishUpdate(snapshot, c, symbolize, cursor, publisher, attempt, taken, transient, s);
      written := taken >= HEADER_LENGTH + |payload|;
      if stopped {
        return;
      }
      ghost var step := LiveSession.Publish(Publisher.Outcome(attempt, HEADER_LENGTH + |publisher.hello|), written);
      assert Enabled(s, step) && After(s, step) == PublishUpdate(s, step.connect, written) by {
        PublishStep(s, step);
      }
      SendsOnly(s, step);
      AppStays(s, After(s, step));
      hide At, OnlySent, Publisher.Refines;
      Took(step);
    }

    /** `publish_heap_checkpoint`; `content` is what the app counts in the profile.  One that is not accepted is
        not sent. */
    method SendCheckpoint(profile: Pprof.Profile, attempt: Publisher.Attempt, taken: nat, transient: bool,
                          ghost content: Snapshot)
      returns (stopped: bool)
      requires Valid() && Conveyed(IncomingEntries(AppDecode(Codec.Encode(profile))), content)
      modifies publisher, this`steps
      ensures var connect := Publisher.Outcome(attempt, HEADER_LENGTH + |publisher.hello|);
        var written := taken >= HEADER_LENGTH + |Codec.Encode(profile)|;
        !stopped ==>
          && Valid()
          && steps == old(steps)
             + if Heap.Accepts(profile) then [LiveSession.SendCheckpoint(content, connect, written)] else []
    {
      hide CanRun, Run, Initial, Enabled, After, Publisher.SessionPublisher.Valid, Receiver.SessionCoordinator.Valid,
           Publisher.Follows, Receiver.RuntimeSession.Holds, AllConvey, CursorInv, PublishCheckpoint, EnsureConnected,
           AppDecode, IncomingEntries, Conveyed, Heap.Accepts, Codec.Encode, Receiver.SessionCoordinator.Refines;
      ghost var s := Now();
      RunInv(origin, steps);
      var sent: Result<bool, ()>;
      stopped, sent := Publisher.PublishHeapCheckpoint(profile, publisher, attempt, taken, transient, cursor, s);
      if stopped {
        return;
      }
      if Heap.Accepts(profile) {
        ghost var step := LiveSession.SendCheckpoint(
          content, Publisher.Outcome(attempt, HEADER_LENGTH + |publisher.hello|),
          taken >= HEADER_LENGTH + |Codec.Encode(profile)|);
        CheckpointStep(s, step);
        SendsOnly(s, step);
        AppStays(s, After(s, step));
        hide At, OnlySent, Publisher.Refines;
        Took(step);
      }
    }

    /** `send`, for a frame that is no profile: the end of the capture, a final profile, a failure. */
    method SendOther(kind: FrameKind, payload: seq<u8>, attempt: Publisher.Attempt, taken: nat, transient: bool)
      requires Valid() && |payload| <= I64_MAX
      requires kind != Hello && kind != ProfileCheckpoint && kind != ProfileDelta
      modifies publisher, this`steps
      ensures var connect := Publisher.Outcome(attempt, HEADER_LENGTH + |publisher.hello|);
        && Valid()
        && steps == old(steps) + [LiveSession.SendOther(kind, connect, taken >= HEADER_LENGTH + |payload|)]
    {
      hide CanRun, Run, Initial, Enabled, After, Publisher.SessionPublisher.Valid, Receiver.SessionCoordinator.Valid,
           Publisher.Follows, Receiver.RuntimeSession.Holds, AllConvey, CursorInv, EnsureConnected, SendOn,
           Receiver.SessionCoordinator.Refines;
      ghost var s := Now();
      RunInv(origin, steps);
      var sent := Publisher.SendOther(kind, payload, publisher, attempt, taken, transient, cursor, s);
      ghost var step := LiveSession.SendOther(kind, Publisher.Outcome(attempt, HEADER_LENGTH + |publisher.hello|),
                                              taken >= HEADER_LENGTH + |payload|);
      OtherStep(s, step);
      SendsOnly(s, step);
      AppStays(s, After(s, step));
      hide At, OnlySent, Publisher.Refines;
      Took(step);
    }

    // What the app has been handed is its side of the step.
    lemma ProfilerStays(s: State, t: State)
      requires OnlyReceived(s, t) && snapshot == s.snapshot && app.Refines(t) && Publisher.Refines(cursor, publisher, s)
      ensures At(t)
    {
      hide AllConvey, Receiver.RuntimeSession.Holds;
    }

    /** The next frame of a connection, as the parser has read it. */
    method Deliver(c: nat, f: Frame, journaled: bool) returns (ok: bool)
      requires Valid() && Enabled(Now(), LiveSession.Deliver(c, journaled)) && Framed(f)
      requires c < |publisher.frames| && Now().delivered[c] < |publisher.frames[c]|
      requires f == publisher.frames[c][Now().delivered[c]]
      modifies this`steps, app, app.runtime, if app.runtime == null then {} else {app.runtime.accumulator}
      ensures ok ==> Valid() && steps == old(steps) + [LiveSession.Deliver(c, journaled)]
    {
      ghost var s := Now();
      ghost var step := LiveSession.Deliver(c, journaled);
      HandedOver(s, c, s.delivered[c]);
      ok := Hand(c, f, journaled, s.wires[c][s.delivered[c]], step);
    }

    /** Any frame of a connection, whenever its task runs. */
    method Late(c: nat, i: nat, f: Frame, journaled: bool) returns (ok: bool)
      requires Valid() && Enabled(Now(), LiveSession.Late(c, i, journaled)) && Framed(f)
      requires c < |publisher.frames| && i < |publisher.frames[c]| && f == publisher.frames[c][i]
      modifies this`steps, app, app.runtime, if app.runtime == null then {} else {app.runtime.accumulator}
      ensures ok ==> Valid() && steps == old(steps) + [LiveSession.Late(c, i, journaled)]
    {
      ghost var s := Now();
      ghost var step := LiveSession.Late(c, i, journaled);
      HandedOver(s, c, i);
      ok := Hand(c, f, journaled, s.wires[c][i], step);
    }

    // The frame conveys the machine's packet.
    lemma HandedOver(s: State, c: nat, i: nat)
      requires At(s) && c < |publisher.frames| && i < |publisher.frames[c]|
      ensures c < |s.wires| && i < |s.wires[c]| && Conveys(publisher.frames[c][i], s.wires[c][i])
    {
      hide Conveys, Receiver.SessionCoordinator.Refines;
    }

    method Hand(c: nat, f: Frame, journaled: bool, ghost p: Packet, ghost step: Step) returns (ok: bool)
      requires Valid() && Framed(f) && Conveys(f, p) && Enabled(Now(), step)
      requires HandedBy(Now(), step) == Some((c, p, journaled))
      modifies this`steps, app, app.runtime, if app.runtime == null then {} else {app.runtime.accumulator}
      ensures ok ==> Valid() && steps == old(steps) + [step]
    {
      hide CanRun, Run, Initial, Enabled, After, Publisher.SessionPublisher.Valid, Receiver.SessionCoordinator.Valid,
           Publisher.Follows, Receiver.RuntimeSession.Holds, AllConvey, Conveys, Framed, Receive,
           Receiver.SessionCoordinator.Refines, Receiver.SessionCoordinator.Kept;
      ghost var s := Now();
      ok := app.Receive(c, f, journaled, p, s);
      if !ok {
        return;
      }
      ReceiveStep(s, step);
      ReceivesOnly(s, step);
      AppRefines(s, c, p, journaled, step);
      ProfilerStays(s, After(s, step));
      hide At, OnlyReceived;
      Took(step);
    }

    // The app's side of the machine has no part in how much was delivered.
    lemma AppRefines(s: State, c: nat, p: Packet, journaled: bool, step: Step)
      requires Enabled(s, step) && HandedBy(s, step) == Some((c, p, journaled))
      requires app.Refines(Receive(s, c, p, journaled))
      ensures app.Refines(After(s, step))
    {
      hide AllConvey, Receive, Receiver.RuntimeSession.Holds;
    }

    /** The app stops, and starts again with its store and its journal. */
    method Restart()
      requires Valid()
      modifies this`app, this`steps
      ensures Valid() && steps == old(steps) + [LiveSession.Restart] && fresh(app)
    {
      hide CanRun, Run, Initial, Publisher.SessionPublisher.Valid, AllConvey, StreamBytes;
      app := new Receiver.SessionCoordinator(app.journal, app.stored, app.journaled);
      Took(LiveSession.Restart);
    }

    /** What the app shows, whatever has been called: at most what checkpoints brought and the cursor has
        committed, and without checkpoints at most what the cursor has committed. */
    lemma ShowsAtMostOnce(k: Key)
      requires Valid() && app.runtime != null
      ensures var t := Now(); var shown := Receiver.AppShown(app.runtime, k);
        && shown <= Restored(t, k) + Counted(cursor.counts, k)
        && (t.checkpoints == [] ==> shown <= Counted(cursor.counts, k) <= CountIn(snapshot, k))
    {
      hide Initial, CanRun, Run, Restored, Publisher.SessionPublisher.Valid, Publisher.Follows,
           Receiver.SessionCoordinator.Valid, Receiver.SessionCoordinator.Refines, Receiver.AppShown;
      Receiver.AppShowsAtMostOnce(app, origin, steps, k);
    }

    /** And exactly what was sent since the last checkpoint, once all of it was delivered in order. */
    lemma ShowsExactlyOnce(k: Key)
      requires Valid() && app.runtime != null && k.1 != []
      requires InTurn(origin, steps) && Now().sequence < U64_SIZE - 1
      requires |Now().delivered| == |Now().wires|
      requires forall i :: 0 <= i < |Now().wires| ==> Now().delivered[i] == |Now().wires[i]|
      ensures var t := Now(); var shown := Receiver.AppShown(app.runtime, k);
        && shown == Total(Since(Flat(t.wires)), k)
        && (t.checkpoints == [] ==> shown == Counted(cursor.counts, k))
    {
      hide Initial, CanRun, Run, InTurn, Publisher.SessionPublisher.Valid, Publisher.Follows,
           Receiver.SessionCoordinator.Valid, Receiver.SessionCoordinator.Refines, Receiver.AppShown;
      Receiver.AppShowsExactlyOnce(app, origin, steps, k);
    }
  }

  lemma CheckpointStep(s: State, step: Step)
    requires step.SendCheckpoint? && (s.stream.Some? ==> s.stream.value < |s.wires|)
    ensures Enabled(s, step) && After(s, step) == PublishCheckpoint(s, step.content, step.connect, step.written)
  {
  }

  lemma OtherStep(s: State, step: Step)
    requires step.SendOther? && (s.stream.Some? ==> s.stream.value < |s.wires|)
    requires step.kind != Hello && step.kind != ProfileCheckpoint && step.kind != ProfileDelta
    ensures Enabled(s, step)
    ensures var t := EnsureConnected(s, step.connect);
      && (t.stream.Some? ==> t.stream.value < |t.wires|)
      && After(s, step) == if t.stream.None? then t else SendOn(t, step.kind, map[], step.written)
  {
  }

  lemma ReceiveStep(s: State, step: Step)
    requires Enabled(s, step) && HandedBy(s, step).Some?
    ensures step.Deliver? || step.Late?
  {
  }

  lemma PublishStep(s: State, step: Step)
    requires step.Publish? && (s.stream.Some? ==> s.stream.value < |s.wires|)
    ensures Enabled(s, step) && After(s, step) == PublishUpdate(s, step.connect, step.written)
  {
  }
}
