/** The runner simulates the reference machine: same position, same answers, and the commands it
    emits are exactly the machine's commands that history does not have yet. */
module Simulation {
  import opened Basics
  import opened Workflow
  import opened Machine
  import opened HistoryScan
  import opened ScanFacts
  import opened Engine
  import D = Determinism

  /** How a future looks when `k` is known. */
  function View(k: Knowledge, cancelled: set<string>, h: Handle): FutureState {
    if h.kind == Timer then FutureState(h in k.resolved || h.id in cancelled, h.id in cancelled, QUIET)
    else if h in k.resolved then FutureState(true, false, k.resolved[h])
    else PENDING
  }

  ghost predicate SameBody(env: Env, r: RunnerState, m: Machine) {
    r.workflowId == env.workflowId && r.body == env.body &&
    r.log == m.log && r.phase == m.phase && r.counters == m.counters && r.handlers == m.handlers &&
    !r.deadlocked
  }

  ghost predicate SameCursors(a: map<string, nat>, b: map<string, nat>) {
    forall name :: GetOr(a, name, 0) == GetOr(b, name, 0)
  }

  ghost predicate SameFutures(k: Knowledge, futures: map<Handle, FutureState>, held: set<Handle>, cancelled: set<string>) {
    futures.Keys == held &&
    forall h :: h in held ==> futures[h] == View(k, cancelled, h)
  }

  /** Futures the body does not hold yet will be born with what `k` knows of them. */
  ghost predicate Foreseen(k: Knowledge, ops: Operations, held: set<Handle>) {
    forall h :: h !in held ==> ForeseenAt(k, OperationAt(ops, h), h)
  }

  ghost predicate ForeseenAt(k: Knowledge, record: OperationRecord, h: Handle) {
    if record.scheduled then record.resolved == (h in k.resolved) && record.outcome == GetOr(k.resolved, h, QUIET)
    else h !in k.resolved
  }

  /** Recorded values first, then live ones: together they are the world of the run. */
  ghost predicate SameWorld(world: World, records: Records, live: World) {
    (forall i: nat :: (if i < |records.sideEffects| then records.sideEffects[i] else live.side(i)) == world.side(i)) &&
    (forall i: nat :: (if i < |records.localActivities| then records.localActivities[i] else live.local(i)) == world.local(i))
  }

  /** The emit guards tell apart the commands history recorded, `past`, from new ones. */
  ghost predicate GuardsFutures(past: seq<Command>, ops: Operations, held: set<Handle>) {
    forall h :: h !in held ==> (OperationAt(ops, h).scheduled <==> h in Handles(past))
  }

  ghost predicate GuardsCancels(past: seq<Command>, ops: Operations, cancelled: set<string>) {
    forall id :: id !in cancelled ==> (CanceledIn(ops, id) <==> id in Cancels(past))
  }

  ghost predicate GuardsCounts(past: seq<Command>, records: Records) {
    records.extSignalsInitiated == Count(Signals, past) &&
    records.upsertsInitiated == Count(Upserts, past) &&
    |records.sideEffects| == Count(SideEffects, past) &&
    |records.localActivities| == Count(Locals, past)
  }

  /** Everything that connects the runner's futures and index with `k` and the recorded commands. */
  ghost predicate Aware(env: Env, k: Knowledge, past: seq<Command>, scan: Prescan, live: World,
                        futures: map<Handle, FutureState>, held: set<Handle>, cancelled: set<string>) {
    SameFutures(k, futures, held, cancelled) &&
    Foreseen(k, scan.operations, held) &&
    scan.signals == k.signals &&
    SameWorld(env.world, scan.records, live) &&
    GuardsFutures(past, scan.operations, held) &&
    GuardsCancels(past, scan.operations, cancelled) &&
    GuardsCounts(past, scan.records)
  }

  /** A command stream without its terminal command, which the task response adds. */
  function Open(commands: seq<Command>): seq<Command> {
    if commands != [] && commands[|commands| - 1].CloseWorkflow? then commands[..|commands| - 1] else commands
  }

  /** The part of `trace` that is new: past position `start` and past what history recorded. */
  function NewPart(past: seq<Command>, start: nat, trace: seq<Command>): seq<Command> {
    if Max(start, |past|) <= |trace| then trace[Max(start, |past|)..] else []
  }

  /** Since position `start` everything was produced, and exactly the unrecorded part was emitted. */
  ghost predicate Emitted(past: seq<Command>, start: nat, r: RunnerState, trace: seq<Command>) {
    start <= |trace| &&
    r.produced == Identities(trace[start..]) &&
    r.commands == Open(NewPart(past, start, trace))
  }

  /** The runner stands where the machine stands. Once the body has ended its futures no longer
      matter, and the engine stops keeping them up to date. */
  ghost predicate Simulates(env: Env, k: Knowledge, past: seq<Command>, start: nat, r: RunnerState, m: Machine) {
    Consistent(env, m) &&
    SameBody(env, r, m) &&
    SameCursors(r.cursors, m.cursors) &&
    (m.phase.Running? ==> Aware(env, k, past, r.scan, r.live, r.futures, m.futures, m.cancelled)) &&
    Emitted(past, start, r, m.trace)
  }

  // ---- Emit guards ---------------------------------------------------------------------------

  /** Whether the next command is recorded is decided by its position, whichever way it is asked. */
  lemma GuardDecides(past: seq<Command>, trace: seq<Command>, c: Command)
    requires Comparable(past, trace + [c])
    ensures |trace| < |past| ==>
              (c.Begin? ==> c.Future() in Handles(past)) &&
              (c.CancelTimer? ==> c.id in Cancels(past)) &&
              (forall tally :: Counted(tally, c) ==> Count(tally, trace) < Count(tally, past))
    ensures |trace| >= |past| ==>
              Handles(past) <= Handles(trace) && Cancels(past) <= Cancels(trace) &&
              (forall tally :: Count(tally, past) <= Count(tally, trace))
  {
    AppendCommand(trace, c);
    if |trace| < |past| {
      assert trace + [c] <= past;
      PrefixMonotone(trace + [c], past);
    } else {
      assert past <= trace;
      PrefixMonotone(past, trace);
    }
  }

  lemma IdentitiesAppend(commands: seq<Command>, c: Command)
    ensures Identities(commands + [c]) == Identities(commands) + [Identity(c)]
  {
  }

  /** Producing the next command of the trace, emitting it unless it is recorded. */
  lemma EmittedAppend(past: seq<Command>, start: nat, r: RunnerState, trace: seq<Command>, c: Command, r1: RunnerState)
    requires Emitted(past, start, r, trace) && forall i :: 0 <= i < |trace| ==> !trace[i].CloseWorkflow?
    requires r1.produced == r.produced + [Identity(c)]
    requires r1.commands == if |trace| < |past| || c.CloseWorkflow? then r.commands else r.commands + [c]
    ensures Emitted(past, start, r1, trace + [c])
  {
    assert (trace + [c])[start..] == trace[start..] + [c];
    IdentitiesAppend(trace[start..], c);
    var n := Max(start, |past|);
    if n <= |trace| {
      assert (trace + [c])[n..] == trace[n..] + [c];
      assert (trace[n..] + [c])[..|trace[n..]|] == trace[n..];
    } else {
      assert NewPart(past, start, trace + [c]) == [];
    }
  }

  // ---- One operation -------------------------------------------------------------------------

  /** Performing the pending operation is a step of the machine, or both wait. */
  ghost predicate Advances(env: Env, k: Knowledge, past: seq<Command>, start: nat, r: RunnerState, m: Machine)
    requires r.phase.Running?
  {
    match Perform(r)
    case Went(r1) =>
      !Settled(k, m) && r1.scan == r.scan && r1.live == r.live && Simulates(env, k, past, start, r1, Step(env, k, m))
    case Yielded(r1) =>
      Parked(k, m) && r1.scan == r.scan && r1.live == r.live && Simulates(env, k, past, start, r1, m)
  }

  lemma NoCloseYet(env: Env, m: Machine)
    requires Consistent(env, m) && m.phase.Running?
    ensures forall i :: 0 <= i < |m.trace| ==> !m.trace[i].CloseWorkflow?
  {
  }

  /** A new future joins: it looks as `k` says, and the old ones are untouched. */
  lemma AwareOfNew(env: Env, k: Knowledge, past: seq<Command>, scan: Prescan, live: World,
                   futures: map<Handle, FutureState>, held: set<Handle>, cancelled: set<string>, h: Handle)
    requires Aware(env, k, past, scan, live, futures, held, cancelled)
    requires h !in held && (h.kind == Timer ==> h.id !in cancelled)
    ensures Aware(env, k, past, scan, live, futures[h := FirstState(OperationAt(scan.operations, h))], held + {h}, cancelled)
    ensures OperationAt(scan.operations, h).scheduled <==> h in Handles(past)
  {
    assert ForeseenAt(k, OperationAt(scan.operations, h), h);
    assert FirstState(OperationAt(scan.operations, h)) == View(k, cancelled, h);
  }

  lemma AwareOfCancel(env: Env, k: Knowledge, past: seq<Command>, scan: Prescan, live: World,
                      futures: map<Handle, FutureState>, held: set<Handle>, cancelled: set<string>, id: string)
    requires Aware(env, k, past, scan, live, futures, held, cancelled)
    requires Handle(Timer, id) in held && id !in cancelled
    ensures var h := Handle(Timer, id);
            Aware(env, k, past, scan, live, futures[h := futures[h].(ready := true, cancelled := true)], held, cancelled + {id})
    ensures CanceledIn(scan.operations, id) <==> id in Cancels(past)
  {
    var h := Handle(Timer, id);
    var futures' := futures[h := futures[h].(ready := true, cancelled := true)];
    forall x | x in held
      ensures futures'[x] == View(k, cancelled + {id}, x)
    {
      assert futures[x] == View(k, cancelled, x);
    }
    assert futures'.Keys == held;
  }

  lemma AdvanceSchedule(env: Env, k: Knowledge, past: seq<Command>, start: nat, r: RunnerState, m: Machine)
    requires Simulates(env, k, past, start, r, m) && m.phase.Running? && m.phase.op.Schedule?
    requires Comparable(past, Step(env, k, m).trace)
    ensures Advances(env, k, past, start, r, m)
  {
    StepConsistent(env, k, m);
    NoCloseYet(env, m);
    var call := m.phase.op.call;
    NextHandleIsNew(env, m, KindOf(call));
    var (r1, h) := StartOperation(r, call);
    var c := Begin(h.id, call);
    GuardDecides(past, m.trace, c);
    AwareOfNew(env, k, past, r.scan, r.live, r.futures, m.futures, m.cancelled, h);
    EmittedAppend(past, start, r, m.trace, c, r1);
  }

  /** The timer is cancelled: its future becomes ready, and the command is emitted once. */
  lemma Canceled(env: Env, k: Knowledge, past: seq<Command>, start: nat, r: RunnerState, m: Machine, id: string,
                 r1: RunnerState, m1: Machine)
    requires Simulates(env, k, past, start, r, m) && m.phase.Running?
    requires Handle(Timer, id) in m.futures && id !in m.cancelled
    requires Consistent(env, m1) && SameBody(env, r1, m1) && Comparable(past, m1.trace)
    requires m1.trace == m.trace + [CancelTimer(id)] && m1.futures == m.futures && m1.cursors == m.cursors
    requires m1.cancelled == m.cancelled + {id}
    requires r1.scan == r.scan && r1.live == r.live && r1.cursors == r.cursors
    requires var h := Handle(Timer, id);
             r1.futures == r.futures[h := r.futures[h].(ready := true, cancelled := true)]
    requires r1.produced == r.produced + [Identity(CancelTimer(id))]
    requires r1.commands == if CanceledIn(r.scan.operations, id) then r.commands else r.commands + [CancelTimer(id)]
    ensures Simulates(env, k, past, start, r1, m1)
  {
    hide SameFutures, Foreseen, GuardsFutures, GuardsCancels, GuardsCounts, SameWorld, SameCursors;
    NoCloseYet(env, m);
    GuardDecides(past, m.trace, CancelTimer(id));
    AwareOfCancel(env, k, past, r.scan, r.live, r.futures, m.futures, m.cancelled, id);
    EmittedAppend(past, start, r, m.trace, CancelTimer(id), r1);
  }

  lemma AdvanceCancelPending(env: Env, k: Knowledge, past: seq<Command>, start: nat, r: RunnerState, m: Machine)
    requires Simulates(env, k, past, start, r, m) && m.phase.Running? && m.phase.op.Cancel?
    requires Comparable(past, Step(env, k, m).trace)
    requires Handle(Timer, m.phase.op.timer) in m.futures && m.phase.op.timer !in m.cancelled
    ensures Advances(env, k, past, start, r, m)
  {
    var id := m.phase.op.timer;
    StepConsistent(env, k, m);
    assert r.futures[Handle(Timer, id)] == View(k, m.cancelled, Handle(Timer, id));
    hide Simulates, Consistent, Comparable, Produce, CanceledIn;
    Canceled(env, k, past, start, r, m, id, Perform(r).state, Step(env, k, m));
  }

  lemma AdvanceCancel(env: Env, k: Knowledge, past: seq<Command>, start: nat, r: RunnerState, m: Machine)
    requires Simulates(env, k, past, start, r, m) && m.phase.Running? && m.phase.op.Cancel?
    requires Comparable(past, Step(env, k, m).trace)
    ensures Advances(env, k, past, start, r, m)
  {
    var h := Handle(Timer, m.phase.op.timer);
    if h in m.futures && h.id !in m.cancelled {
      AdvanceCancelPending(env, k, past, start, r, m);
    } else {
      StepConsistent(env, k, m);
      assert h in m.futures ==> r.futures[h] == View(k, m.cancelled, h);
    }
  }

  /** A counted command was produced: the emit guard looked at its ordinal. */
  lemma Produced(env: Env, k: Knowledge, past: seq<Command>, start: nat, r: RunnerState, m: Machine,
                 tally: Tally, c: Command, r1: RunnerState, m1: Machine, recorded: bool)
    requires Simulates(env, k, past, start, r, m) && m.phase.Running?
    requires Consistent(env, m1) && SameBody(env, r1, m1) && Comparable(past, m1.trace)
    requires m1.trace == m.trace + [c] && m1.futures == m.futures && m1.cancelled == m.cancelled && m1.cursors == m.cursors
    requires r1.scan == r.scan && r1.live == r.live && r1.futures == r.futures && r1.cursors == r.cursors
    requires Counted(tally, c) && recorded == (Count(tally, m.trace) < Count(tally, past))
    requires r1.produced == r.produced + [Identity(c)] && r1.commands == if recorded then r.commands else r.commands + [c]
    ensures Simulates(env, k, past, start, r1, m1)
  {
    hide SameFutures, Foreseen, GuardsFutures, GuardsCancels, GuardsCounts, SameWorld, SameCursors;
    NoCloseYet(env, m);
    GuardDecides(past, m.trace, c);
    EmittedAppend(past, start, r, m.trace, c, r1);
  }

  lemma AdvanceSignal(env: Env, k: Knowledge, past: seq<Command>, start: nat, r: RunnerState, m: Machine)
    requires Simulates(env, k, past, start, r, m) && m.phase.Running? && m.phase.op.Signal?
    requires Comparable(past, Step(env, k, m).trace)
    ensures Advances(env, k, past, start, r, m)
  {
    StepConsistent(env, k, m);
    var op := m.phase.op;
    Produced(env, k, past, start, r, m, Signals, SignalExternalWorkflow(op.workflowId, op.signalName, op.input),
             Perform(r).state, Step(env, k, m), r.counters.signals < r.scan.records.extSignalsInitiated);
  }

  lemma AdvanceUpsert(env: Env, k: Knowledge, past: seq<Command>, start: nat, r: RunnerState, m: Machine)
    requires Simulates(env, k, past, start, r, m) && m.phase.Running? && m.phase.op.Upsert?
    requires Comparable(past, Step(env, k, m).trace)
    ensures Advances(env, k, past, start, r, m)
  {
    StepConsistent(env, k, m);
    Produced(env, k, past, start, r, m, Upserts, UpsertSearchAttributes(m.phase.op.attributes),
             Perform(r).state, Step(env, k, m), r.counters.upserts < r.scan.records.upsertsInitiated);
  }

  lemma AdvanceSideEffect(env: Env, k: Knowledge, past: seq<Command>, start: nat, r: RunnerState, m: Machine)
    requires Simulates(env, k, past, start, r, m) && m.phase.Running? && m.phase.op.SideEffect?
    requires Comparable(past, Step(env, k, m).trace)
    ensures Advances(env, k, past, start, r, m)
  {
    StepConsistent(env, k, m);
    var (_, v) := TakeSideEffect(r);
    assert v == env.world.side(m.counters.sideEffects);
    Produced(env, k, past, start, r, m, SideEffects, RecordMarker(SideEffectMarker(v)),
             Perform(r).state, Step(env, k, m), r.counters.sideEffects < |r.scan.records.sideEffects|);
  }

  lemma AdvanceLocalActivity(env: Env, k: Knowledge, past: seq<Command>, start: nat, r: RunnerState, m: Machine)
    requires Simulates(env, k, past, start, r, m) && m.phase.Running? && m.phase.op.LocalActivity?
    requires Comparable(past, Step(env, k, m).trace)
    ensures Advances(env, k, past, start, r, m)
  {
    StepConsistent(env, k, m);
    var (_, o) := TakeLocalActivity(r);
    assert o == env.world.local(m.counters.locals);
    Produced(env, k, past, start, r, m, Locals, RecordMarker(LocalActivityMarker(o)),
             Perform(r).state, Step(env, k, m), r.counters.locals < |r.scan.records.localActivities|);
  }

  lemma AdvanceGet(env: Env, k: Knowledge, past: seq<Command>, start: nat, r: RunnerState, m: Machine)
    requires Simulates(env, k, past, start, r, m) && m.phase.Running? && m.phase.op.Get?
    ensures Advances(env, k, past, start, r, m)
  {
    hide Tallied, AllMinted, WellNumbered, EndsOnce, CancelsHeld;
    var h := m.phase.op.future;
    if h in m.futures {
      assert r.futures[h] == View(k, m.cancelled, h);
    }
    if !Settled(k, m) {
      StepConsistent(env, k, m);
    }
  }

  lemma CursorSet(a: map<string, nat>, b: map<string, nat>, name: string, v: nat)
    requires SameCursors(a, b)
    ensures SameCursors(a[name := v], b[name := v])
    ensures GetOr(b, name, 0) == v ==> SameCursors(a[name := v], b)
  {
    forall x
      ensures GetOr(a[name := v], x, 0) == GetOr(b[name := v], x, 0)
      ensures GetOr(b, name, 0) == v ==> GetOr(a[name := v], x, 0) == GetOr(b, x, 0)
    {
      assert GetOr(a, x, 0) == GetOr(b, x, 0);
    }
  }

  lemma AdvanceReceive(env: Env, k: Knowledge, past: seq<Command>, start: nat, r: RunnerState, m: Machine)
    requires Simulates(env, k, past, start, r, m) && m.phase.Running? && m.phase.op.Receive?
    ensures Advances(env, k, past, start, r, m)
  {
    hide Tallied, AllMinted, WellNumbered, EndsOnce, CancelsHeld;
    var name := m.phase.op.name;
    var c := Cursor(m, name);
    assert GetOr(r.cursors, name, 0) == c;
    CursorSet(r.cursors, m.cursors, name, c);
    CursorSet(r.cursors, m.cursors, name, c + 1);
    if !Settled(k, m) {
      StepConsistent(env, k, m);
    }
  }

  lemma AdvanceHandler(env: Env, k: Knowledge, past: seq<Command>, start: nat, r: RunnerState, m: Machine)
    requires Simulates(env, k, past, start, r, m) && m.phase.Running? && m.phase.op.SetUpdateHandler?
    ensures Advances(env, k, past, start, r, m)
  {
    hide Tallied, AllMinted, WellNumbered, EndsOnce, CancelsHeld;
    StepConsistent(env, k, m);
  }

  lemma AdvanceClose(env: Env, k: Knowledge, past: seq<Command>, start: nat, r: RunnerState, m: Machine)
    requires Simulates(env, k, past, start, r, m) && m.phase.Running? && m.phase.op.Close?
    ensures Advances(env, k, past, start, r, m)
  {
    StepConsistent(env, k, m);
    NoCloseYet(env, m);
    EmittedAppend(past, start, r, m.trace, CloseWorkflow(m.phase.op.how), Finish(r, m.phase.op.how));
  }

  lemma Advance(env: Env, k: Knowledge, past: seq<Command>, start: nat, r: RunnerState, m: Machine)
    requires Simulates(env, k, past, start, r, m) && m.phase.Running?
    requires !Settled(k, m) ==> Comparable(past, Step(env, k, m).trace)
    ensures Advances(env, k, past, start, r, m)
  {
    match m.phase.op
    case Schedule(_) => AdvanceSchedule(env, k, past, start, r, m);
    case Cancel(_) => AdvanceCancel(env, k, past, start, r, m);
    case Signal(_, _, _) => AdvanceSignal(env, k, past, start, r, m);
    case Upsert(_) => AdvanceUpsert(env, k, past, start, r, m);
    case SideEffect => AdvanceSideEffect(env, k, past, start, r, m);
    case LocalActivity(_, _) => AdvanceLocalActivity(env, k, past, start, r, m);
    case SetUpdateHandler(_) => AdvanceHandler(env, k, past, start, r, m);
    case Get(_) => AdvanceGet(env, k, past, start, r, m);
    case Receive(_) => AdvanceReceive(env, k, past, start, r, m);
    case Close(_) => AdvanceClose(env, k, past, start, r, m);
  }

  // ---- One burst -----------------------------------------------------------------------------

  /** `r` goes on to `r1` without yielding. */
  ghost predicate GoesOn(r: RunnerState, r1: RunnerState) {
    r.phase.Running? && Perform(r) == Went(r1)
  }

  /** `r` yields, or is at its end, as `r1`. */
  ghost predicate Stops(r: RunnerState, r1: RunnerState) {
    if r.phase.Finished? then r1 == r else Perform(r) == Yielded(r1)
  }

  lemma ResumeCases(r: RunnerState, r1: RunnerState, budget: nat)
    ensures Stops(r, r1) ==> Resume(r, budget) == r1
    ensures GoesOn(r, r1) ==> Resume(r, budget) == if budget == 0 then r1.(deadlocked := true) else Resume(r1, budget - 1)
  {
  }

  /** One move of the runner against the machine. */
  lemma Move(env: Env, k: Knowledge, past: seq<Command>, start: nat, r: RunnerState, m: Machine) returns (r1: RunnerState)
    requires Simulates(env, k, past, start, r, m)
    requires !Settled(k, m) ==> Comparable(past, Step(env, k, m).trace)
    ensures r1.scan == r.scan && r1.live == r.live && !r1.deadlocked
    ensures Settled(k, m) ==> Stops(r, r1) && Simulates(env, k, past, start, r1, m)
    ensures !Settled(k, m) ==> GoesOn(r, r1) && Simulates(env, k, past, start, r1, Step(env, k, m))
  {
    hide Step, Perform, Aware, Consistent, SameCursors, Emitted;
    if m.phase.Finished? {
      r1 := r;
    } else {
      Advance(env, k, past, start, r, m);
      r1 := Perform(r).state;
    }
  }

  /** However far the body goes under `k`, it stays in line with the recorded commands. */
  ghost predicate OnTrack(env: Env, k: Knowledge, past: seq<Command>, m: Machine) {
    forall n: nat :: Comparable(past, Iterate(env, k, m, n).trace)
  }

  lemma TrackStep(env: Env, k: Knowledge, past: seq<Command>, m: Machine)
    requires OnTrack(env, k, past, m) && !Settled(k, m)
    ensures OnTrack(env, k, past, Step(env, k, m)) && Comparable(past, Step(env, k, m).trace)
  {
    hide Settled, Step, Comparable;
    var m1 := Step(env, k, m);
    forall n: nat
      ensures Comparable(past, Iterate(env, k, m1, n).trace)
    {
      assert Iterate(env, k, m1, n) == Iterate(env, k, m, n + 1);
    }
    assert Iterate(env, k, m1, 0) == m1;
  }

  /** A resume brings the runner to where the machine comes to rest; it overruns the deadlock timeout
      exactly when the burst of the machine is longer than that. */
  lemma {:induction false} ResumeFollows(env: Env, k: Knowledge, past: seq<Command>, start: nat,
                                         r: RunnerState, m: Machine, budget: nat)
    returns (r': RunnerState, end: Machine)
    requires Simulates(env, k, past, start, r, m) && OnTrack(env, k, past, m)
    ensures r' == Resume(r, budget) && r'.scan == r.scan && r'.live == r.live && end == Iterate(env, k, m, budget)
    ensures r'.deadlocked <==> !Fits(env, k, m, budget)
    ensures r'.deadlocked || Simulates(env, k, past, start, r', end)
    decreases budget
  {
    hide Perform, Resume, Step, Simulates, OnTrack, Comparable;
    if !Settled(k, m) {
      TrackStep(env, k, past, m);
    }
    var r1 := Move(env, k, past, start, r, m);
    ResumeCases(r, r1, budget);
    if Settled(k, m) {
      r', end := r1, m;
    } else if budget == 0 {
      r', end := r1.(deadlocked := true), m;
    } else {
      r', end := ResumeFollows(env, k, past, start, r1, Step(env, k, m), budget - 1);
    }
  }

  /** Running an update handler is the same on both sides. */
  lemma UpdateFollows(env: Env, k: Knowledge, past: seq<Command>, start: nat, r: RunnerState, m: Machine,
                      name: string, args: Payloads)
    requires Simulates(env, k, past, start, r, m)
    ensures Simulates(env, k, past, start, RunUpdateHandler(r, name, args), RunUpdate(m, name, args))
    ensures Settled(k, RunUpdate(m, name, args)) == Settled(k, m)
  {
  }
}
