/** What each operation of the workflow runner does to its state
    (src/internal/workflow_task_handler.cpp, class WorkflowRunner), as functions on values. */
module Engine {
  import opened Basics
  import opened Workflow
  import opened Machine
  import opened HistoryScan
  import opened ScanFacts
  import D = Determinism

  /** The result slot of an operation in flight. */
  datatype FutureState = FutureState(ready: bool, cancelled: bool, outcome: Outcome)

  const PENDING := FutureState(false, false, QUIET)

  /** The fields of a runner. `live` is what side-effect functions and local activities produce when
      they really run; `log` and `phase` are the suspended coroutine and its result. */
  datatype RunnerState = RunnerState(
    workflowId: string,
    body: Body,
    live: World,
    scan: Prescan,
    log: seq<Input>,
    phase: Phase,
    counters: Counters,
    futures: map<Handle, FutureState>,
    cursors: map<string, nat>,
    handlers: set<string>,
    commands: seq<Command>,              // commands_: what this task will answer with
    produced: seq<D.CommandEvent>,       // produced_commands_: what this task went through
    deadlocked: bool)

  function NewRunner(workflowId: string, body: Body, live: World, scan: Prescan): RunnerState {
    RunnerState(workflowId, body, live, scan, [], Running(body([])), ZERO, map[], map[], {}, [], [], false)
  }

  function Answer(r: RunnerState, input: Input): RunnerState {
    r.(log := r.log + [input], phase := Running(r.body(r.log + [input])))
  }

  /** Every command is produced; it is emitted only if history does not already have it. */
  function Produce(r: RunnerState, c: Command, recorded: bool): RunnerState {
    r.(produced := r.produced + [Identity(c)], commands := if recorded then r.commands else r.commands + [c])
  }

  /** The future of an operation just scheduled: resolved at once if history already resolved it. */
  function FirstState(record: OperationRecord): FutureState {
    if record.scheduled && record.resolved then FutureState(true, false, record.outcome) else PENDING
  }

  function StartOperation(r: RunnerState, call: Call): (RunnerState, Handle) {
    var h := HandleOf(r.workflowId, KindOf(call), CounterOf(r.counters, KindOf(call)));
    var record := OperationAt(r.scan.operations, h);
    var r1 := Produce(r, Begin(h.id, call), record.scheduled);
    (r1.(counters := Bump(r.counters, KindOf(call)), futures := r.futures[h := FirstState(record)]), h)
  }

  function CancelTimerFuture(r: RunnerState, id: string): RunnerState {
    var h := Handle(Timer, id);
    if h !in r.futures || r.futures[h].cancelled then r
    else Produce(r, CancelTimer(id), CanceledIn(r.scan.operations, id)).(
           futures := r.futures[h := r.futures[h].(ready := true, cancelled := true)])
  }

  function SignalExternal(r: RunnerState, workflowId: string, name: string, input: Payloads): RunnerState {
    Produce(r, SignalExternalWorkflow(workflowId, name, input), r.counters.signals < r.scan.records.extSignalsInitiated).(
      counters := r.counters.(signals := r.counters.signals + 1))
  }

  function UpsertAttributes(r: RunnerState, attributes: map<string, Payload>): RunnerState {
    Produce(r, UpsertSearchAttributes(attributes), r.counters.upserts < r.scan.records.upsertsInitiated).(
      counters := r.counters.(upserts := r.counters.upserts + 1))
  }

  /** `Context::SideEffect`: the recorded value if there is one, else a fresh one, recorded now. */
  function TakeSideEffect(r: RunnerState): (RunnerState, Payload) {
    var n := r.counters.sideEffects;
    var v := if n < |r.scan.records.sideEffects| then r.scan.records.sideEffects[n] else r.live.side(n);
    (Produce(r, RecordMarker(SideEffectMarker(v)), n < |r.scan.records.sideEffects|).(
       counters := r.counters.(sideEffects := n + 1)), v)
  }

  function TakeLocalActivity(r: RunnerState): (RunnerState, Outcome) {
    var n := r.counters.locals;
    var o := if n < |r.scan.records.localActivities| then r.scan.records.localActivities[n] else r.live.local(n);
    (Produce(r, RecordMarker(LocalActivityMarker(o)), n < |r.scan.records.localActivities|).(
       counters := r.counters.(locals := n + 1)), o)
  }

  /** `TryConsumeSignal`: polling an exhausted queue still creates its cursor. */
  function TryConsumeSignal(r: RunnerState, name: string): (RunnerState, Option<Payloads>) {
    if name !in r.scan.signals then (r, None)
    else
      var c := GetOr(r.cursors, name, 0);
      if c < |r.scan.signals[name]| then (r.(cursors := r.cursors[name := c + 1]), Some(r.scan.signals[name][c]))
      else (r.(cursors := r.cursors[name := c]), None)
  }

  /** The terminal command is produced here but emitted by the task response. */
  function Finish(r: RunnerState, how: Closing): RunnerState {
    r.(produced := r.produced + [Identity(CloseWorkflow(how))], phase := Finished(how))
  }

  /** What the body's pending operation came to: it went on, or it yielded. */
  datatype Attempt = Went(state: RunnerState) | Yielded(state: RunnerState)

  function Perform(r: RunnerState): Attempt
    requires r.phase.Running?
  {
    match r.phase.op
    case Schedule(call) =>
      var (r1, h) := StartOperation(r, call);
      Went(Answer(r1, Started(h)))
    case Cancel(timer) => Went(Answer(CancelTimerFuture(r, timer), Acknowledged))
    case Signal(workflowId, name, input) => Went(Answer(SignalExternal(r, workflowId, name, input), Acknowledged))
    case Upsert(attributes) => Went(Answer(UpsertAttributes(r, attributes), Acknowledged))
    case SideEffect =>
      var (r1, v) := TakeSideEffect(r);
      Went(Answer(r1, Value(v)))
    case LocalActivity(_, _) =>
      var (r1, o) := TakeLocalActivity(r);
      Went(Answer(r1, Resolved(o)))
    case SetUpdateHandler(name) => Went(Answer(r.(handlers := r.handlers + {name}), Acknowledged))
    case Get(h) =>
      if h in r.futures && r.futures[h].ready then Went(Answer(r, Resolved(r.futures[h].outcome))) else Yielded(r)
    case Receive(name) =>
      var (r1, got) := TryConsumeSignal(r, name);
      (match got
       case Some(payloads) => Went(Answer(r1, Received(payloads)))
       case None => Yielded(r1))
    case Close(how) => Went(Finish(r, how))
  }

  /** `ResumeCoroutine`: run the body until it yields or ends. More than `budget` operations without
      yielding overrun the deadlock timeout. */
  function Resume(r: RunnerState, budget: nat): RunnerState
    decreases budget
  {
    if r.phase.Finished? then r
    else
      match Perform(r)
      case Yielded(r1) => r1
      case Went(r1) => if budget == 0 then r1.(deadlocked := true) else Resume(r1, budget - 1)
  }

  /** An update handler against the parked body. */
  function RunUpdateHandler(r: RunnerState, name: string, args: Payloads): RunnerState {
    if r.phase.Running? && name in r.handlers then r.(log := r.log + [Updated(name, args)]) else r
  }

  function ResolveFuture(r: RunnerState, h: Handle, outcome: Outcome): RunnerState {
    if h in r.futures then r.(futures := r.futures[h := r.futures[h].(ready := true, outcome := outcome)]) else r
  }

  /** The cases of `ApplyEventToState` that resolve a future. */
  function ApplyResolution(r: RunnerState, how: Resolving): RunnerState {
    match how
    case ActivityResolved(sid, res) =>
      if sid in r.scan.index.activities then
        ResolveFuture(r, Handle(Activity, r.scan.index.activities[sid]), ActivityOutcome(res))
      else r
    case NexusResolved(sid, res) =>
      if sid in r.scan.index.nexusOps then
        ResolveFuture(r, Handle(Nexus, r.scan.index.nexusOps[sid]), NexusOutcome(res))
      else r
    case ChildResolved(id, ending) =>
      var h := Handle(Child, id);
      if ChildEndingHandled(ending) && h in r.futures then
        ResolveFuture(r, h, Overwrite(r.futures[h].outcome, ChildOutcome(ending)))
      else r
    case TimerFired(id) =>
      var h := Handle(Timer, id);
      if h in r.futures then r.(futures := r.futures[h := r.futures[h].(ready := true)]) else r
  }

  /** The cases that note a recorded command: only the correlation maps and timers are touched. */
  function ApplyRecording(r: RunnerState, ev: Event, record: Recording): RunnerState {
    match record
    case ActivityScheduled(_, _) => r.(scan := r.scan.(index := IndexNext(r.scan.index, ev)))
    case NexusScheduled(_, _, _) =>
      var id := Decimal(r.scan.index.nexusOpsScheduled);
      r.(scan := r.scan.(index := IndexNext(r.scan.index, ev),
                         operations := r.scan.operations.(
                           nexusOps := HistoryScan.Schedule(r.scan.operations.nexusOps, id))))
    case TimerCanceled(id) =>
      var h := Handle(Timer, id);
      if h in r.futures then r.(futures := r.futures[h := r.futures[h].(ready := true, cancelled := true)]) else r
    case _ => r
  }

  /** `ApplyEventToState`. */
  function ApplyEvent(r: RunnerState, ev: Event): RunnerState {
    match ev.attributes
    case CommandRecorded(record) => ApplyRecording(r, ev, record)
    case FutureResolved(how) => ApplyResolution(r, how)
    case Signaled(name, payloads) =>
      r.(scan := r.scan.(signals := r.scan.signals[name := GetOr(r.scan.signals, name, []) + [payloads]]))
    case _ => r
  }

  /** One event of `ApplyEvents`: events up to the checkpoint are skipped. */
  function ConsumeEvent(r: RunnerState, ev: Event): RunnerState {
    if ev.id <= r.scan.lastEventId then r
    else
      var r1 := ApplyEvent(r, ev);
      r1.(scan := r1.scan.(lastEventId := ev.id))
  }

  function ApplyEvents(r: RunnerState, events: History): RunnerState {
    if events == [] then r
    else ConsumeEvent(ApplyEvents(r, events[..|events| - 1]), events[|events| - 1])
  }

  function Clear(r: RunnerState): RunnerState {
    r.(commands := [], produced := [])
  }

  /** Sticky continuation. */
  function ApplyAndResume(r: RunnerState, events: History, budget: nat): RunnerState {
    Resume(ApplyEvents(Clear(r), events), budget)
  }

  function ReplayStepOn(r: RunnerState, step: ReplayStep, budget: nat): RunnerState {
    if r.phase.Finished? || r.deadlocked then r
    else
      var r1 := match step
                case ReplayUpdate(name, args) => RunUpdateHandler(r, name, args)
                case ReplayEvent(ev) => ApplyEvent(r, ev);
      Resume(r1, budget)
  }

  /** `ReapplyHistoricalUpdates`. */
  function Reapply(r: RunnerState, timeline: seq<ReplayStep>, budget: nat): RunnerState {
    if timeline == [] then r
    else ReplayStepOn(Reapply(r, timeline[..|timeline| - 1], budget), timeline[|timeline| - 1], budget)
  }

  /** Full replay. */
  function Run(r: RunnerState, budget: nat): RunnerState {
    Reapply(Resume(Clear(r), budget), r.scan.timeline, budget)
  }

  /** `CheckDeterminism` finds no divergence. */
  ghost predicate Deterministic(r: RunnerState) {
    D.Reproduces(r.produced, r.scan.records.commands)
  }
}
