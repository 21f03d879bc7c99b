/** What a history says, twice: declaratively (`Know`, `Created`, `Recorded`, ...) and as the index
    that `ScanHistory` builds in one pass (src/internal/workflow_task_handler.cpp:145-533). */
module HistoryScan {
  import opened Basics
  import opened Workflow
  import opened Machine
  import D = Determinism

  // ---- Declarative reading -------------------------------------------------------------------

  predicate SchedulesNexus(a: Attributes) {
    a.CommandRecorded? && a.record.NexusScheduled?
  }

  predicate SchedulesActivity(a: Attributes) {
    a.CommandRecorded? && a.record.ActivityScheduled?
  }

  function NexusCount(h: History): nat {
    if h == [] then 0
    else NexusCount(h[..|h| - 1]) + if SchedulesNexus(h[|h| - 1].attributes) then 1 else 0
  }

  /** The future a resolution names after `past`, with its outcome. Activities and Nexus operations
      are found through the event that scheduled them. */
  function Resolves(past: History, how: Resolving): Option<(Handle, Outcome)> {
    match how
    case ActivityResolved(sid, r) =>
      if 1 <= sid <= |past| && SchedulesActivity(past[sid - 1].attributes) then
        Some((Handle(Activity, past[sid - 1].attributes.record.id), ActivityOutcome(r)))
      else None
    case TimerFired(id) => Some((Handle(Timer, id), QUIET))
    case ChildResolved(id, ending) =>
      if ChildEndingHandled(ending) then Some((Handle(Child, id), ChildOutcome(ending))) else None
    case NexusResolved(sid, r) =>
      if 1 <= sid <= |past| && SchedulesNexus(past[sid - 1].attributes) then
        Some((Handle(Nexus, Decimal(NexusCount(past[..sid - 1]))), NexusOutcome(r)))
      else None
  }

  function Learn(k: Knowledge, past: History, a: Attributes): Knowledge {
    match a
    case Signaled(name, payloads) => k.(signals := k.signals[name := Pending(k, name) + [payloads]])
    case FutureResolved(how) =>
      (match Resolves(past, how)
       case Some(r) => k.(resolved := k.resolved[r.0 := r.1])
       case None => k)
    case _ => k
  }

  /** Everything a history says about resolutions and signals. */
  function Know(h: History): Knowledge {
    if h == [] then NOTHING
    else Learn(Know(h[..|h| - 1]), h[..|h| - 1], h[|h| - 1].attributes)
  }

  /** No future is resolved twice (the server closes each operation once). */
  ghost predicate ResolvedOnce(h: History) {
    forall i :: 0 <= i < |h| ==> ResolvedOnceAt(h, i)
  }

  ghost predicate ResolvedOnceAt(h: History, i: nat)
    requires i < |h|
  {
    h[i].attributes.FutureResolved? ==>
      match Resolves(h[..i], h[i].attributes.how)
      case Some(r) => r.0 !in Know(h[..i]).resolved
      case None => true
  }

  /** The futures that the scheduling events of a history created. */
  function Created(h: History): set<Handle> {
    if h == [] then {}
    else Created(h[..|h| - 1]) + CreatedBy(h[..|h| - 1], h[|h| - 1].attributes)
  }

  function CreatedBy(past: History, a: Attributes): set<Handle> {
    if !a.CommandRecorded? then {}
    else
      match a.record
      case ActivityScheduled(id, _) => {Handle(Activity, id)}
      case TimerStarted(id) => {Handle(Timer, id)}
      case ChildInitiated(id, _) => {Handle(Child, id)}
      case NexusScheduled(_, _, _) => {Handle(Nexus, Decimal(NexusCount(past)))}
      case _ => {}
  }

  function CanceledTimers(h: History): set<string> {
    if h == [] then {}
    else CanceledTimers(h[..|h| - 1]) + CanceledBy(h[|h| - 1].attributes)
  }

  function CanceledBy(a: Attributes): set<string> {
    if a.CommandRecorded? && a.record.TimerCanceled? then {a.record.id} else {}
  }

  /** What a history recorded of the workflow's commands, in order. */
  function Recorded(h: History): seq<Recording> {
    if h == [] then []
    else Recorded(h[..|h| - 1]) +
         if h[|h| - 1].attributes.CommandRecorded? then [h[|h| - 1].attributes.record] else []
  }

  /** The history recorded exactly these commands. */
  ghost predicate RecordsExactly(h: History, commands: seq<Command>) {
    |Recorded(h)| == |commands| &&
    forall i :: 0 <= i < |commands| ==> Recorded(h)[i] == RecordingOf(commands[i])
  }

  predicate SawUpdate(h: History) {
    h != [] && (SawUpdate(h[..|h| - 1]) || h[|h| - 1].attributes.UpdateAccepted?)
  }

  /** The events before the first accepted update. */
  function BeforeUpdates(h: History): (pre: History)
    ensures pre <= h
  {
    if !SawUpdate(h) then h else BeforeUpdates(h[..|h| - 1])
  }

  // ---- The prescan ---------------------------------------------------------------------------

  datatype OperationRecord = OperationRecord(scheduled: bool, resolved: bool, outcome: Outcome)

  const BLANK := OperationRecord(false, false, QUIET)

  datatype TimerRecord = TimerRecord(started: bool, fired: bool, cancelled: bool)

  const IDLE := TimerRecord(false, false, false)

  datatype ReplayStep = ReplayUpdate(name: string, args: Payloads) | ReplayEvent(event: Event)

  /** What history says about each operation, by id. */
  datatype Operations = Operations(
    activities: map<string, OperationRecord>,
    timers: map<string, TimerRecord>,
    children: map<string, OperationRecord>,
    nexusOps: map<string, OperationRecord>)

  /** Which operation each scheduling event scheduled; Nexus operations are numbered by count. */
  datatype ScheduleIndex = ScheduleIndex(
    activities: map<int, string>,
    nexusOps: map<int, string>,
    nexusOpsScheduled: nat)

  /** The recorded commands, and what is needed to not record them twice. */
  datatype Records = Records(
    commands: seq<D.CommandEvent>,
    extSignalsInitiated: nat,
    upsertsInitiated: nat,
    sideEffects: seq<Payload>,
    localActivities: seq<Outcome>)

  datatype Prescan = Prescan(
    operations: Operations,
    signals: map<string, seq<Payloads>>,
    index: ScheduleIndex,
    records: Records,
    timeline: seq<ReplayStep>,
    lastEventId: int)

  /** Events that only resolve a future or deliver a signal. */
  predicate IsDeferredOnReplay(a: Attributes) {
    a.Signaled? || (a.FutureResolved? && (a.how.ChildResolved? ==> ChildEndingHandled(a.how.ending)))
  }

  /** A second outcome on the same record overwrites only the fields its own event sets. */
  function Overwrite(o: Outcome, r: Outcome): Outcome {
    if r.failed then Outcome(true, o.result, r.failureType, r.failureMessage)
    else Outcome(o.failed, r.result, o.failureType, o.failureMessage)
  }

  function Schedule(m: map<string, OperationRecord>, id: string): map<string, OperationRecord> {
    m[id := GetOr(m, id, BLANK).(scheduled := true)]
  }

  function Resolve(m: map<string, OperationRecord>, id: string, r: Outcome): map<string, OperationRecord> {
    var o := GetOr(m, id, BLANK);
    m[id := o.(resolved := true, outcome := Overwrite(o.outcome, r))]
  }

  // Each part of the prescan, as a reading of the history of its own.

  function IndexNext(index: ScheduleIndex, e: Event): ScheduleIndex {
    if SchedulesActivity(e.attributes) then index.(activities := index.activities[e.id := e.attributes.record.id])
    else if SchedulesNexus(e.attributes) then
      index.(nexusOps := index.nexusOps[e.id := Decimal(index.nexusOpsScheduled)],
             nexusOpsScheduled := index.nexusOpsScheduled + 1)
    else index
  }

  function IndexOf(h: History): ScheduleIndex {
    if h == [] then ScheduleIndex(map[], map[], 0) else IndexNext(IndexOf(h[..|h| - 1]), h[|h| - 1])
  }

  /** The cases of the switch that record an operation. */
  function OperationRecorded(ops: Operations, nexusOpsScheduled: nat, record: Recording): Operations {
    match record
    case ActivityScheduled(id, _) => ops.(activities := Schedule(ops.activities, id))
    case TimerStarted(id) => ops.(timers := ops.timers[id := GetOr(ops.timers, id, IDLE).(started := true)])
    case TimerCanceled(id) => ops.(timers := ops.timers[id := GetOr(ops.timers, id, IDLE).(cancelled := true)])
    case ChildInitiated(id, _) => ops.(children := Schedule(ops.children, id))
    case NexusScheduled(_, _, _) => ops.(nexusOps := Schedule(ops.nexusOps, Decimal(nexusOpsScheduled)))
    case _ => ops
  }

  /** The cases of the switch that resolve one. */
  function OperationResolved(ops: Operations, index: ScheduleIndex, how: Resolving): Operations {
    match how
    case ActivityResolved(sid, r) =>
      if sid in index.activities
      then ops.(activities := Resolve(ops.activities, index.activities[sid], ActivityOutcome(r))) else ops
    case TimerFired(id) => ops.(timers := ops.timers[id := GetOr(ops.timers, id, IDLE).(fired := true)])
    case ChildResolved(id, ending) =>
      if ChildEndingHandled(ending) then ops.(children := Resolve(ops.children, id, ChildOutcome(ending))) else ops
    case NexusResolved(sid, r) =>
      if sid in index.nexusOps
      then ops.(nexusOps := Resolve(ops.nexusOps, index.nexusOps[sid], NexusOutcome(r))) else ops
  }

  function OperationsNext(ops: Operations, index: ScheduleIndex, seenUpdate: bool, a: Attributes): Operations {
    match a
    case CommandRecorded(record) => OperationRecorded(ops, index.nexusOpsScheduled, record)
    case FutureResolved(how) => if seenUpdate then ops else OperationResolved(ops, index, how)
    case _ => ops
  }

  function OperationsOf(h: History): Operations {
    if h == [] then Operations(map[], map[], map[], map[])
    else OperationsNext(OperationsOf(h[..|h| - 1]), IndexOf(h[..|h| - 1]), SawUpdate(h[..|h| - 1]), h[|h| - 1].attributes)
  }

  function SignalsNext(signals: map<string, seq<Payloads>>, seenUpdate: bool, a: Attributes): map<string, seq<Payloads>> {
    if a.Signaled? && !seenUpdate then signals[a.name := GetOr(signals, a.name, []) + [a.payloads]] else signals
  }

  function SignalsOf(h: History): map<string, seq<Payloads>> {
    if h == [] then map[]
    else SignalsNext(SignalsOf(h[..|h| - 1]), SawUpdate(h[..|h| - 1]), h[|h| - 1].attributes)
  }

  /** The identity `ScanHistory` pushes for a command-recording event. */
  function RecordingIdentity(nexusOpsScheduled: nat, record: Recording): D.CommandEvent {
    match record
    case ActivityScheduled(id, activityType) => D.CommandEvent(D.Activity, id, activityType)
    case TimerStarted(id) => D.CommandEvent(D.Timer, id, "")
    case TimerCanceled(id) => D.CommandEvent(D.CancelTimer, id, "")
    case ChildInitiated(id, workflowType) => D.CommandEvent(D.ChildWorkflow, id, workflowType)
    case NexusScheduled(_, _, _) => D.CommandEvent(D.NexusOperation, Decimal(nexusOpsScheduled), "")
    case ExternalSignalInitiated(workflowId) => D.CommandEvent(D.SignalExternalWorkflow, workflowId, "")
    case AttributesUpserted => D.CommandEvent(D.UpsertSearchAttributes, "", "")
    case MarkerRecorded(marker) => D.CommandEvent(D.Marker, MarkerName(marker), "")
    case WorkflowClosed(how) => ClosingIdentity(how)
  }

  function RecordsNext(rs: Records, nexusOpsScheduled: nat, a: Attributes): Records {
    if !a.CommandRecorded? then rs
    else
      var rs1 := rs.(commands := rs.commands + [RecordingIdentity(nexusOpsScheduled, a.record)]);
      match a.record
      case ExternalSignalInitiated(_) => rs1.(extSignalsInitiated := rs.extSignalsInitiated + 1)
      case AttributesUpserted => rs1.(upsertsInitiated := rs.upsertsInitiated + 1)
      case MarkerRecorded(SideEffectMarker(data)) => rs1.(sideEffects := rs.sideEffects + [data])
      case MarkerRecorded(LocalActivityMarker(outcome)) => rs1.(localActivities := rs.localActivities + [outcome])
      case _ => rs1
  }

  function RecordsOf(h: History): Records {
    if h == [] then Records([], 0, 0, [], [])
    else RecordsNext(RecordsOf(h[..|h| - 1]), IndexOf(h[..|h| - 1]).nexusOpsScheduled, h[|h| - 1].attributes)
  }

  function StepsOf(seenUpdate: bool, e: Event): seq<ReplayStep> {
    if e.attributes.UpdateAccepted? then [ReplayUpdate(e.attributes.name, e.attributes.args)]
    else if seenUpdate && IsDeferredOnReplay(e.attributes) then [ReplayEvent(e)]
    else []
  }

  /** What is replayed step by step after the first update. */
  function TimelineOf(h: History): seq<ReplayStep> {
    if h == [] then [] else TimelineOf(h[..|h| - 1]) + StepsOf(SawUpdate(h[..|h| - 1]), h[|h| - 1])
  }

  function Scan(h: History): Prescan {
    Prescan(OperationsOf(h), SignalsOf(h), IndexOf(h), RecordsOf(h), TimelineOf(h),
            if h == [] then 0 else h[|h| - 1].id)
  }

  /** The single pass over the history; events held back for the timeline are not indexed. */
  method ScanHistory(h: History) returns (ps: Prescan)
    ensures ps == Scan(h)
  {
    var ops := Operations(map[], map[], map[], map[]);
    var signals: map<string, seq<Payloads>> := map[];
    var index := ScheduleIndex(map[], map[], 0);
    var records := Records([], 0, 0, [], []);
    var timeline, lastEventId, seenUpdate := [], 0, false;
    for i := 0 to |h|
      invariant ops == OperationsOf(h[..i])
      invariant signals == SignalsOf(h[..i])
      invariant index == IndexOf(h[..i])
      invariant records == RecordsOf(h[..i])
      invariant timeline == TimelineOf(h[..i])
      invariant lastEventId == if i == 0 then 0 else h[i - 1].id
      invariant seenUpdate == SawUpdate(h[..i])
    {
      ghost var now := h[..i + 1];
      assert now[..i] == h[..i] && now[i] == h[i] && |now| == i + 1;
      lastEventId := h[i].id;
      if seenUpdate && IsDeferredOnReplay(h[i].attributes) {
        timeline := timeline + [ReplayEvent(h[i])];
      } else {
        ops := OperationsNext(ops, index, seenUpdate, h[i].attributes);
        signals := SignalsNext(signals, seenUpdate, h[i].attributes);
        records := RecordsNext(records, index.nexusOpsScheduled, h[i].attributes);
        index := IndexNext(index, h[i]);
        if h[i].attributes.UpdateAccepted? {
          timeline := timeline + [ReplayUpdate(h[i].attributes.name, h[i].attributes.args)];
          seenUpdate := true;
        }
      }
    }
    assert h[..|h|] == h;
    ps := Prescan(ops, signals, index, records, timeline, lastEventId);
  }
}
