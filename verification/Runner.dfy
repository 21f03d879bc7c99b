/** The workflow runner as the object it is (src/internal/workflow_task_handler.cpp, class
    WorkflowRunner): every method is proved to do to the fields what `Engine` says. */
module Runner {
  import opened Basics
  import opened Workflow
  import opened Machine
  import opened HistoryScan
  import opened ScanFacts
  import Engine
  import D = Determinism

  type Futures = map<string, Engine.FutureState>

  // ---- The four future maps, seen as one --------------------------------------------------------

  function Keys(kind: FutureKind, m: Futures): (r: set<Handle>)
    ensures forall h :: h in r <==> h.kind == kind && h.id in m
  {
    set id | id in m :: Handle(kind, id)
  }

  function AllKeys(activities: Futures, timers: Futures, children: Futures, nexusOps: Futures): (r: set<Handle>)
    ensures forall h :: h in r <==> h.id in Of(h.kind, activities, timers, children, nexusOps)
  {
    Keys(Activity, activities) + Keys(Timer, timers) + Keys(Child, children) + Keys(Nexus, nexusOps)
  }

  function Merged(activities: Futures, timers: Futures, children: Futures, nexusOps: Futures): (r: map<Handle, Engine.FutureState>)
    ensures forall h :: h in r <==> h.id in Of(h.kind, activities, timers, children, nexusOps)
    ensures forall h :: h in r ==> r[h] == Of(h.kind, activities, timers, children, nexusOps)[h.id]
  {
    map h | h in AllKeys(activities, timers, children, nexusOps) :: Of(h.kind, activities, timers, children, nexusOps)[h.id]
  }

  function Of(kind: FutureKind, activities: Futures, timers: Futures, children: Futures, nexusOps: Futures): Futures {
    match kind
    case Activity => activities
    case Timer => timers
    case Child => children
    case Nexus => nexusOps
  }

  lemma PutActivity(activities: Futures, timers: Futures, children: Futures, nexusOps: Futures, id: string, s: Engine.FutureState)
    ensures Merged(activities[id := s], timers, children, nexusOps) ==
              Merged(activities, timers, children, nexusOps)[Handle(Activity, id) := s]
  {
    hide Merged, AllKeys;
    var a := Merged(activities[id := s], timers, children, nexusOps);
    var b := Merged(activities, timers, children, nexusOps)[Handle(Activity, id) := s];
    forall h
      ensures h in a <==> h in b
      ensures h in a ==> a[h] == b[h]
    {
    }
  }

  lemma PutTimer(activities: Futures, timers: Futures, children: Futures, nexusOps: Futures, id: string, s: Engine.FutureState)
    ensures Merged(activities, timers[id := s], children, nexusOps) ==
              Merged(activities, timers, children, nexusOps)[Handle(Timer, id) := s]
  {
    hide Merged, AllKeys;
    var a := Merged(activities, timers[id := s], children, nexusOps);
    var b := Merged(activities, timers, children, nexusOps)[Handle(Timer, id) := s];
    forall h
      ensures h in a <==> h in b
      ensures h in a ==> a[h] == b[h]
    {
    }
  }

  lemma PutChild(activities: Futures, timers: Futures, children: Futures, nexusOps: Futures, id: string, s: Engine.FutureState)
    ensures Merged(activities, timers, children[id := s], nexusOps) ==
              Merged(activities, timers, children, nexusOps)[Handle(Child, id) := s]
  {
    hide Merged, AllKeys;
    var a := Merged(activities, timers, children[id := s], nexusOps);
    var b := Merged(activities, timers, children, nexusOps)[Handle(Child, id) := s];
    forall h
      ensures h in a <==> h in b
      ensures h in a ==> a[h] == b[h]
    {
    }
  }

  lemma PutNexus(activities: Futures, timers: Futures, children: Futures, nexusOps: Futures, id: string, s: Engine.FutureState)
    ensures Merged(activities, timers, children, nexusOps[id := s]) ==
              Merged(activities, timers, children, nexusOps)[Handle(Nexus, id) := s]
  {
    hide Merged, AllKeys;
    var a := Merged(activities, timers, children, nexusOps[id := s]);
    var b := Merged(activities, timers, children, nexusOps)[Handle(Nexus, id) := s];
    forall h
      ensures h in a <==> h in b
      ensures h in a ==> a[h] == b[h]
    {
    }
  }

  /** What scheduling an operation comes to, field by field. */
  lemma StartIs(r: Engine.RunnerState, call: Call, h: Handle, record: OperationRecord)
    requires h == HandleOf(r.workflowId, KindOf(call), CounterOf(r.counters, KindOf(call)))
    requires record == OperationAt(r.scan.operations, h)
    ensures Engine.StartOperation(r, call) ==
              (Engine.RunnerState(
                 r.workflowId, r.body, r.live, r.scan, r.log, r.phase, Bump(r.counters, KindOf(call)),
                 r.futures[h := Engine.FirstState(record)], r.cursors, r.handlers,
                 if record.scheduled then r.commands else r.commands + [Begin(h.id, call)],
                 r.produced + [CallIdentity(h.id, call)], r.deadlocked), h)
  {
  }

  // ---- The runner --------------------------------------------------------------------------------

  class WorkflowRunner {
    const workflowId: string
    const body: Body
    const live: World
    var scan: Prescan
    var log: seq<Input>      // the suspended coroutine: what its body has been told
    var phase: Phase         // and what it waits for, or its result
    var ordinals: Counters   // calls so far of each kind: activity_seq_, timer_seq_, ...
    var activityFutures: Futures
    var timerFutures: Futures
    var childFutures: Futures
    var nexusFutures: Futures
    var signalCursor: map<string, nat>
    var updateHandlers: set<string>
    var commands: seq<Command>
    var producedCommands: seq<D.CommandEvent>
    var deadlocked: bool

    /** The value `Engine` computes with. */
    ghost function State(): Engine.RunnerState
      reads this
    {
      Engine.RunnerState(workflowId, body, live, scan, log, phase, ordinals,
                         Merged(activityFutures, timerFutures, childFutures, nexusFutures),
                         signalCursor, updateHandlers, commands, producedCommands, deadlocked)
    }

    constructor (workflowId: string, body: Body, live: World, scan: Prescan)
      ensures State() == Engine.NewRunner(workflowId, body, live, scan)
    {
      this.workflowId, this.body, this.live, this.scan := workflowId, body, live, scan;
      log, phase := [], Running(body([]));
      ordinals := ZERO;
      activityFutures, timerFutures, childFutures, nexusFutures := map[], map[], map[], map[];
      signalCursor, updateHandlers := map[], {};
      commands, producedCommands, deadlocked := [], [], false;
      new;
      assert Merged(map[], map[], map[], map[]) == map[];
    }

    /** The reply of the engine reaches the body, which runs on to its next operation. */
    method Reply(input: Input)
      modifies this`log, this`phase
      ensures State() == Engine.Answer(old(State()), input)
    {
      hide Merged;
      log := log + [input];
      phase := Running(body(log));
    }

    // ---- Scheduling ------------------------------------------------------------------------------

    method ScheduleActivity(activityType: string, input: Payloads) returns (h: Handle)
      modifies this
      ensures (State(), h) == Engine.StartOperation(old(State()), ActivityCall(activityType, input))
    {
      hide Merged, AllKeys, Of, Engine.StartOperation;
      var id := Decimal(ordinals.activity);
      h := Handle(Activity, id);
      ghost var record := OperationAt(scan.operations, h);
      StartIs(State(), ActivityCall(activityType, input), h, record);
      ordinals := ordinals.(activity := ordinals.activity + 1);
      producedCommands := producedCommands + [D.CommandEvent(D.Activity, id, activityType)];
      var state := Engine.PENDING;
      if id in scan.operations.activities && scan.operations.activities[id].scheduled {
        var o := scan.operations.activities[id];
        if o.resolved {
          state := Engine.FutureState(true, false, o.outcome);
        }
      } else {
        commands := commands + [Begin(id, ActivityCall(activityType, input))];
      }
      assert state == Engine.FirstState(record) && (commands == old(commands) <==> record.scheduled);
      PutActivity(activityFutures, timerFutures, childFutures, nexusFutures, id, state);
      activityFutures := activityFutures[id := state];
    }

    method StartTimer(duration: int) returns (h: Handle)
      modifies this
      ensures (State(), h) == Engine.StartOperation(old(State()), TimerCall(duration))
    {
      hide Merged, AllKeys, Of, Engine.StartOperation;
      var id := "t" + Decimal(ordinals.timer);
      h := Handle(Timer, id);
      ghost var record := OperationAt(scan.operations, h);
      StartIs(State(), TimerCall(duration), h, record);
      ordinals := ordinals.(timer := ordinals.timer + 1);
      producedCommands := producedCommands + [D.CommandEvent(D.Timer, id, "")];
      var state := Engine.PENDING;
      if id in scan.operations.timers && scan.operations.timers[id].started {
        state := state.(ready := scan.operations.timers[id].fired);
      } else {
        commands := commands + [Begin(id, TimerCall(duration))];
      }
      assert state == Engine.FirstState(record) && (commands == old(commands) <==> record.scheduled);
      PutTimer(activityFutures, timerFutures, childFutures, nexusFutures, id, state);
      timerFutures := timerFutures[id := state];
    }

    method StartChildWorkflow(workflowType: string, input: Payloads) returns (h: Handle)
      modifies this
      ensures (State(), h) == Engine.StartOperation(old(State()), ChildCall(workflowType, input))
    {
      hide Merged, AllKeys, Of, Engine.StartOperation;
      var id := workflowId + "_c" + Decimal(ordinals.child);
      h := Handle(Child, id);
      ghost var record := OperationAt(scan.operations, h);
      StartIs(State(), ChildCall(workflowType, input), h, record);
      ordinals := ordinals.(child := ordinals.child + 1);
      producedCommands := producedCommands + [D.CommandEvent(D.ChildWorkflow, id, workflowType)];
      var state := Engine.PENDING;
      if id in scan.operations.children && scan.operations.children[id].scheduled {
        var o := scan.operations.children[id];
        if o.resolved {
          state := Engine.FutureState(true, false, o.outcome);
        }
      } else {
        commands := commands + [Begin(id, ChildCall(workflowType, input))];
      }
      assert state == Engine.FirstState(record) && (commands == old(commands) <==> record.scheduled);
      PutChild(activityFutures, timerFutures, childFutures, nexusFutures, id, state);
      childFutures := childFutures[id := state];
    }

    method ScheduleNexusOperation(endpoint: string, service: string, operation: string, payload: Payload) returns (h: Handle)
      modifies this
      ensures (State(), h) == Engine.StartOperation(old(State()), NexusCall(endpoint, service, operation, payload))
    {
      hide Merged, AllKeys, Of, Engine.StartOperation;
      var id := Decimal(ordinals.nexus);
      h := Handle(Nexus, id);
      ghost var record := OperationAt(scan.operations, h);
      StartIs(State(), NexusCall(endpoint, service, operation, payload), h, record);
      ordinals := ordinals.(nexus := ordinals.nexus + 1);
      producedCommands := producedCommands + [D.CommandEvent(D.NexusOperation, id, "")];
      var state := Engine.PENDING;
      if id in scan.operations.nexusOps && scan.operations.nexusOps[id].scheduled {
        var o := scan.operations.nexusOps[id];
        if o.resolved {
          state := Engine.FutureState(true, false, o.outcome);
        }
      } else {
        commands := commands + [Begin(id, NexusCall(endpoint, service, operation, payload))];
      }
      assert state == Engine.FirstState(record) && (commands == old(commands) <==> record.scheduled);
      PutNexus(activityFutures, timerFutures, childFutures, nexusFutures, id, state);
      nexusFutures := nexusFutures[id := state];
    }

    /** `Cancel` on a timer's future: it becomes ready at once. */
    method CancelTimer(id: string)
      modifies this
      ensures State() == Engine.CancelTimerFuture(old(State()), id)
    {
      hide Merged, AllKeys, Of;
      OfKinds();
      if id !in timerFutures || timerFutures[id].cancelled {
        return;
      }
      producedCommands := producedCommands + [D.CommandEvent(D.CancelTimer, id, "")];
      if !(id in scan.operations.timers && scan.operations.timers[id].cancelled) {
        commands := commands + [Command.CancelTimer(id)];
      }
      var state := timerFutures[id].(ready := true, cancelled := true);
      PutTimer(activityFutures, timerFutures, childFutures, nexusFutures, id, state);
      timerFutures := timerFutures[id := state];
    }

    method SignalExternalWorkflow(target: string, signalName: string, input: Payloads)
      modifies this
      ensures State() == Engine.SignalExternal(old(State()), target, signalName, input)
    {
      hide Merged;
      producedCommands := producedCommands + [D.CommandEvent(D.SignalExternalWorkflow, target, "")];
      if ordinals.signals >= scan.records.extSignalsInitiated {
        commands := commands + [Command.SignalExternalWorkflow(target, signalName, input)];
      }
      ordinals := ordinals.(signals := ordinals.signals + 1);
    }

    method UpsertSearchAttributes(attributes: map<string, Payload>)
      modifies this
      ensures State() == Engine.UpsertAttributes(old(State()), attributes)
    {
      hide Merged;
      producedCommands := producedCommands + [D.CommandEvent(D.UpsertSearchAttributes, "", "")];
      if ordinals.upserts >= scan.records.upsertsInitiated {
        commands := commands + [Command.UpsertSearchAttributes(attributes)];
      }
      ordinals := ordinals.(upserts := ordinals.upserts + 1);
    }

    // ---- Markers ---------------------------------------------------------------------------------

    method ReplaySideEffect() returns (recorded: Option<Payload>)
      modifies this`producedCommands, this`ordinals
      ensures producedCommands == old(producedCommands) + [D.CommandEvent(D.Marker, "SideEffect", "")]
      ensures ordinals == old(ordinals).(sideEffects := old(ordinals).sideEffects + 1)
      ensures recorded == if old(ordinals).sideEffects < |scan.records.sideEffects|
                          then Some(scan.records.sideEffects[old(ordinals).sideEffects]) else None
    {
      producedCommands := producedCommands + [D.CommandEvent(D.Marker, "SideEffect", "")];
      var ordinal := ordinals.sideEffects;
      ordinals := ordinals.(sideEffects := ordinals.sideEffects + 1);
      if ordinal < |scan.records.sideEffects| {
        return Some(scan.records.sideEffects[ordinal]);
      }
      return None;
    }

    method RecordSideEffect(value: Payload)
      modifies this`commands
      ensures commands == old(commands) + [RecordMarker(SideEffectMarker(value))]
    {
      commands := commands + [RecordMarker(SideEffectMarker(value))];
    }

    /** `Context::SideEffect`: run the function only if history has no value for this call. */
    method SideEffect() returns (value: Payload)
      modifies this`producedCommands, this`ordinals, this`commands
      ensures (State(), value) == Engine.TakeSideEffect(old(State()))
    {
      hide Merged;
      var recorded := ReplaySideEffect();
      match recorded
      case Some(v) =>
        value := v;
      case None =>
        value := live.side(ordinals.sideEffects - 1);
        RecordSideEffect(value);
    }

    method ExecuteLocalActivity() returns (outcome: Outcome)
      modifies this`producedCommands, this`ordinals, this`commands
      ensures (State(), outcome) == Engine.TakeLocalActivity(old(State()))
    {
      hide Merged;
      producedCommands := producedCommands + [D.CommandEvent(D.Marker, "LocalActivity", "")];
      var ordinal := ordinals.locals;
      ordinals := ordinals.(locals := ordinals.locals + 1);
      if ordinal < |scan.records.localActivities| {
        outcome := scan.records.localActivities[ordinal];
      } else {
        outcome := live.local(ordinal);
        commands := commands + [RecordMarker(LocalActivityMarker(outcome))];
      }
    }

    // ---- Signals ---------------------------------------------------------------------------------

    method TryConsumeSignal(name: string) returns (payloads: Option<Payloads>)
      modifies this`signalCursor
      ensures (State(), payloads) == Engine.TryConsumeSignal(old(State()), name)
    {
      hide Merged;
      if name !in scan.signals {
        return None;
      }
      var cursor := GetOr(signalCursor, name, 0);
      signalCursor := signalCursor[name := cursor];
      if cursor >= |scan.signals[name]| {
        return None;
      }
      signalCursor := signalCursor[name := cursor + 1];
      assert signalCursor == old(signalCursor)[name := cursor + 1];
      return Some(scan.signals[name][cursor]);
    }

    // ---- The coroutine ---------------------------------------------------------------------------

    method Schedule(call: Call) returns (h: Handle)
      modifies this
      ensures (State(), h) == Engine.StartOperation(old(State()), call)
    {
      hide Merged, Engine.CancelTimerFuture, Engine.SignalExternal, Engine.UpsertAttributes, Engine.TakeSideEffect,
           Engine.TakeLocalActivity, Engine.TryConsumeSignal, Engine.StartOperation;
      match call
      case ActivityCall(activityType, input) => h := ScheduleActivity(activityType, input);
      case TimerCall(duration) => h := StartTimer(duration);
      case ChildCall(workflowType, input) => h := StartChildWorkflow(workflowType, input);
      case NexusCall(endpoint, service, operation, payload) =>
        h := ScheduleNexusOperation(endpoint, service, operation, payload);
    }

    ghost function FutureOf(h: Handle): Option<Engine.FutureState>
      reads this
    {
      if h in State().futures then Some(State().futures[h]) else None
    }

    method Find(h: Handle) returns (state: Option<Engine.FutureState>)
      ensures state == FutureOf(h)
    {
      var futures := match h.kind
        case Activity => activityFutures
        case Timer => timerFutures
        case Child => childFutures
        case Nexus => nexusFutures;
      state := if h.id in futures then Some(futures[h.id]) else None;
    }

    /** `Block` and `Receive`: the operations that may yield. */
    method Wait() returns (yielded: bool)
      requires phase.Running? && (phase.op.Get? || phase.op.Receive?)
      modifies this
      ensures Engine.Perform(old(State())) == if yielded then Engine.Yielded(State()) else Engine.Went(State())
    {
      hide Merged, Engine.CancelTimerFuture, Engine.SignalExternal, Engine.UpsertAttributes, Engine.TakeSideEffect,
           Engine.TakeLocalActivity, Engine.TryConsumeSignal, Engine.StartOperation;
      match phase.op
      case Get(h) =>
        var state := Find(h);
        yielded := state.None? || !state.value.ready;
        if !yielded {
          Reply(Resolved(state.value.outcome));
        }
      case Receive(name) =>
        var got := TryConsumeSignal(name);
        yielded := got.None?;
        if !yielded {
          Reply(Received(got.value));
        }
    }

    /** The operations that record a marker or send a command without a future. */
    method Send()
      requires phase.Running?
      requires phase.op.Cancel? || phase.op.Signal? || phase.op.Upsert? || phase.op.SideEffect? || phase.op.LocalActivity?
      modifies this
      ensures Engine.Perform(old(State())) == Engine.Went(State())
    {
      hide Merged, Engine.CancelTimerFuture, Engine.SignalExternal, Engine.UpsertAttributes, Engine.TakeSideEffect,
           Engine.TakeLocalActivity, Engine.TryConsumeSignal, Engine.StartOperation;
      match phase.op
      case Cancel(timer) =>
        CancelTimer(timer);
        Reply(Acknowledged);
      case Signal(target, name, input) =>
        SignalExternalWorkflow(target, name, input);
        Reply(Acknowledged);
      case Upsert(attributes) =>
        UpsertSearchAttributes(attributes);
        Reply(Acknowledged);
      case SideEffect =>
        var value := SideEffect();
        Reply(Value(value));
      case LocalActivity(_, _) =>
        var outcome := ExecuteLocalActivity();
        Reply(Resolved(outcome));
    }

    /** The body's pending operation: it goes on, or it yields. */
    method PerformPending() returns (yielded: bool)
      requires phase.Running?
      modifies this
      ensures Engine.Perform(old(State())) == if yielded then Engine.Yielded(State()) else Engine.Went(State())
    {
      hide Merged, Engine.CancelTimerFuture, Engine.SignalExternal, Engine.UpsertAttributes, Engine.TakeSideEffect,
           Engine.TakeLocalActivity, Engine.TryConsumeSignal, Engine.StartOperation;
      yielded := false;
      match phase.op
      case Schedule(call) =>
        var h := Schedule(call);
        Reply(Started(h));
      case SetUpdateHandler(name) =>
        updateHandlers := updateHandlers + {name};
        Reply(Acknowledged);
      case Close(how) =>
        producedCommands := producedCommands + [Identity(CloseWorkflow(how))];
        phase := Finished(how);
      case Get(_) => yielded := Wait();
      case Receive(_) => yielded := Wait();
      case _ => Send();
    }

    /** Run the body until it yields or ends, or overruns the deadlock timeout. */
    method ResumeCoroutine(budget: nat)
      modifies this
      ensures State() == Engine.Resume(old(State()), budget)
    {
      hide Engine.Perform, Merged;
      var left := budget;
      while phase.Running?
        invariant Engine.Resume(State(), left) == Engine.Resume(old(State()), budget)
        decreases left, phase.Running?
      {
        var yielded := PerformPending();
        if yielded {
          return;
        }
        if left == 0 {
          deadlocked := true;
          return;
        }
        left := left - 1;
      }
    }

    // ---- Events ----------------------------------------------------------------------------------

    method ResolveActivity(scheduledId: int, outcome: Outcome)
      modifies this`activityFutures
      ensures State() == if scheduledId in scan.index.activities
                         then Engine.ResolveFuture(old(State()), Handle(Activity, scan.index.activities[scheduledId]), outcome)
                         else old(State())
    {
      hide Merged, AllKeys, Of;
      if scheduledId !in scan.index.activities {
        return;
      }
      var id := scan.index.activities[scheduledId];
      OfKinds();
      if id !in activityFutures {
        return;
      }
      var state := activityFutures[id].(ready := true, outcome := outcome);
      PutActivity(activityFutures, timerFutures, childFutures, nexusFutures, id, state);
      activityFutures := activityFutures[id := state];
    }

    lemma OfKinds()
      ensures Of(Activity, activityFutures, timerFutures, childFutures, nexusFutures) == activityFutures
      ensures Of(Timer, activityFutures, timerFutures, childFutures, nexusFutures) == timerFutures
      ensures Of(Child, activityFutures, timerFutures, childFutures, nexusFutures) == childFutures
      ensures Of(Nexus, activityFutures, timerFutures, childFutures, nexusFutures) == nexusFutures
    {
    }

    method ResolveNexusOperation(scheduledId: int, outcome: Outcome)
      modifies this`nexusFutures
      ensures State() == if scheduledId in scan.index.nexusOps
                         then Engine.ResolveFuture(old(State()), Handle(Nexus, scan.index.nexusOps[scheduledId]), outcome)
                         else old(State())
    {
      hide Merged, AllKeys, Of;
      if scheduledId !in scan.index.nexusOps {
        return;
      }
      var id := scan.index.nexusOps[scheduledId];
      OfKinds();
      if id !in nexusFutures {
        return;
      }
      var state := nexusFutures[id].(ready := true, outcome := outcome);
      PutNexus(activityFutures, timerFutures, childFutures, nexusFutures, id, state);
      nexusFutures := nexusFutures[id := state];
    }

    /** A child's outcome sets only the fields its own event carries. */
    method ResolveChild(id: string, ending: ChildEnding)
      modifies this`childFutures
      ensures State() == Engine.ApplyResolution(old(State()), ChildResolved(id, ending))
    {
      hide Merged, AllKeys, Of;
      OfKinds();
      if id !in childFutures || !ChildEndingHandled(ending) {
        return;
      }
      var o := childFutures[id].outcome;
      match ending {
        case ChildCompleted(result) => o := o.(result := result);
        case ChildFailed(failureType, failureMessage) =>
          o := o.(failed := true, failureType := failureType, failureMessage := failureMessage);
        case ChildCanceled =>
          o := o.(failed := true, failureType := "CanceledError", failureMessage := "child workflow cancelled");
      }
      var state := childFutures[id].(ready := true, outcome := o);
      assert o == Overwrite(childFutures[id].outcome, ChildOutcome(ending));
      PutChild(activityFutures, timerFutures, childFutures, nexusFutures, id, state);
      childFutures := childFutures[id := state];
    }

    method TimerDone(id: string, cancelled: bool)
      modifies this`timerFutures
      ensures var h := Handle(Timer, id);
              State() == if h !in old(State()).futures then old(State())
                         else var s := old(State()).futures[h];
                              old(State()).(futures := old(State()).futures[h := s.(ready := true, cancelled := s.cancelled || cancelled)])
    {
      hide Merged, AllKeys, Of;
      OfKinds();
      if id in timerFutures {
        var state := timerFutures[id].(ready := true, cancelled := timerFutures[id].cancelled || cancelled);
        PutTimer(activityFutures, timerFutures, childFutures, nexusFutures, id, state);
        timerFutures := timerFutures[id := state];
      }
    }

    method ApplyResolution(how: Resolving)
      modifies this
      ensures State() == Engine.ApplyResolution(old(State()), how)
    {
      hide Merged, Engine.ResolveFuture, ActivityOutcome, NexusOutcome;
      match how
      case ActivityResolved(sid, res) => ResolveActivity(sid, ActivityOutcome(res));
      case NexusResolved(sid, res) => ResolveNexusOperation(sid, NexusOutcome(res));
      case ChildResolved(id, res) => ResolveChild(id, res);
      case TimerFired(id) => TimerDone(id, false);
    }

    method ApplyRecording(ev: Event, record: Recording)
      requires ev.attributes == CommandRecorded(record)
      modifies this
      ensures State() == Engine.ApplyRecording(old(State()), ev, record)
    {
      hide Merged;
      match record
      case ActivityScheduled(id, _) =>
        scan := scan.(index := scan.index.(activities := scan.index.activities[ev.id := id]));
      case NexusScheduled(_, _, _) =>
        var id := Decimal(scan.index.nexusOpsScheduled);
        var record := GetOr(scan.operations.nexusOps, id, BLANK).(scheduled := true);
        scan := scan.(
          index := scan.index.(nexusOps := scan.index.nexusOps[ev.id := id],
                               nexusOpsScheduled := scan.index.nexusOpsScheduled + 1),
          operations := scan.operations.(nexusOps := scan.operations.nexusOps[id := record]));
      case TimerCanceled(id) => TimerDone(id, true);
      case _ =>
    }

    method ApplyEventToState(ev: Event)
      modifies this
      ensures State() == Engine.ApplyEvent(old(State()), ev)
    {
      hide Merged, Engine.ApplyResolution, Engine.ApplyRecording;
      match ev.attributes
      case CommandRecorded(record) => ApplyRecording(ev, record);
      case FutureResolved(how) => ApplyResolution(how);
      case Signaled(name, payloads) =>
        scan := scan.(signals := scan.signals[name := GetOr(scan.signals, name, []) + [payloads]]);
      case _ =>
    }

    method ApplyEvents(events: History)
      modifies this
      ensures State() == Engine.ApplyEvents(old(State()), events)
    {
      hide Merged, Engine.ApplyEvent;
      for i := 0 to |events|
        invariant State() == Engine.ApplyEvents(old(State()), events[..i])
      {
        assert events[..i + 1][..i] == events[..i];
        if events[i].id > scan.lastEventId {
          ApplyEventToState(events[i]);
          scan := scan.(lastEventId := events[i].id);
        }
      }
      assert events[..|events|] == events;
    }

    method RunUpdate(name: string, args: Payloads)
      modifies this`log
      ensures State() == Engine.RunUpdateHandler(old(State()), name, args)
    {
      hide Merged;
      if name in updateHandlers && phase.Running? {
        log := log + [Updated(name, args)];
      }
    }

    // ---- Tasks -----------------------------------------------------------------------------------

    method ReapplyHistoricalUpdates(budget: nat)
      modifies this
      ensures State() == Engine.Reapply(old(State()), old(State()).scan.timeline, budget)
    {
      hide Merged, Engine.ApplyEvent, Engine.RunUpdateHandler, Engine.Resume;
      ghost var start := State();
      var timeline := scan.timeline;
      for i := 0 to |timeline|
        invariant State() == Engine.Reapply(start, timeline[..i], budget)
      {
        assert timeline[..i + 1][..i] == timeline[..i];
        assert Engine.Reapply(start, timeline[..i + 1], budget) ==
               Engine.ReplayStepOn(Engine.Reapply(start, timeline[..i], budget), timeline[i], budget);
        if !(phase.Finished? || deadlocked) {
          match timeline[i] {
            case ReplayUpdate(name, args) => RunUpdate(name, args);
            case ReplayEvent(ev) => ApplyEventToState(ev);
          }
          ResumeCoroutine(budget);
        }
      }
      assert timeline[..|timeline|] == timeline;
    }

    method Run(budget: nat)
      modifies this
      ensures State() == Engine.Run(old(State()), budget)
    {
      hide Merged, Engine.Reapply, Engine.Resume;
      TimelineFixed(old(State()), budget);
      commands, producedCommands := [], [];
      ResumeCoroutine(budget);
      ReapplyHistoricalUpdates(budget);
    }

    method ApplyAndResume(events: History, budget: nat)
      modifies this
      ensures State() == Engine.ApplyAndResume(old(State()), events, budget)
    {
      hide Merged, Engine.ApplyEvents, Engine.Resume;
      commands, producedCommands := [], [];
      ApplyEvents(events);
      ResumeCoroutine(budget);
    }

    method CheckDeterminism() returns (divergence: Option<string>)
      ensures divergence.None? <==> Engine.Deterministic(State())
      ensures divergence.Some? ==>
                exists i: nat :: D.DivergesFirstAt(producedCommands, scan.records.commands, i) &&
                                 divergence.value == D.Divergence(producedCommands, scan.records.commands, i)
    {
      divergence := D.MatchReplayCommands(producedCommands, scan.records.commands);
    }
  }

  /** Resuming the body leaves the prescan alone. */
  lemma {:induction false} ResumeKeepsScan(r: Engine.RunnerState, budget: nat)
    ensures Engine.Resume(r, budget).scan == r.scan
    decreases budget
  {
    hide Engine.Perform;
    if r.phase.Running? {
      PerformKeepsScan(r);
    }
    if r.phase.Running? && budget > 0 && Engine.Perform(r).Went? {
      ResumeKeepsScan(Engine.Perform(r).state, budget - 1);
    }
  }

  lemma PerformKeepsScan(r: Engine.RunnerState)
    requires r.phase.Running?
    ensures Engine.Perform(r).state.scan == r.scan
  {
  }

  lemma TimelineFixed(r: Engine.RunnerState, budget: nat)
    ensures Engine.Resume(Engine.Clear(r), budget).scan.timeline == r.scan.timeline
  {
    ResumeKeepsScan(Engine.Clear(r), budget);
  }
}
