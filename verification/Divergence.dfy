/** What the determinism check finds, said of operations instead of their identities: for any history
    and any body, a replay passes exactly if it repeats, position by position, the operations that the
    history recorded (src/internal/determinism.h:74-131). */
module Divergence {
  import opened Basics
  import opened Workflow
  import opened Machine
  import opened HistoryScan
  import opened ScanFacts
  import opened Engine
  import opened Feeding
  import D = Determinism

  // ---- The same operation ------------------------------------------------------------------------

  predicate SameMarker(a: Marker, b: Marker) {
    a.SideEffectMarker? <==> b.SideEffectMarker?
  }

  predicate SameEnd(a: Closing, b: Closing) {
    (a.Complete? <==> b.Complete?) && (a.Fail? <==> b.Fail?)
  }

  /** The command is the operation that was recorded; `n` Nexus operations were scheduled before. */
  predicate SameOperation(record: Recording, n: nat, c: Command) {
    match record
    case ActivityScheduled(id, activityType) =>
      c.Begin? && c.id == id && c.call.ActivityCall? && c.call.activityType == activityType
    case TimerStarted(id) => c.Begin? && c.id == id && c.call.TimerCall?
    case ChildInitiated(id, workflowType) =>
      c.Begin? && c.id == id && c.call.ChildCall? && c.call.workflowType == workflowType
    case NexusScheduled(_, _, _) => c.Begin? && c.id == Decimal(n) && c.call.NexusCall?
    case TimerCanceled(id) => c == CancelTimer(id)
    case ExternalSignalInitiated(workflowId) => c.SignalExternalWorkflow? && c.workflowId == workflowId
    case AttributesUpserted => c.UpsertSearchAttributes?
    case MarkerRecorded(marker) => c.RecordMarker? && SameMarker(c.marker, marker)
    case WorkflowClosed(how) => c.CloseWorkflow? && SameEnd(c.how, how)
  }

  function NexusAmong(recorded: seq<Recording>): nat {
    if recorded == [] then 0
    else NexusAmong(recorded[..|recorded| - 1]) + if recorded[|recorded| - 1].NexusScheduled? then 1 else 0
  }

  /** The i-th recorded command of the history is the i-th of `trail`. */
  predicate GoesThroughAt(h: History, trail: seq<Command>, i: nat)
    requires i < |Recorded(h)|
  {
    i < |trail| && SameOperation(Recorded(h)[i], NexusAmong(Recorded(h)[..i]), trail[i])
  }

  ghost predicate GoesThrough(h: History, trail: seq<Command>) {
    forall i :: 0 <= i < |Recorded(h)| ==> GoesThroughAt(h, trail, i)
  }

  ghost predicate DepartsFirstAt(h: History, trail: seq<Command>, i: nat) {
    i < |Recorded(h)| && !GoesThroughAt(h, trail, i) && forall j :: 0 <= j < i ==> GoesThroughAt(h, trail, j)
  }

  /** A recorded command and a new one match as identities exactly if they are the same operation. */
  lemma MatchesExactlySame(record: Recording, n: nat, c: Command)
    ensures D.CommandMatchesEvent(Identity(c), RecordingIdentity(n, record)) <==> SameOperation(record, n, c)
  {
  }

  /** What the server records for a command is the same operation, with a marker's value and the way of
      ending in full. */
  lemma RecordingIsSame(c: Command, n: nat)
    requires c.Begin? && c.call.NexusCall? ==> c.id == Decimal(n)
    ensures SameOperation(RecordingOf(c), n, c)
    ensures c.RecordMarker? ==> RecordingOf(c) == MarkerRecorded(c.marker)
    ensures c.CloseWorkflow? ==> RecordingOf(c) == WorkflowClosed(c.how)
  {
  }

  lemma {:induction false} NexusCountsRecorded(h: History)
    ensures NexusCount(h) == NexusAmong(Recorded(h))
  {
    if h != [] {
      var before := Recorded(h[..|h| - 1]);
      NexusCountsRecorded(h[..|h| - 1]);
      if h[|h| - 1].attributes.CommandRecorded? {
        assert Recorded(h)[..|before|] == before;
      } else {
        assert Recorded(h) == before;
      }
    }
  }

  lemma {:induction false} RecordedIdentity(h: History, i: nat)
    requires i < |Recorded(h)|
    ensures |RecordsOf(h).commands| == |Recorded(h)|
    ensures RecordsOf(h).commands[i] == RecordingIdentity(NexusAmong(Recorded(h)[..i]), Recorded(h)[i])
  {
    hide RecordingIdentity, NexusAmong;
    var past := h[..|h| - 1];
    RecordsLength(past);
    if i < |Recorded(past)| {
      RecordedIdentity(past, i);
      assert Recorded(past)[..i] == Recorded(h)[..i];
    } else {
      IndexCounts(past);
      NexusCountsRecorded(past);
      assert Recorded(h)[..i] == Recorded(past);
    }
  }

  lemma {:induction false} RecordsLength(h: History)
    ensures |RecordsOf(h).commands| == |Recorded(h)|
  {
    if h != [] {
      RecordsLength(h[..|h| - 1]);
    }
  }

  // ---- The commands a runner goes through ----------------------------------------------------------

  function One(c: Option<Command>): seq<Command> {
    if c.Some? then [c.value] else []
  }

  /** The command that the pending operation issues. */
  function Issues(r: RunnerState): Option<Command>
    requires r.phase.Running?
  {
    match r.phase.op
    case Schedule(call) => Some(Begin(IdOf(r.workflowId, KindOf(call), CounterOf(r.counters, KindOf(call))), call))
    case Cancel(timer) =>
      if Handle(Timer, timer) in r.futures && !r.futures[Handle(Timer, timer)].cancelled then Some(CancelTimer(timer)) else None
    case Signal(workflowId, name, input) => Some(SignalExternalWorkflow(workflowId, name, input))
    case Upsert(attributes) => Some(UpsertSearchAttributes(attributes))
    case SideEffect => Some(RecordMarker(SideEffectMarker(TakeSideEffect(r).1)))
    case LocalActivity(_, _) => Some(RecordMarker(LocalActivityMarker(TakeLocalActivity(r).1)))
    case Close(how) => Some(CloseWorkflow(how))
    case SetUpdateHandler(_) | Get(_) | Receive(_) => None
  }

  /** ... in one burst */
  function Burst(r: RunnerState, budget: nat): seq<Command>
    decreases budget
  {
    if r.phase.Finished? then []
    else
      match Perform(r)
      case Yielded(_) => []
      case Went(r1) => One(Issues(r)) + if budget == 0 then [] else Burst(r1, budget - 1)
  }

  /** ... in the bursts of the timeline */
  function Bursts(r: RunnerState, timeline: seq<ReplayStep>, budget: nat): seq<Command> {
    if timeline == [] then []
    else
      var n := |timeline| - 1;
      var r1 := Reapply(r, timeline[..n], budget);
      Bursts(r, timeline[..n], budget) +
      if r1.phase.Finished? || r1.deadlocked then []
      else Burst(match timeline[n]
                 case ReplayUpdate(name, args) => RunUpdateHandler(r1, name, args)
                 case ReplayEvent(ev) => ApplyEvent(r1, ev), budget)
  }

  /** ... and in a whole replay. */
  function Trail(r: RunnerState, budget: nat): seq<Command> {
    Burst(Clear(r), budget) + Bursts(Resume(Clear(r), budget), r.scan.timeline, budget)
  }

  lemma IdentitiesConcat(a: seq<Command>, b: seq<Command>)
    ensures Identities(a + b) == Identities(a) + Identities(b)
  {
  }

  lemma PerformProduces(r: RunnerState)
    requires r.phase.Running?
    ensures match Perform(r)
            case Went(r1) => r1.produced == r.produced + Identities(One(Issues(r))) && r1.scan == r.scan
            case Yielded(r1) => r1.produced == r.produced && r1.scan == r.scan
  {
    hide Identity, OperationAt, FirstState, CanceledIn, IdOf, Bump, CounterOf, KindOf, GetOr;
    assert Identities([]) == [];
    if Issues(r).Some? {
      assert Identities(One(Issues(r))) == [Identity(Issues(r).value)];
    }
    hide Identities;
    match r.phase.op
    case Schedule(_) =>
    case Cancel(_) =>
    case Signal(_, _, _) =>
    case Upsert(_) =>
    case SideEffect =>
    case LocalActivity(_, _) =>
    case SetUpdateHandler(_) =>
    case Get(_) =>
    case Receive(_) =>
    case Close(_) =>
  }

  lemma {:induction false} BurstProduces(r: RunnerState, budget: nat)
    ensures Resume(r, budget).produced == r.produced + Identities(Burst(r, budget)) && Resume(r, budget).scan == r.scan
    decreases budget
  {
    hide Perform, Issues, Identity;
    if r.phase.Running? {
      PerformProduces(r);
      if Perform(r).Went? && budget > 0 {
        var r1 := Perform(r).state;
        BurstProduces(r1, budget - 1);
        IdentitiesConcat(One(Issues(r)), Burst(r1, budget - 1));
      }
    }
  }

  lemma {:induction false} BurstsProduce(r: RunnerState, timeline: seq<ReplayStep>, budget: nat)
    ensures Reapply(r, timeline, budget).produced == r.produced + Identities(Bursts(r, timeline, budget))
    ensures Reapply(r, timeline, budget).scan.records == r.scan.records
  {
    hide Resume, Burst, ApplyEvent, Identity;
    if timeline == [] {
      assert Identities([]) == [];
    } else {
      var n := |timeline| - 1;
      var r1 := Reapply(r, timeline[..n], budget);
      BurstsProduce(r, timeline[..n], budget);
      if r1.phase.Finished? || r1.deadlocked {
        assert Bursts(r, timeline, budget) == Bursts(r, timeline[..n], budget);
      } else {
        var step := timeline[n];
        var r2 := match step
                  case ReplayUpdate(name, args) => RunUpdateHandler(r1, name, args)
                  case ReplayEvent(ev) => ApplyEvent(r1, ev);
        if step.ReplayEvent? {
          EventUndisturbed(r1, step.event);
        }
        BurstProduces(r2, budget);
        IdentitiesConcat(Bursts(r, timeline[..n], budget), Burst(r2, budget));
      }
    }
  }

  lemma TrailProduces(r: RunnerState, budget: nat)
    ensures Run(r, budget).produced == Identities(Trail(r, budget)) && Run(r, budget).scan.records == r.scan.records
  {
    hide Resume, Burst, Bursts, Reapply, Identity;
    BurstProduces(Clear(r), budget);
    var r1 := Resume(Clear(r), budget);
    BurstsProduce(r1, r.scan.timeline, budget);
    IdentitiesConcat(Burst(Clear(r), budget), Bursts(r1, r.scan.timeline, budget));
  }

  // ---- The check -----------------------------------------------------------------------------------

  /** Position by position: the check agrees where the same operation was repeated. */
  lemma AgreesWhereRepeated(h: History, trail: seq<Command>, i: nat)
    requires i < |Recorded(h)|
    ensures i < |RecordsOf(h).commands| && (D.AgreeAt(Identities(trail), RecordsOf(h).commands, i) <==> GoesThroughAt(h, trail, i))
  {
    hide Recorded, RecordsOf, Identity, RecordingIdentity, SameOperation, D.CommandMatchesEvent;
    RecordedIdentity(h, i);
    if i < |trail| {
      MatchesExactlySame(Recorded(h)[i], NexusAmong(Recorded(h)[..i]), trail[i]);
    }
  }

  /** For any history, any body, any values of what is not recorded and any timeout: a full replay
      passes the check exactly if it went through the recorded operations in order, and otherwise the
      check stops at the first that it did not repeat. */
  lemma PassesExactlyIfRepeated(workflowId: string, body: Body, live: World, h: History, budget: nat)
    ensures var start := NewRunner(workflowId, body, live, Scan(h));
            var r, trail := Run(start, budget), Trail(start, budget);
            (Deterministic(r) <==> GoesThrough(h, trail)) &&
            forall i: nat :: D.DivergesFirstAt(r.produced, r.scan.records.commands, i) <==> DepartsFirstAt(h, trail, i)
  {
    hide Recorded, RecordsOf, Run, Trail, Identities, D.AgreeAt, GoesThroughAt;
    var start := NewRunner(workflowId, body, live, Scan(h));
    var trail := Trail(start, budget);
    TrailProduces(start, budget);
    RecordsLength(h);
    forall i | 0 <= i < |Recorded(h)|
      ensures D.AgreeAt(Identities(trail), RecordsOf(h).commands, i) <==> GoesThroughAt(h, trail, i)
    {
      AgreesWhereRepeated(h, trail, i);
    }
  }

  // ---- The message ---------------------------------------------------------------------------------

  /** The message of a divergence gives its position, or says that the replay stopped short of it and
      names the kind of the command that is missing. */
  lemma MessageNames(produced: seq<D.CommandEvent>, expected: seq<D.CommandEvent>, i: nat) returns (rest: string)
    requires i < |expected|
    ensures D.Divergence(produced, expected, i) ==
              D.NONDETERMINISTIC +
              if i < |produced| then "at command #" + Decimal(i) + " history recorded " + rest
              else "missing replay command for history " + D.CommandKindName(expected[i].kind) + rest
  {
    var c := expected[i];
    if i < |produced| {
      rest := Seven(D.NONDETERMINISTIC, "at command #", Decimal(i), " history recorded ", D.Describe(c),
                    " but replay produced ", D.Describe(produced[i]));
    } else {
      rest := Five(D.NONDETERMINISTIC, "missing replay command for history ", D.CommandKindName(c.kind),
                   if c.id != "" then "/" + c.id else "", if c.name != "" then "/" + c.name else "");
    }
    hide *;
  }

  lemma Seven(a: string, b: string, c: string, d: string, e: string, f: string, g: string) returns (rest: string)
    ensures a + b + c + d + e + f + g == a + (b + c + d + rest)
  {
    rest := e + f + g;
  }

  lemma Five(a: string, b: string, c: string, d: string, e: string) returns (rest: string)
    ensures a + b + (c + d + e) == a + (b + c + rest)
  {
    rest := d + e;
  }

  /** The message for an activity of type "A" that is now one of type "B". */
  lemma ChangedTypeMessage()
    ensures D.Divergence([D.CommandEvent(D.Activity, "0", "B")], [D.CommandEvent(D.Activity, "0", "A")], 0) ==
              "[TMPRL1100] nondeterministic workflow: " + "at command #" + "0" + " history recorded " + "ScheduleActivity/0/A" +
              " but replay produced " + "ScheduleActivity/0/B"
  {
    assert Decimal(0) == "0";
    assert D.Describe(D.CommandEvent(D.Activity, "0", "A")) == "ScheduleActivity/0/A";
    assert D.Describe(D.CommandEvent(D.Activity, "0", "B")) == "ScheduleActivity/0/B";
    hide D.Describe, Decimal;
  }

  lemma KindNamesDiffer(a: D.Kind, b: D.Kind)
    requires D.CommandKindName(a) == D.CommandKindName(b)
    ensures a == b
  {
  }
}
