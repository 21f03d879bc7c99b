/** Events applied to a parked runner (`ApplyEventToState`): the runner learns exactly what the event
    teaches, and nothing it has done changes. */
module Feeding {
  import opened Basics
  import opened Workflow
  import opened Machine
  import opened HistoryScan
  import opened ScanFacts
  import opened Engine
  import opened Simulation
  import opened Progress

  ghost predicate LocatedAt(h: History, index: ScheduleIndex, sid: int)
    requires 1 <= sid <= |h|
  {
    (SchedulesActivity(h[sid - 1].attributes) ==>
       sid in index.activities && index.activities[sid] == h[sid - 1].attributes.record.id) &&
    (SchedulesNexus(h[sid - 1].attributes) ==>
       sid in index.nexusOps && index.nexusOps[sid] == Decimal(NexusCount(h[..sid - 1])))
  }

  /** The index finds the scheduling events of `h`; it may cover later events too. */
  ghost predicate Locates(h: History, index: ScheduleIndex) {
    forall sid :: 1 <= sid <= |h| ==> LocatedAt(h, index, sid)
  }

  lemma IndexLocates(h: History, n: nat, index: ScheduleIndex)
    requires n <= |h| && Indexes(h, index)
    ensures Locates(h[..n], index)
  {
    forall sid | 1 <= sid <= n
      ensures LocatedAt(h[..n], index, sid)
    {
      assert IndexesActivityAt(h, index.activities, sid) && IndexesNexusAt(h, index.nexusOps, sid);
      assert h[..n][..sid - 1] == h[..sid - 1];
    }
  }

  /** The fields no event touches. */
  ghost predicate Undisturbed(r: RunnerState, r1: RunnerState) {
    r1.workflowId == r.workflowId && r1.body == r.body && r1.live == r.live && r1.log == r.log &&
    r1.phase == r.phase && r1.counters == r.counters && r1.cursors == r.cursors && r1.handlers == r.handlers &&
    r1.commands == r.commands && r1.produced == r.produced && r1.deadlocked == r.deadlocked &&
    r1.scan.records == r.scan.records && r1.scan.timeline == r.scan.timeline &&
    r1.scan.lastEventId == r.scan.lastEventId
  }

  lemma ResolutionUndisturbed(r: RunnerState, how: Resolving)
    ensures Undisturbed(r, ApplyResolution(r, how)) && ApplyResolution(r, how).scan == r.scan
  {
  }

  lemma EventUndisturbed(r: RunnerState, ev: Event)
    ensures Undisturbed(r, ApplyEvent(r, ev))
  {
    if ev.attributes.FutureResolved? {
      ResolutionUndisturbed(r, ev.attributes.how);
    }
  }

  /** With the body untouched, only what the runner is aware of has to be brought up to date. */
  lemma StillSimulates(env: Env, k: Knowledge, k': Knowledge, past: seq<Command>, start: nat,
                       r: RunnerState, r1: RunnerState, m: Machine)
    requires Simulates(env, k, past, start, r, m) && Undisturbed(r, r1)
    requires m.phase.Running? ==> Aware(env, k', past, r1.scan, r1.live, r1.futures, m.futures, m.cancelled)
    ensures Simulates(env, k', past, start, r1, m)
  {
    hide Aware, Consistent;
  }

  // ---- Resolutions -----------------------------------------------------------------------------

  /** The future a plausible resolution names is the one the runner resolves. */
  lemma ResolutionHits(h: History, how: Resolving, k: Knowledge, r: RunnerState, held: set<Handle>, cancelled: set<string>)
    requires Locates(h, r.scan.index) && SameFutures(k, r.futures, held, cancelled)
    requires Resolves(h, how).Some? && Resolves(h, how).value.0 in held && Resolves(h, how).value.0 !in k.resolved
    ensures var (x, o) := Resolves(h, how).value;
            ApplyResolution(r, how).futures == r.futures[x := View(k.(resolved := k.resolved[x := o]), cancelled, x)]
  {
    var (x, o) := Resolves(h, how).value;
    assert r.futures[x] == View(k, cancelled, x);
    if how.ActivityResolved? || how.NexusResolved? {
      assert LocatedAt(h, r.scan.index, how.scheduledId);
    }
  }

  lemma AwareOfResolution(env: Env, k: Knowledge, past: seq<Command>, scan: Prescan, live: World,
                          futures: map<Handle, FutureState>, held: set<Handle>, cancelled: set<string>,
                          x: Handle, o: Outcome)
    requires Aware(env, k, past, scan, live, futures, held, cancelled)
    requires x in held
    ensures var k' := k.(resolved := k.resolved[x := o]);
            Aware(env, k', past, scan, live, futures[x := View(k', cancelled, x)], held, cancelled)
  {
    hide GuardsFutures, GuardsCancels, GuardsCounts, SameWorld;
    var k' := k.(resolved := k.resolved[x := o]);
    var futures' := futures[x := View(k', cancelled, x)];
    assert SameFutures(k', futures', held, cancelled) by {
      assert futures'.Keys == held;
      forall y | y in held
        ensures futures'[y] == View(k', cancelled, y)
      {
        assert y != x ==> futures[y] == View(k, cancelled, y);
      }
    }
    assert Foreseen(k', scan.operations, held) by {
      forall y | y !in held
        ensures ForeseenAt(k', OperationAt(scan.operations, y), y)
      {
        assert ForeseenAt(k, OperationAt(scan.operations, y), y);
      }
    }
  }

  lemma ResolutionMisses(h: History, how: Resolving, r: RunnerState)
    requires Resolves(h, how).None? && how.ChildResolved?
    ensures ApplyResolution(r, how) == r
  {
  }

  lemma FeedResolution(env: Env, h: History, how: Resolving, past: seq<Command>, start: nat, r: RunnerState, m: Machine)
    requires Simulates(env, Know(h), past, start, r, m) && Locates(h, r.scan.index) && Created(h) <= m.futures
    requires match Resolves(h, how)
             case Some(p) => p.0 in Created(h) && p.0 !in Know(h).resolved
             case None => how.ChildResolved?
    ensures Simulates(env, Learn(Know(h), h, FutureResolved(how)), past, start, ApplyResolution(r, how), m)
  {
    hide Know, ApplyResolution, Locates;
    var k, r1 := Know(h), ApplyResolution(r, how);
    ResolutionUndisturbed(r, how);
    if Resolves(h, how).None? {
      ResolutionMisses(h, how, r);
    } else {
      var (x, o) := Resolves(h, how).value;
      if m.phase.Running? {
        ResolutionHits(h, how, k, r, m.futures, m.cancelled);
        AwareOfResolution(env, k, past, r.scan, r.live, r.futures, m.futures, m.cancelled, x, o);
      }
      StillSimulates(env, k, k.(resolved := k.resolved[x := o]), past, start, r, r1, m);
    }
  }

  // ---- Signals and recordings ------------------------------------------------------------------

  lemma FeedSignal(env: Env, h: History, ev: Event, past: seq<Command>, start: nat, r: RunnerState, m: Machine)
    requires Simulates(env, Know(h), past, start, r, m) && ev.attributes.Signaled?
    ensures Simulates(env, Learn(Know(h), h, ev.attributes), past, start, ApplyEvent(r, ev), m)
  {
    hide Know, Consistent, GuardsFutures, GuardsCancels, GuardsCounts, SameWorld;
    EventUndisturbed(r, ev);
    StillSimulates(env, Know(h), Learn(Know(h), h, ev.attributes), past, start, r, ApplyEvent(r, ev), m);
  }

  /** The bookkeeping of a recorded command touches only futures the body holds already. */
  lemma AwareOfNexus(env: Env, k: Knowledge, past: seq<Command>, scan: Prescan, scan1: Prescan, live: World,
                     futures: map<Handle, FutureState>, held: set<Handle>, cancelled: set<string>, id: string)
    requires Aware(env, k, past, scan, live, futures, held, cancelled) && Handle(Nexus, id) in held
    requires scan1.signals == scan.signals && scan1.records == scan.records
    requires scan1.operations == scan.operations.(nexusOps := HistoryScan.Schedule(scan.operations.nexusOps, id))
    ensures Aware(env, k, past, scan1, live, futures, held, cancelled)
  {
    hide SameFutures, GuardsCounts, SameWorld, ForeseenAt;
    forall x | x !in held
      ensures OperationAt(scan1.operations, x) == OperationAt(scan.operations, x)
    {
    }
    forall t
      ensures CanceledIn(scan1.operations, t) == CanceledIn(scan.operations, t)
    {
    }
  }

  /** A recorded command that `m` has already gone through. */
  ghost predicate Known(h: History, record: Recording, m: Machine) {
    (record.NexusScheduled? ==> Handle(Nexus, Decimal(NexusCount(h))) in m.futures) &&
    (record.TimerCanceled? ==> record.id in m.cancelled)
  }

  lemma FeedRecording(env: Env, h: History, ev: Event, past: seq<Command>, start: nat, r: RunnerState, m: Machine)
    requires Simulates(env, Know(h), past, start, r, m) && Indexes(h, r.scan.index)
    requires ev.attributes.CommandRecorded? && Known(h, ev.attributes.record, m)
    ensures Simulates(env, Know(h), past, start, ApplyEvent(r, ev), m)
  {
    hide Know, Consistent, GuardsFutures, GuardsCancels, GuardsCounts, SameWorld, Foreseen, IndexesActivityAt,
         IndexesNexusAt;
    EventUndisturbed(r, ev);
    var r1 := ApplyEvent(r, ev);
    var k := Know(h);
    if m.phase.Running? {
      match ev.attributes.record
      case NexusScheduled(_, _, _) =>
        AwareOfNexus(env, k, past, r.scan, r1.scan, r.live, r.futures, m.futures, m.cancelled,
                     Decimal(r.scan.index.nexusOpsScheduled));
      case TimerCanceled(id) =>
        assert Handle(Timer, id) in m.futures ==> r.futures[Handle(Timer, id)] == View(k, m.cancelled, Handle(Timer, id));
        assert r1.futures == r.futures;
      case _ =>
    }
    StillSimulates(env, k, k, past, start, r, r1, m);
  }

  /** A recorded cancellation makes the timer ready and cancelled, whatever it was, and touches no other. */
  lemma CancellationApplies(r: RunnerState, ev: Event, id: string)
    requires ev.attributes == CommandRecorded(TimerCanceled(id))
    ensures var futures := ApplyEvent(r, ev).futures;
            futures.Keys == r.futures.Keys &&
            (Handle(Timer, id) in r.futures ==> futures[Handle(Timer, id)].ready && futures[Handle(Timer, id)].cancelled) &&
            forall x :: x in r.futures && x != Handle(Timer, id) ==> futures[x] == r.futures[x]
  {
  }

  // ---- Any event -------------------------------------------------------------------------------

  lemma KnowStep(h: History, q: nat)
    requires q < |h|
    ensures Know(h[..q + 1]) == Learn(Know(h[..q]), h[..q], h[q].attributes)
  {
    assert h[..q + 1][..q] == h[..q];
  }

  /** The runner applies the next event of a lawful history: it comes to know what the event says,
      and early returns for unknown operations are never taken. */
  lemma Feed(env: Env, h: History, q: nat, past: seq<Command>, start: nat, r: RunnerState, m: Machine)
    requires q < |h| && PlausibleAt(h, q)
    requires Simulates(env, Know(h[..q]), past, start, r, m)
    requires Locates(h[..q], r.scan.index) && Created(h[..q]) <= m.futures
    requires h[q].attributes.CommandRecorded? ==>
               Indexes(h[..q], r.scan.index) && Known(h[..q], h[q].attributes.record, m)
    ensures Simulates(env, Know(h[..q + 1]), past, start, ApplyEvent(r, h[q]), m)
  {
    hide Simulates, Locates, Indexes, Known, Created, NexusCount, Know;
    KnowStep(h, q);
    match h[q].attributes
    case CommandRecorded(_) => FeedRecording(env, h[..q], h[q], past, start, r, m);
    case FutureResolved(how) => FeedResolution(env, h[..q], how, past, start, r, m);
    case Signaled(_, _) => FeedSignal(env, h[..q], h[q], past, start, r, m);
    case _ =>
  }
}
