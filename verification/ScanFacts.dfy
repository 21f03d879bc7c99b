/** `ScanHistory` agrees with the declarative reading of the history, facet by facet. */
module ScanFacts {
  import opened Basics
  import opened Workflow
  import opened Machine
  import opened HistoryScan
  import D = Determinism

  function TimerAsRecord(t: TimerRecord): OperationRecord {
    OperationRecord(t.started, t.fired, QUIET)
  }

  /** What the index knows about one future, whatever its kind. */
  function OperationAt(ops: Operations, h: Handle): OperationRecord {
    match h.kind
    case Activity => GetOr(ops.activities, h.id, BLANK)
    case Child => GetOr(ops.children, h.id, BLANK)
    case Nexus => GetOr(ops.nexusOps, h.id, BLANK)
    case Timer => TimerAsRecord(GetOr(ops.timers, h.id, IDLE))
  }

  predicate CanceledIn(ops: Operations, id: string) {
    GetOr(ops.timers, id, IDLE).cancelled
  }

  /** Every nonempty history is one event longer than another. */
  lemma Split(h: History) returns (past: History, e: Event)
    requires h != []
    ensures h == past + [e] && past == h[..|h| - 1] && e == h[|h| - 1]
  {
    past, e := h[..|h| - 1], h[|h| - 1];
  }

  lemma ResolvedOncePrefix(h: History, n: nat)
    requires n <= |h| && ResolvedOnce(h)
    ensures ResolvedOnce(h[..n])
  {
    forall i | 0 <= i < n
      ensures ResolvedOnceAt(h[..n], i)
    {
      assert ResolvedOnceAt(h, i);
      assert h[..n][..i] == h[..i];
    }
  }

  // ---- Which event scheduled what --------------------------------------------------------------

  ghost predicate IndexesActivityAt(h: History, m: map<int, string>, sid: int) {
    (sid in m <==> 1 <= sid <= |h| && SchedulesActivity(h[sid - 1].attributes)) &&
    (sid in m ==> m[sid] == h[sid - 1].attributes.record.id)
  }

  ghost predicate IndexesNexusAt(h: History, m: map<int, string>, sid: int) {
    (sid in m <==> 1 <= sid <= |h| && SchedulesNexus(h[sid - 1].attributes)) &&
    (sid in m ==> m[sid] == Decimal(NexusCount(h[..sid - 1])))
  }

  /** The schedule index covers exactly the events of `h`. */
  ghost predicate Indexes(h: History, index: ScheduleIndex) {
    index.nexusOpsScheduled == NexusCount(h) &&
    (forall sid: int :: IndexesActivityAt(h, index.activities, sid)) &&
    (forall sid: int :: IndexesNexusAt(h, index.nexusOps, sid))
  }

  lemma IndexesNexusAtAppend(past: History, e: Event, m: map<int, string>, sid: int)
    requires IndexesNexusAt(past, m, sid) && e.id == |past| + 1
    ensures IndexesNexusAt(past + [e], if SchedulesNexus(e.attributes) then m[e.id := Decimal(NexusCount(past))] else m, sid)
  {
    if 1 <= sid <= |past| + 1 {
      assert (past + [e])[..sid - 1] == past[..sid - 1];
      assert past[..|past|] == past;
    }
  }

  lemma IndexesAppend(past: History, e: Event, index: ScheduleIndex)
    requires Indexes(past, index) && e.id == |past| + 1
    ensures Indexes(past + [e], IndexNext(index, e))
  {
    var index' := IndexNext(index, e);
    assert (past + [e])[..|past|] == past;
    forall sid: int
      ensures IndexesActivityAt(past + [e], index'.activities, sid)
    {
      assert IndexesActivityAt(past, index.activities, sid);
    }
    forall sid: int
      ensures IndexesNexusAt(past + [e], index'.nexusOps, sid)
    {
      assert IndexesNexusAt(past, index.nexusOps, sid);
      IndexesNexusAtAppend(past, e, index.nexusOps, sid);
    }
  }

  lemma {:induction false} ScanIndexes(h: History)
    requires Numbered(h)
    ensures Indexes(h, IndexOf(h))
  {
    if h != [] {
      var past, e := Split(h);
      ScanIndexes(past);
      IndexesAppend(past, e, IndexOf(past));
    }
  }

  lemma {:induction false} IndexCounts(h: History)
    ensures IndexOf(h).nexusOpsScheduled == NexusCount(h)
  {
    if h != [] {
      IndexCounts(h[..|h| - 1]);
    }
  }

  /** Under the index, a resolution event names the future that its scheduling event created. */
  lemma ResolvesByIndex(h: History, index: ScheduleIndex, sid: int, r: Resolution)
    requires Indexes(h, index)
    ensures Resolves(h, ActivityResolved(sid, r)) ==
              if sid in index.activities
              then Some((Handle(Activity, index.activities[sid]), ActivityOutcome(r))) else None
    ensures Resolves(h, NexusResolved(sid, r)) ==
              if sid in index.nexusOps
              then Some((Handle(Nexus, index.nexusOps[sid]), NexusOutcome(r))) else None
  {
    assert IndexesActivityAt(h, index.activities, sid) && IndexesNexusAt(h, index.nexusOps, sid);
  }

  // ---- What each future's record says -----------------------------------------------------------

  lemma BeforeUpdatesLast(h: History)
    requires h != []
    ensures var past := h[..|h| - 1];
            BeforeUpdates(h) == if SawUpdate(past) || h[|h| - 1].attributes.UpdateAccepted? then BeforeUpdates(past) else h
    ensures !SawUpdate(h[..|h| - 1]) ==> BeforeUpdates(h[..|h| - 1]) == h[..|h| - 1]
  {
  }

  /** The record of a future: scheduled if the history created it, resolved as the events before
      the first update say. */
  ghost predicate Faithful(h: History, record: OperationRecord, x: Handle) {
    record.scheduled == (x in Created(h)) &&
    record.resolved == (x in Know(BeforeUpdates(h)).resolved) &&
    record.outcome == GetOr(Know(BeforeUpdates(h)).resolved, x, QUIET)
  }

  /** What the last event of `h` teaches about `x` before any update, if anything. */
  function Taught(h: History, x: Handle): Option<Outcome>
    requires h != []
  {
    var past := h[..|h| - 1];
    if SawUpdate(past) then None
    else if !h[|h| - 1].attributes.FutureResolved? then None
    else match Resolves(past, h[|h| - 1].attributes.how)
         case Some(r) => if r.0 == x then Some(r.1) else None
         case None => None
  }

  lemma LearnOne(k: Knowledge, past: History, a: Attributes, x: Handle)
    ensures var k' := Learn(k, past, a);
            if a.FutureResolved? && Resolves(past, a.how).Some? then
              var r := Resolves(past, a.how).value;
              if r.0 == x then x in k'.resolved && k'.resolved[x] == r.1
              else (x in k'.resolved) == (x in k.resolved) && GetOr(k'.resolved, x, QUIET) == GetOr(k.resolved, x, QUIET)
            else k'.resolved == k.resolved
  {
  }

  /** What `after` knows of `x` is what `before` knew and the last event taught. */
  ghost predicate Grows(h: History, before: map<Handle, Outcome>, after: map<Handle, Outcome>, x: Handle)
    requires h != []
  {
    match Taught(h, x)
    case Some(o) => x !in before && x in after && after[x] == o
    case None => (x in before) == (x in after) && GetOr(before, x, QUIET) == GetOr(after, x, QUIET)
  }

  lemma KnowGrows(h: History, x: Handle)
    requires h != [] && ResolvedOnceAt(h, |h| - 1) && !SawUpdate(h[..|h| - 1])
    ensures Grows(h, Know(h[..|h| - 1]).resolved, Know(h).resolved, x)
  {
    var past, a := h[..|h| - 1], h[|h| - 1].attributes;
    assert Know(h) == Learn(Know(past), past, a);
    LearnOne(Know(past), past, a, x);
  }

  lemma NothingTaught(h: History, known: map<Handle, Outcome>, x: Handle)
    requires h != [] && (SawUpdate(h[..|h| - 1]) || h[|h| - 1].attributes.UpdateAccepted?)
    ensures Grows(h, known, known, x)
  {
  }

  lemma KnowLast(h: History, x: Handle)
    requires h != [] && ResolvedOnceAt(h, |h| - 1)
    ensures Grows(h, Know(BeforeUpdates(h[..|h| - 1])).resolved, Know(BeforeUpdates(h)).resolved, x)
  {
    BeforeUpdatesLast(h);
    if SawUpdate(h[..|h| - 1]) || h[|h| - 1].attributes.UpdateAccepted? {
      NothingTaught(h, Know(BeforeUpdates(h)).resolved, x);
    } else {
      KnowGrows(h, x);
    }
  }

  lemma TaughtOverwritesBlank(h: History, x: Handle)
    requires h != [] && Taught(h, x).Some?
    ensures Overwrite(QUIET, Taught(h, x).value) == Taught(h, x).value
  {
  }

  /** A server that resolved an operation twice would leave its record with the last result and the last
      failure, and failed if either was a failure. */
  lemma SecondOutcome(o: Outcome, r: Outcome)
    ensures Overwrite(o, r).failed == (o.failed || r.failed)
    ensures Overwrite(o, r).result == if r.failed then o.result else r.result
    ensures Overwrite(o, r).failureType == (if r.failed then r.failureType else o.failureType)
    ensures Overwrite(o, r).failureMessage == (if r.failed then r.failureMessage else o.failureMessage)
  {
  }

  /** `next` is `record` after the last event of `h`. */
  ghost predicate Follows(h: History, record: OperationRecord, next: OperationRecord, x: Handle)
    requires h != []
  {
    next.scheduled == (record.scheduled || x in CreatedBy(h[..|h| - 1], h[|h| - 1].attributes)) &&
    match Taught(h, x)
    case Some(o) => next.resolved && next.outcome == Overwrite(record.outcome, o)
    case None => next.resolved == record.resolved && next.outcome == record.outcome
  }

  lemma FaithfulStep(h: History, record: OperationRecord, next: OperationRecord, x: Handle)
    requires h != [] && ResolvedOnce(h)
    requires Faithful(h[..|h| - 1], record, x) && Follows(h, record, next, x)
    ensures Faithful(h, next, x)
  {
    assert ResolvedOnceAt(h, |h| - 1);
    KnowLast(h, x);
    if Taught(h, x).Some? {
      TaughtOverwritesBlank(h, x);
    }
  }

  lemma RecordedFollows(past: History, ops: Operations, index: ScheduleIndex, record: Recording, x: Handle)
    requires index.nexusOpsScheduled == NexusCount(past)
    ensures var before, after := OperationAt(ops, x), OperationAt(OperationRecorded(ops, index.nexusOpsScheduled, record), x);
            after.scheduled == (before.scheduled || x in CreatedBy(past, CommandRecorded(record))) &&
            after.resolved == before.resolved && after.outcome == before.outcome
  {
  }

  lemma ResolvedFollows(past: History, ops: Operations, index: ScheduleIndex, how: Resolving, x: Handle)
    requires Indexes(past, index)
    ensures var before, after := OperationAt(ops, x), OperationAt(OperationResolved(ops, index, how), x);
            after.scheduled == before.scheduled &&
            if Resolves(past, how).Some? && Resolves(past, how).value.0 == x then
              after.resolved && after.outcome == Overwrite(before.outcome, Resolves(past, how).value.1)
            else after.resolved == before.resolved && after.outcome == before.outcome
  {
    if how.ActivityResolved? || how.NexusResolved? {
      ResolvesByIndex(past, index, how.scheduledId, how.resolution);
    }
  }

  lemma NextFollows(h: History, ops: Operations, index: ScheduleIndex, x: Handle)
    requires h != [] && Indexes(h[..|h| - 1], index)
    ensures Follows(h, OperationAt(ops, x),
                    OperationAt(OperationsNext(ops, index, SawUpdate(h[..|h| - 1]), h[|h| - 1].attributes), x), x)
  {
    var past, a := h[..|h| - 1], h[|h| - 1].attributes;
    match a
    case CommandRecorded(record) => RecordedFollows(past, ops, index, record, x);
    case FutureResolved(how) => ResolvedFollows(past, ops, index, how, x);
    case _ =>
  }

  lemma {:induction false} ScanFaithful(h: History, x: Handle)
    requires Numbered(h) && ResolvedOnce(h)
    ensures Faithful(h, OperationAt(OperationsOf(h), x), x)
  {
    if h != [] {
      var past := h[..|h| - 1];
      ResolvedOncePrefix(h, |past|);
      ScanFaithful(past, x);
      ScanIndexes(past);
      NextFollows(h, OperationsOf(past), IndexOf(past), x);
      FaithfulStep(h, OperationAt(OperationsOf(past), x), OperationAt(OperationsOf(h), x), x);
    }
  }

  lemma {:induction false} ScanCanceled(h: History, id: string)
    ensures CanceledIn(OperationsOf(h), id) == (id in CanceledTimers(h))
  {
    hide IndexOf, SawUpdate;
    if h != [] {
      ScanCanceled(h[..|h| - 1], id);
    }
  }

  lemma {:induction false} ScanSignals(h: History)
    ensures SignalsOf(h) == Know(BeforeUpdates(h)).signals
  {
    if h != [] {
      ScanSignals(h[..|h| - 1]);
      BeforeUpdatesLast(h);
    }
  }

  // ---- Which commands were recorded ------------------------------------------------------------

  /** The index repeats the recorded commands: identities, ordinal counts and marker values. */
  ghost predicate Repeats(env: Env, commands: seq<Command>, ps: Prescan) {
    ps.records.commands == Identities(commands) &&
    ps.records.extSignalsInitiated == Count(Signals, commands) &&
    ps.records.upsertsInitiated == Count(Upserts, commands) &&
    |ps.records.sideEffects| == Count(SideEffects, commands) &&
    |ps.records.localActivities| == Count(Locals, commands) &&
    (forall i :: 0 <= i < |ps.records.sideEffects| ==> ps.records.sideEffects[i] == env.world.side(i)) &&
    (forall i :: 0 <= i < |ps.records.localActivities| ==> ps.records.localActivities[i] == env.world.local(i))
  }

  lemma RecordsSplit(h: History, commands: seq<Command>)
    requires h != [] && RecordsExactly(h, commands)
    ensures var past, a := h[..|h| - 1], h[|h| - 1].attributes;
            if a.CommandRecorded? then
              commands != [] && RecordsExactly(past, commands[..|commands| - 1]) && a.record == RecordingOf(commands[|commands| - 1])
            else RecordsExactly(past, commands)
  {
    var past, a := h[..|h| - 1], h[|h| - 1].attributes;
    if a.CommandRecorded? {
      var n := |commands| - 1;
      assert Recorded(h)[n] == RecordingOf(commands[n]);
      forall i | 0 <= i < n
        ensures Recorded(past)[i] == RecordingOf(commands[..n][i])
      {
        assert Recorded(h)[i] == RecordingOf(commands[i]);
      }
    }
  }

  /** The futures, cancellations and Nexus operations of a history are those of the commands it
      recorded: in particular the n-th Nexus event belongs to the n-th Nexus call. */
  lemma {:induction false} RecordedCreates(env: Env, h: History, commands: seq<Command>)
    requires RecordsExactly(h, commands) && WellNumbered(env, commands)
    ensures Created(h) == Handles(commands)
    ensures CanceledTimers(h) == Cancels(commands)
    ensures NexusCount(h) == Count(Nexuses, commands)
  {
    if h != [] {
      RecordsSplit(h, commands);
      if h[|h| - 1].attributes.CommandRecorded? {
        var n := |commands| - 1;
        WellNumberedPrefix(env, commands[..n], commands);
        RecordedCreates(env, h[..|h| - 1], commands[..n]);
        assert WellNumberedAt(env, commands, n);
      } else {
        RecordedCreates(env, h[..|h| - 1], commands);
      }
    }
  }

  lemma IdentitiesLast(commands: seq<Command>)
    requires commands != []
    ensures Identities(commands) == Identities(commands[..|commands| - 1]) + [Identity(commands[|commands| - 1])]
  {
  }

  lemma {:induction false} RecordedIdentities(env: Env, h: History, commands: seq<Command>)
    requires RecordsExactly(h, commands) && WellNumbered(env, commands)
    ensures RecordsOf(h).commands == Identities(commands)
  {
    hide Created, CanceledTimers, Handles, Cancels;
    if h != [] {
      RecordsSplit(h, commands);
      if h[|h| - 1].attributes.CommandRecorded? {
        var n := |commands| - 1;
        WellNumberedPrefix(env, commands[..n], commands);
        RecordedIdentities(env, h[..|h| - 1], commands[..n]);
        RecordedCreates(env, h[..|h| - 1], commands[..n]);
        IndexCounts(h[..|h| - 1]);
        assert WellNumberedAt(env, commands, n);
        IdentitiesLast(commands);
      } else {
        RecordedIdentities(env, h[..|h| - 1], commands);
      }
    }
  }

  lemma {:induction false} RecordedCounts(h: History, commands: seq<Command>)
    requires RecordsExactly(h, commands)
    ensures RecordsOf(h).extSignalsInitiated == Count(Signals, commands) && RecordsOf(h).upsertsInitiated == Count(Upserts, commands)
  {
    if h != [] {
      RecordsSplit(h, commands);
      RecordedCounts(h[..|h| - 1], if h[|h| - 1].attributes.CommandRecorded? then commands[..|commands| - 1] else commands);
    }
  }

  lemma {:induction false} RecordedMarkers(env: Env, h: History, commands: seq<Command>)
    requires RecordsExactly(h, commands) && WellNumbered(env, commands)
    ensures |RecordsOf(h).sideEffects| == Count(SideEffects, commands) && |RecordsOf(h).localActivities| == Count(Locals, commands)
    ensures forall i :: 0 <= i < |RecordsOf(h).sideEffects| ==> RecordsOf(h).sideEffects[i] == env.world.side(i)
    ensures forall i :: 0 <= i < |RecordsOf(h).localActivities| ==> RecordsOf(h).localActivities[i] == env.world.local(i)
  {
    if h != [] {
      RecordsSplit(h, commands);
      if h[|h| - 1].attributes.CommandRecorded? {
        var n := |commands| - 1;
        WellNumberedPrefix(env, commands[..n], commands);
        RecordedMarkers(env, h[..|h| - 1], commands[..n]);
        assert WellNumberedAt(env, commands, n);
      } else {
        RecordedMarkers(env, h[..|h| - 1], commands);
      }
    }
  }

  lemma ScanRepeats(env: Env, h: History, commands: seq<Command>)
    requires RecordsExactly(h, commands) && WellNumbered(env, commands)
    ensures Repeats(env, commands, Scan(h))
  {
    RecordedIdentities(env, h, commands);
    RecordedCounts(h, commands);
    RecordedMarkers(env, h, commands);
  }
}
