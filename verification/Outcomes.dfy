/** What a body is told of an operation that has ended, said of the event that ended it
    (src/internal/workflow_task_handler.cpp:277-420 and 1180-1363). */
module Outcomes {
  import opened Basics
  import opened Workflow
  import opened Machine
  import opened HistoryScan
  import opened ScanFacts
  import opened Engine
  import opened Simulation
  import opened Progress
  import opened Replay
  import opened Continuation
  import opened Guarantees
  import opened Divergence

  // ---- What an event says --------------------------------------------------------------------------

  /** The outcome says how the operation, called `what` in messages, ended. */
  predicate ConveysResolution(r: Resolution, what: string, o: Outcome) {
    (o.failed <==> !r.Completed?) &&
    (r.Completed? ==> o.result == r.result) &&
    (!r.Completed? ==> o.result == []) &&
    (r.Failed? ==> o.failureType == r.failureType && o.failureMessage == r.failureMessage) &&
    (r.TimedOut? ==> o.failureType == "TimeoutError" && o.failureMessage == what + " timed out") &&
    (r.Canceled? ==> o.failureType == "CanceledError" && o.failureMessage == what + " cancelled")
  }

  predicate ConveysEnding(e: ChildEnding, o: Outcome) {
    (o.failed <==> !e.ChildCompleted?) &&
    (e.ChildCompleted? ==> o.result == e.result) &&
    (!e.ChildCompleted? ==> o.result == []) &&
    (e.ChildFailed? ==> o.failureType == e.failureType && o.failureMessage == e.failureMessage) &&
    (e.ChildCanceled? ==> o.failureType == "CanceledError" && o.failureMessage == "child workflow cancelled")
  }

  predicate Conveys(how: Resolving, o: Outcome) {
    match how
    case ActivityResolved(_, r) => ConveysResolution(r, "activity", o)
    case NexusResolved(_, r) => ConveysResolution(r, "nexus operation", o)
    case ChildResolved(_, e) => ConveysEnding(e, o)
    case TimerFired(_) => !o.failed && o.result == []
  }

  /** Event number `i` ends the operation behind the future `x`: it names its scheduling event, its child or
      its timer. */
  predicate EndsOperation(h: History, i: nat, x: Handle)
    requires i < |h|
  {
    h[i].attributes.FutureResolved? &&
    match h[i].attributes.how
    case ActivityResolved(sid, _) =>
      x.kind.Activity? && 1 <= sid <= i && h[sid - 1].attributes.CommandRecorded? &&
      h[sid - 1].attributes.record.ActivityScheduled? && h[sid - 1].attributes.record.id == x.id
    case NexusResolved(sid, _) =>
      x.kind.Nexus? && 1 <= sid <= i && h[sid - 1].attributes.CommandRecorded? &&
      h[sid - 1].attributes.record.NexusScheduled? && x.id == Decimal(NexusAmong(Recorded(h[..sid - 1])))
    case ChildResolved(id, e) => x == Handle(Child, id) && (e.ChildCompleted? || e.ChildFailed? || e.ChildCanceled?)
    case TimerFired(id) => x == Handle(Timer, id)
  }

  ghost predicate Ended(h: History, x: Handle) {
    exists i :: 0 <= i < |h| && EndsOperation(h, i, x)
  }

  /** The outcome is what the event that ended the operation says. */
  ghost predicate EndedWith(h: History, x: Handle, o: Outcome) {
    exists i :: 0 <= i < |h| && EndsOperation(h, i, x) && Conveys(h[i].attributes.how, o)
  }

  lemma ResolvesNexus(h: History, i: nat, x: Handle)
    requires i < |h| && h[i].attributes.FutureResolved? && h[i].attributes.how.NexusResolved?
    ensures var r := Resolves(h[..i], h[i].attributes.how);
            (EndsOperation(h, i, x) <==> r.Some? && r.value.0 == x) && (r.Some? ==> Conveys(h[i].attributes.how, r.value.1))
  {
    var sid := h[i].attributes.how.scheduledId;
    if 1 <= sid <= i {
      assert h[..i][..sid - 1] == h[..sid - 1];
      NexusCountsRecorded(h[..sid - 1]);
    }
    hide NexusCount, NexusAmong, Recorded;
  }

  lemma ResolvesSays(h: History, i: nat, x: Handle)
    requires i < |h| && h[i].attributes.FutureResolved?
    ensures var r := Resolves(h[..i], h[i].attributes.how);
            (EndsOperation(h, i, x) <==> r.Some? && r.value.0 == x) && (r.Some? ==> Conveys(h[i].attributes.how, r.value.1))
  {
    hide NexusCount, NexusAmong, Recorded, Decimal;
    match h[i].attributes.how
    case ActivityResolved(_, _) =>
    case NexusResolved(_, _) => ResolvesNexus(h, i, x);
    case ChildResolved(_, _) =>
    case TimerFired(_) =>
  }

  lemma EndsEarlier(h: History, n: nat, i: nat, x: Handle)
    requires i < n <= |h|
    ensures EndsOperation(h[..n], i, x) <==> EndsOperation(h, i, x)
  {
    if h[i].attributes.FutureResolved? && h[i].attributes.how.NexusResolved? && 1 <= h[i].attributes.how.scheduledId <= i {
      var sid := h[i].attributes.how.scheduledId;
      assert h[..n][..sid - 1] == h[..sid - 1];
    }
  }

  lemma EndedGrows(h: History, n: nat, x: Handle, o: Outcome)
    requires n <= |h|
    ensures Ended(h[..n], x) ==> Ended(h, x)
    ensures EndedWith(h[..n], x, o) ==> EndedWith(h, x, o)
  {
    hide Conveys;
    if Ended(h[..n], x) {
      var i :| 0 <= i < n && EndsOperation(h[..n], i, x);
      EndsEarlier(h, n, i, x);
    }
    if EndedWith(h[..n], x, o) {
      var i :| 0 <= i < n && EndsOperation(h[..n], i, x) && Conveys(h[..n][i].attributes.how, o);
      EndsEarlier(h, n, i, x);
    }
  }

  /** What one more event ends. */
  lemma EndedLast(h: History, x: Handle)
    requires h != []
    ensures Ended(h, x) <==> Ended(h[..|h| - 1], x) || EndsOperation(h, |h| - 1, x)
  {
    var n := |h| - 1;
    hide EndsOperation;
    EndedGrows(h, n, x, QUIET);
    if Ended(h, x) && !EndsOperation(h, n, x) {
      var i :| 0 <= i < |h| && EndsOperation(h, i, x);
      EndsEarlier(h, n, i, x);
    }
  }

  /** What is known of futures is exactly what the history says of them: which have ended, and how. */
  lemma {:induction false} KnownExactly(h: History, x: Handle)
    requires Plausible(h)
    ensures x in Know(h).resolved <==> Ended(h, x)
    ensures x in Know(h).resolved ==> EndedWith(h, x, Know(h).resolved[x])
  {
    if h != [] {
      var n := |h| - 1;
      var past, a := h[..n], h[n].attributes;
      PlausiblePrefix(h, n);
      KnownExactly(past, x);
      EndedLast(h, x);
      LearnOne(Know(past), past, a, x);
      assert Know(h) == Learn(Know(past), past, a);
      if a.FutureResolved? {
        assert PlausibleAt(h, n);
        ResolvesSays(h, n, x);
      }
      hide Learn, Resolves, EndsOperation, Conveys, Know;
      if x in Know(past).resolved {
        EndedGrows(h, n, x, Know(past).resolved[x]);
      }
    }
  }

  // ---- The index, the cached runner and the body ---------------------------------------------------

  /** The record that the prescan makes of an operation: resolved exactly if an event before the first
      update ended it, with the outcome that the event says. */
  lemma ScanConveys(h: History, x: Handle)
    requires Numbered(h) && Plausible(h)
    ensures var record := OperationAt(OperationsOf(h), x);
            (record.resolved <==> Ended(BeforeUpdates(h), x)) &&
            (record.resolved ==> EndedWith(BeforeUpdates(h), x, record.outcome)) &&
            (!record.resolved ==> record.outcome == QUIET)
  {
    hide OperationsOf, Know, EndedWith, Ended, Plausible;
    PlausiblePrefix(h, |h|);
    assert h[..|h|] == h;
    ScanFaithful(h, x);
    var first := BeforeUpdates(h);
    assert first == h[..|first|];
    PlausiblePrefix(h, |first|);
    KnownExactly(first, x);
  }

  /** The next event ends an operation: in every resident runner its future, and no other, becomes ready,
      and unless it is a timer's it carries what the event says. */
  lemma ApplyConveys(env: Env, h: History, q: nat, past: seq<Command>, start: nat, r: RunnerState, m: Machine, x: Handle)
    requires Lawful(env, h) && Resident(env, h, q, past, start, r, m) && Writes(m, Recorded(h)) && m.phase.Running?
    requires q < |h| && EndsOperation(h, q, x)
    ensures var futures := ApplyEvent(r, h[q]).futures;
            x in r.futures && x in futures && futures[x].ready && Conveys(h[q].attributes.how, futures[x].outcome) &&
            forall y :: y in r.futures && y != x ==> y in futures && futures[y] == r.futures[y]
  {
    hide Foreseen, GuardsFutures, GuardsCancels, GuardsCounts, SameWorld, Emitted, Created, Writes, Recorded,
         CanceledTimers, Consistent, Know, ApplyEvent, Indexes, Authored, Plausible, EndsOperation, Resolves, Conveys;
    assert h[q].attributes.FutureResolved? by { EndsIsResolution(h, q, x); }
    ResolvesSays(h, q, x);
    ResolutionArrives(env, h, q, past, start, r, m);
  }

  lemma EndsIsResolution(h: History, q: nat, x: Handle)
    requires q < |h| && EndsOperation(h, q, x)
    ensures h[q].attributes.FutureResolved?
  {
  }

  /** A body that waits for the operation is told at once what the event says. */
  lemma BodyHears(env: Env, h: History, q: nat, x: Handle, m: Machine, m': Machine)
    requires Lawful(env, h) && q < |h| && EndsOperation(h, q, x)
    requires Reaches(env, h[..q], m) && Reaches(env, h[..q + 1], m') && m.phase == Running(Get(x)) && x in m.futures
    ensures |m.log| < |m'.log| && m'.log[..|m.log|] == m.log
    ensures m'.log[|m.log|].Resolved? && Conveys(h[q].attributes.how, m'.log[|m.log|].outcome)
  {
    hide Reaches, Authored, Plausible, EndsOperation, Conveys, Iterate, Learn, Resolves;
    var next := h[..q + 1];
    assert next[..|next| - 1] == h[..q] && next[q] == h[q];
    EndsIsResolution(h, q, x);
    ResolvesSays(h, q, x);
    LearnOne(Know(h[..q]), h[..q], h[q].attributes, x);
    var m0 := Before(env, next, m');
    ReachesUnique(env, h[..q], m0, m);
    var n := SettledAt(env, Know(next), m, m');
    var (y, o) := Resolves(h[..q], h[q].attributes.how).value;
    assert x in Know(next).resolved && Know(next).resolved[x] == o;
    TimerIsQuiet(h[..q], h[q].attributes.how);
    FirstTold(env, Know(next), m, m', n, Resolved(o));
  }

  lemma TimerIsQuiet(past: History, how: Resolving)
    ensures Resolves(past, how).Some? && Resolves(past, how).value.0.kind.Timer? ==> Resolves(past, how).value.1 == QUIET
  {
  }

  lemma FirstTold(env: Env, k: Knowledge, m: Machine, end: Machine, n: nat, input: Input)
    requires !Settled(k, m) && Settled(k, end) && Iterate(env, k, m, n) == end && Step(env, k, m).log == m.log + [input]
    ensures m.log + [input] <= end.log
  {
    IterateExtendsLog(env, k, Step(env, k, m), n - 1);
  }

  lemma {:induction false} IterateExtendsLog(env: Env, k: Knowledge, m: Machine, n: nat)
    ensures m.log <= Iterate(env, k, m, n).log
    decreases n
  {
    if n > 0 && !Settled(k, m) {
      assert m.log <= Step(env, k, m).log;
      hide Step, Settled;
      IterateExtendsLog(env, k, Step(env, k, m), n - 1);
    }
  }
}
