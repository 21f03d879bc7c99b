/** What the two ways of rebuilding a workflow guarantee to the server and to callers. */
module Guarantees {
  import opened Basics
  import opened Workflow
  import opened Machine
  import opened HistoryScan
  import opened ScanFacts
  import opened Engine
  import opened Simulation
  import opened Progress
  import opened Feeding
  import opened Replay
  import opened Continuation
  import D = Determinism

  // ---- Determinism check and exactly-once emission ---------------------------------------------

  lemma PrefixReproduces(a: seq<Command>, b: seq<Command>)
    requires a <= b
    ensures D.Reproduces(Identities(b), Identities(a))
  {
    forall i | 0 <= i < |a|
      ensures D.AgreeAt(Identities(b), Identities(a), i)
    {
      D.MatchingIsEquivalence(Identity(a[i]), Identity(a[i]), Identity(a[i]));
    }
  }

  /** `CheckDeterminism` accepts every full replay of a lawful history. */
  lemma NoFalseNondeterminism(env: Env, h: History, live: World, budget: nat)
    requires Lawful(env, h) && SameWorld(env.world, RecordsOf(h), live)
    ensures var r := Run(NewRunner(env.workflowId, env.body, live, Scan(h)), budget);
            r.deadlocked || Deterministic(r)
  {
    hide Lawful, Reaches, Writes, RecordsExactly, WellNumbered, Recorded, RecordsOf, SameWorld, Run, NewRunner;
    var r, m := FullReplay(env, h, live, budget);
    if !r.deadlocked {
      ReachesKeeps(env, h, m);
      WritesExactly(env, m, h);
      RecordedIdentities(env, h, RecordedBy(m, h));
      assert m.trace[0..] == m.trace;
      PrefixReproduces(RecordedBy(m, h), m.trace);
    }
  }

  /** The commands of the task response: those emitted, and the terminal one last. */
  function AnswerOf(r: RunnerState): seq<Command> {
    r.commands + if r.phase.Finished? then [CloseWorkflow(r.phase.how)] else []
  }

  /** The response carries exactly what the body did beyond `past` and since `start`. */
  lemma AnswerIsNewPart(env: Env, k: Knowledge, past: seq<Command>, start: nat, r: RunnerState, m: Machine)
    requires Simulates(env, k, past, start, r, m) && past <= m.trace
    requires m.phase.Finished? ==> Max(start, |past|) < |m.trace|
    ensures AnswerOf(r) == m.trace[Max(start, |past|)..]
  {
    hide Aware, SameCursors, Tallied, AllMinted, WellNumbered, CancelsHeld;
    var n := Max(start, |past|);
    if m.phase.Finished? {
      assert m.trace[n..][|m.trace[n..]| - 1] == m.trace[|m.trace| - 1];
    } else {
      assert m.trace[n..] != [] ==> m.trace[n..][|m.trace[n..]| - 1] == m.trace[|m.trace| - 1];
    }
  }

  /** Each operation is answered once: after a full replay the response continues the recorded
      commands exactly where they stop. */
  lemma AnswersTheRest(env: Env, h: History, live: World, budget: nat)
    requires Lawful(env, h) && SameWorld(env.world, RecordsOf(h), live)
    ensures var r := Run(NewRunner(env.workflowId, env.body, live, Scan(h)), budget);
            r.deadlocked || (r.phase.Finished? && |Recorded(h)| == |r.produced|) ||
            (|Recorded(h)| <= |r.produced| && Identities(AnswerOf(r)) == r.produced[|Recorded(h)|..])
  {
    hide Lawful, Reaches, Writes, Simulates, Recorded, RecordsOf, SameWorld, Run, NewRunner, Identity, AnswerOf;
    var r, m := FullReplay(env, h, live, budget);
    if !r.deadlocked {
      var n := |Recorded(h)|;
      ProducedAll(env, Know(h), RecordedBy(m, h), r, m);
      WritesFits(m, h);
      if m.phase.Finished? && |m.trace| == n {
      } else {
        AnswerIsNewPart(env, Know(h), RecordedBy(m, h), 0, r, m);
        assert Identities(m.trace[n..]) == Identities(m.trace)[n..];
      }
    }
  }

  lemma ProducedAll(env: Env, k: Knowledge, past: seq<Command>, r: RunnerState, m: Machine)
    requires Simulates(env, k, past, 0, r, m)
    ensures r.produced == Identities(m.trace) && r.phase == m.phase
  {
    hide Consistent, Aware, Identity;
    assert m.trace[0..] == m.trace;
  }

  lemma WritesFits(m: Machine, h: History)
    requires Writes(m, Recorded(h))
    ensures |RecordedBy(m, h)| == |Recorded(h)| && RecordedBy(m, h) <= m.trace
  {
  }

  // ---- No resolution is lost or misrouted ------------------------------------------------------

  /** Every scheduling event the index knows leads to a future that the body's own call registered. */
  lemma IndexLeadsToFutures(env: Env, h: History, seen: nat, past: seq<Command>, start: nat, r: RunnerState, m: Machine, sid: int)
    requires Resident(env, h, seen, past, start, r, m) && Writes(m, Recorded(h)) && m.phase.Running?
    ensures sid in r.scan.index.activities ==>
              Handle(Activity, r.scan.index.activities[sid]) in r.futures &&
              Minted(env, r.counters, Handle(Activity, r.scan.index.activities[sid]))
    ensures sid in r.scan.index.nexusOps ==>
              Handle(Nexus, r.scan.index.nexusOps[sid]) in r.futures &&
              Minted(env, r.counters, Handle(Nexus, r.scan.index.nexusOps[sid]))
    ensures r.scan.index.nexusOpsScheduled <= r.counters.nexus
  {
    hide Foreseen, GuardsFutures, GuardsCancels, GuardsCounts, SameWorld, Emitted, Created, Writes, Recorded,
         CanceledTimers, Know;
    var before := h[..seen];
    WritesPrefix(m, h, seen);
    WritesExactly(env, m, before);
    assert IndexesActivityAt(before, r.scan.index.activities, sid) && IndexesNexusAt(before, r.scan.index.nexusOps, sid);
    RecordedCreates(env, before, RecordedBy(m, before));
    PrefixMonotone(RecordedBy(m, before), m.trace);
    if 1 <= sid <= seen {
      CreatedStep(before, sid - 1);
      CreatedGrows(before, sid);
    }
  }

  /** The next event resolves the future it names, with its outcome; no other future changes, and
      the early returns for unknown operations are not taken. */
  lemma ResolutionArrives(env: Env, h: History, q: nat, past: seq<Command>, start: nat, r: RunnerState, m: Machine)
    requires Lawful(env, h) && Resident(env, h, q, past, start, r, m) && Writes(m, Recorded(h)) && m.phase.Running?
    requires q < |h| && h[q].attributes.FutureResolved? && Resolves(h[..q], h[q].attributes.how).Some?
    ensures var (x, o) := Resolves(h[..q], h[q].attributes.how).value;
            x in r.futures && (r.futures[x].ready ==> x.kind == Timer && x.id in m.cancelled) &&
            ApplyEvent(r, h[q]).futures == r.futures[x := FutureState(true, r.futures[x].cancelled, o)]
  {
    hide Foreseen, GuardsFutures, GuardsCancels, GuardsCounts, SameWorld, Emitted, Created, Writes, Recorded,
         CanceledTimers, Consistent, Know, ApplyResolution, Indexes, Authored;
    var how := h[q].attributes.how;
    var (x, o) := Resolves(h[..q], how).value;
    assert PlausibleAt(h, q);
    WritesPrefix(m, h, q);
    WritesExactly(env, m, h[..q]);
    IndexLocates(h[..q], q, r.scan.index);
    assert h[..q][..q] == h[..q];
    ResolutionHits(h[..q], how, Know(h[..q]), r, m.futures, m.cancelled);
    assert r.futures[x] == View(Know(h[..q]), m.cancelled, x);
    TimerOutcomeQuiet(h[..q], how);
  }

  lemma TimerOutcomeQuiet(h: History, how: Resolving)
    requires Resolves(h, how).Some?
    ensures Resolves(h, how).value.0.kind == Timer ==> Resolves(h, how).value.1 == QUIET
  {
  }

  // ---- Queries ---------------------------------------------------------------------------------

  lemma StepShows(env: Env, k: Knowledge, m: Machine)
    requires !Settled(k, m)
    ensures |m.log| < |Step(env, k, m).log| || Step(env, k, m).phase != m.phase
    ensures |m.log| <= |Step(env, k, m).log|
  {
  }

  lemma {:induction false} IterateGrowsLog(env: Env, k: Knowledge, m: Machine, n: nat)
    ensures |m.log| <= |Iterate(env, k, m, n).log|
    decreases n
  {
    hide Settled, Step;
    if n > 0 && !Settled(k, m) {
      StepShows(env, k, m);
      IterateGrowsLog(env, k, Step(env, k, m), n - 1);
    }
  }

  lemma MovesShow(env: Env, k: Knowledge, m: Machine, end: Machine)
    requires Settles(env, k, m, end)
    ensures (m.log == end.log && m.phase == end.phase) <==> Settled(k, m)
  {
    var n := SettledAt(env, k, m, end);
    if !Settled(k, m) {
      StepShows(env, k, m);
      var m1 := Step(env, k, m);
      IterateGrowsLog(env, k, m1, n - 1);
      if m1.phase.Finished? {
        assert Iterate(env, k, m1, n - 1) == m1;
      }
    }
  }

  /** A query answered from the cached runner sees what a rebuilt runner would show exactly when the
      events the cached one has not been given leave its body where it is. */
  lemma QueryAgreement(env: Env, h: History, seen: nat, c: nat, past: seq<Command>, start: nat, cached: RunnerState, m: Machine,
                       live: World, budget: nat)
    requires Lawful(env, h) && seen <= c <= |h| && Updateless(h, c)
    requires Resident(env, h, seen, past, start, cached, m) && Reaches(env, h[..c], m)
    requires SameWorld(env.world, RecordsOf(h), live)
    ensures var rebuilt := Run(NewRunner(env.workflowId, env.body, live, Scan(h)), budget);
            rebuilt.deadlocked ||
            ((cached.log == rebuilt.log && cached.phase == rebuilt.phase) <==> Settled(Know(h), m))
  {
    hide Reaches, Writes, Indexes, Settled, Settles, Run, NewRunner, SameWorld, Authored, Plausible, Consistent,
         Aware, Emitted;
    var rebuilt, end := FullReplay(env, h, live, budget);
    if !rebuilt.deadlocked {
      assert h[..|h|] == h;
      LawfulParts(env, h);
      ReachesBatch(env, h, c, m, end);
      MovesShow(env, Know(h), m, end);
    }
  }

  // ---- Values that were never recorded do not matter -------------------------------------------

  /** The two worlds agree on everything `c` has consumed. */
  ghost predicate AgreeUpTo(a: World, b: World, c: Counters) {
    (forall i: nat :: i < c.sideEffects ==> a.side(i) == b.side(i)) &&
    (forall i: nat :: i < c.locals ==> a.local(i) == b.local(i))
  }

  function InWorld(env: Env, world: World): Env {
    Env(env.workflowId, env.body, world)
  }

  lemma StepInWorld(env: Env, world: World, k: Knowledge, m: Machine)
    requires !Settled(k, m) && AgreeUpTo(env.world, world, Step(env, k, m).counters)
    ensures Step(InWorld(env, world), k, m) == Step(env, k, m)
  {
  }

  lemma FewerConsumed(a: World, b: World, c: Counters, d: Counters)
    requires AgreeUpTo(a, b, d) && c.sideEffects <= d.sideEffects && c.locals <= d.locals
    ensures AgreeUpTo(a, b, c)
  {
  }

  /** A longer trace has consumed at least as much. */
  lemma LongerConsumes(m: Machine, m': Machine)
    requires Tallied(m) && Tallied(m') && m.trace <= m'.trace
    ensures m.counters.sideEffects <= m'.counters.sideEffects && m.counters.locals <= m'.counters.locals
  {
    PrefixMonotone(m.trace, m'.trace);
  }

  lemma {:induction false} IterateInWorld(env: Env, world: World, k: Knowledge, m: Machine, n: nat)
    requires Consistent(env, m) && AgreeUpTo(env.world, world, Iterate(env, k, m, n).counters)
    ensures Iterate(InWorld(env, world), k, m, n) == Iterate(env, k, m, n)
    decreases n
  {
    hide Step, Settled, AgreeUpTo, InWorld, AllMinted, WellNumbered, EndsOnce, CancelsHeld;
    if n > 0 && !Settled(k, m) {
      var m1 := Step(env, k, m);
      StepConsistent(env, k, m);
      IterateConsistent(env, k, m1, n - 1);
      IterateExtendsTrace(env, k, m1, n - 1);
      LongerConsumes(m1, Iterate(env, k, m1, n - 1));
      FewerConsumed(env.world, world, m1.counters, Iterate(env, k, m1, n - 1).counters);
      StepInWorld(env, world, k, m);
      IterateInWorld(env, world, k, m1, n - 1);
    }
  }

  lemma SettlesInWorld(env: Env, world: World, k: Knowledge, m: Machine, end: Machine)
    requires Consistent(env, m) && Settles(env, k, m, end) && AgreeUpTo(env.world, world, end.counters)
    ensures Settles(InWorld(env, world), k, m, end)
  {
    var n := SettledAt(env, k, m, end);
    IterateInWorld(env, world, k, m, n);
  }

  /** Two runs that agree on what they consumed are the same run. */
  lemma {:induction false} ReachesInWorld(env: Env, world: World, h: History, m: Machine)
    requires Reaches(env, h, m) && AgreeUpTo(env.world, world, m.counters)
    ensures Reaches(InWorld(env, world), h, m)
    decreases |h|
  {
    hide Settles, AgreeUpTo, AllMinted, WellNumbered, EndsOnce, CancelsHeld, Settled;
    if h == [] {
      InitConsistent(env);
      assert Init(InWorld(env, world)) == Init(env);
      SettlesInWorld(env, world, NOTHING, Init(env), m);
    } else {
      var m0 := Before(env, h, m);
      ReachesKeeps(env, h, m);
      ReachesKeeps(env, h[..|h| - 1], m0);
      ArrivesKeeps(env, Know(h[..|h| - 1]), Know(h), m0, h[|h| - 1].attributes, m);
      LongerConsumes(m0, m);
      FewerConsumed(env.world, world, m0.counters, m.counters);
      ReachesInWorld(env, world, h[..|h| - 1], m0);
      if !h[|h| - 1].attributes.UpdateAccepted? {
        SettlesInWorld(env, world, Know(h), m0, m);
      }
      ReachesNext(InWorld(env, world), h, m0, m);
    }
  }
}
