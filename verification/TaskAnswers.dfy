/** What a worker answers to each task and what it keeps for the next one, said of runners and histories
    instead of the handler's own functions (src/internal/workflow_task_handler.cpp:1759-1988). */
module TaskAnswers {
  import opened Basics
  import opened Workflow
  import opened Machine
  import opened HistoryScan
  import opened ScanFacts
  import opened Engine
  import opened Simulation
  import opened Progress
  import opened Replay
  import opened Continuation
  import opened Guarantees
  import opened TaskHandling
  import opened ClusterSafety
  import opened Divergence
  import opened Cluster
  import L = Lru

  // ---- What a task leaves in the cache -------------------------------------------------------------

  /** Every run is found, or not, as before. */
  ghost predicate SameLookups(a: Cache, b: Cache) {
    forall k :: L.Lookup(a, k) == L.Lookup(b, k)
  }

  /** Every run but this one is found, or not, as before. */
  ghost predicate SameOthers(a: Cache, b: Cache, runId: string) {
    forall k :: k != runId ==> L.Lookup(a, k) == L.Lookup(b, k)
  }

  lemma TouchLookups(cache: Cache, runId: string)
    ensures SameLookups(L.Touch(cache, runId), cache)
  {
    forall k
      ensures L.Lookup(L.Touch(cache, runId), k) == L.Lookup(cache, k)
    {
      L.LookupTouch(cache, runId, k);
    }
  }

  lemma RemoveLookups(cache: Cache, runId: string)
    ensures SameOthers(L.Remove(cache, runId), cache, runId) && L.Lookup(L.Remove(cache, runId), runId).None?
  {
    forall k
      ensures L.Lookup(L.Remove(cache, runId), k) == if k == runId then None else L.Lookup(cache, k)
    {
      L.LookupRemove(cache, runId, k);
    }
  }

  lemma RefreshLookups(cache: Cache, runId: string, r: RunnerState)
    ensures SameOthers(Refresh(cache, runId, r), cache, runId) && L.Lookup(Refresh(cache, runId, r), runId) == Some(r)
  {
    forall k
      ensures L.Lookup(Refresh(cache, runId, r), k) == if k == runId then Some(r) else L.Lookup(cache, k)
    {
      L.LookupRemove(cache, runId, k);
      L.LookupFront(L.Entry(runId, r), L.Remove(cache, runId), k);
    }
  }

  /** The worker answered: it lists what the runner emitted, accepts the updates, ends the workflow if its
      body has ended, and keeps the runner, with the updates run against it, exactly if it has not. */
  ghost predicate Answers(r: RunnerState, updates: seq<Update>, runId: string, cache': Cache, response: Response) {
    response.Completed? && response.commands == r.commands && response.updates == updates &&
    (response.closing.Some? <==> r.phase.Finished?) && (r.phase.Finished? ==> response.closing.value == r.phase.how) &&
    match L.Lookup(cache', runId)
    case None => r.phase.Finished?
    case Some(kept) => r.phase.Running? && Heard(r, updates, kept)
  }

  /** The runner has told its body of those updates that it handles, in order, and done nothing else. */
  ghost predicate Heard(r: RunnerState, updates: seq<Update>, kept: RunnerState) {
    kept == r.(log := r.log + Told(updates, r.handlers))
  }

  function Told(updates: seq<Update>, handlers: set<string>): seq<Input> {
    if updates == [] then []
    else
      var last := updates[|updates| - 1];
      Told(updates[..|updates| - 1], handlers) + if last.name in handlers then [Updated(last.name, last.args)] else []
  }

  lemma {:induction false} UpdatesTold(r: RunnerState, updates: seq<Update>)
    ensures r.phase.Running? ==> Heard(r, updates, RunUpdateHandlers(r, updates))
    ensures r.phase.Finished? ==> RunUpdateHandlers(r, updates) == r
  {
    if updates == [] {
      assert r.log + Told(updates, r.handlers) == r.log;
    } else {
      var n := |updates| - 1;
      UpdatesTold(r, updates[..n]);
      var u := updates[n];
      var before := RunUpdateHandlers(r, updates[..n]);
      assert RunUpdateHandlers(r, updates) == RunUpdateHandler(before, u.name, u.args);
      if r.phase.Running? {
        assert before.log == r.log + Told(updates[..n], r.handlers);
        assert r.log + Told(updates, r.handlers) == before.log + if u.name in r.handlers then [Updated(u.name, u.args)] else [];
      }
    }
  }

  lemma AnswerTaskAnswers(cache: Cache, runId: string, r: RunnerState, updates: seq<Update>)
    ensures var (cache', response) := AnswerTask(cache, runId, r, updates);
            Answers(r, updates, runId, cache', response) && SameOthers(cache', cache, runId)
  {
    hide Told, RunUpdateHandlers, Refresh;
    UpdatesTold(r, updates);
    RemoveLookups(cache, runId);
    RefreshLookups(cache, runId, RunUpdateHandlers(r, updates));
  }

  // ---- A full replay -------------------------------------------------------------------------------

  /** The runner that a task's history is replayed on. */
  function Fresh(settings: Settings, task: Task, history: History, chance: Chance): RunnerState
    requires task.workflowType in settings.workflows
  {
    NewRunner(task.workflowId, settings.workflows[task.workflowType], chance.live, Scan(history))
  }

  /** Every task with a full history, lawful or not. If the replay overran the timeout the task fails and
      the run leaves the cache. Otherwise it is answered if and only if the replay went through the
      recorded operations in order; if not, it fails by policy and nothing is kept or lost. */
  lemma ReplayAnswered(settings: Settings, cache: Cache, task: Task, chance: Chance)
    requires task.workflowType in settings.workflows && task.IsFullHistory() && !task.isQuery
    ensures var start := Fresh(settings, task, task.events, chance);
            var r := Run(start, chance.budget);
            var (cache', response) := HandleTask(settings, cache, task, chance);
            if r.deadlocked then
              response == TaskFailed(Deadlock) && L.Lookup(cache', task.runId).None? && SameOthers(cache', cache, task.runId)
            else
              (response.Completed? <==> GoesThrough(task.events, Trail(start, chance.budget))) &&
              (response.Completed? ==>
                 Answers(r, task.updates, task.runId, cache', response) && Evicted(cache', cache, task.runId, settings.capacity)) &&
              (!response.Completed? ==>
                 response == (if settings.failOnPanic then WorkflowFailed else TaskFailed(NonDeterministicError)) &&
                 SameLookups(cache', cache))
  {
    hide Run, Trail, NewRunner, Scan, GoesThrough, Deterministic, L.Store, L.Remove, Answers, Evicted, RunUpdateHandlers, Refresh;
    var start := Fresh(settings, task, task.events, chance);
    var r := Run(start, chance.budget);
    PassesExactlyIfRepeated(task.workflowId, settings.workflows[task.workflowType], chance.live, task.events, chance.budget);
    RemoveLookups(cache, task.runId);
    if !r.deadlocked && Deterministic(r) {
      var stored := L.Store(cache, task.runId, r, settings.capacity);
      AnswerTaskAnswers(stored, task.runId, r, task.updates);
      StoreEvicts(cache, task.runId, r, settings.capacity, AnswerTask(stored, task.runId, r, task.updates).0);
    }
  }

  /** Other runs are found as before, but for those that are now beyond the capacity. */
  ghost predicate Evicted(cache': Cache, cache: Cache, runId: string, capacity: nat) {
    forall k :: k != runId ==>
                  L.Lookup(cache', k) == if L.InFront(L.Remove(cache, runId), k, capacity) then L.Lookup(cache, k) else None
  }

  lemma StoreEvicts(cache: Cache, runId: string, r: RunnerState, capacity: nat, cache': Cache)
    requires SameOthers(cache', L.Store(cache, runId, r, capacity), runId)
    ensures Evicted(cache', cache, runId, capacity)
  {
    forall k | k != runId
      ensures L.Lookup(cache', k) == if L.InFront(L.Remove(cache, runId), k, capacity) then L.Lookup(cache, k) else None
    {
      L.StoreKeepsFront(cache, runId, r, capacity, k);
    }
  }

  // ---- A continuation ------------------------------------------------------------------------------

  /** The task goes on exactly where the runner stopped. */
  predicate GoesOnFrom(task: Task, e: RunnerState) {
    task.events != [] && task.events[0].id == e.scan.lastEventId + 1
  }

  /** Every task with a partial history: it is continued if and only if the worker has a runner for it
      that stopped right before its first event; otherwise the whole history is asked for and the cache
      is as it was. */
  lemma ContinuationAnswered(settings: Settings, cache: Cache, task: Task, chance: Chance)
    requires task.workflowType in settings.workflows && !task.IsFullHistory() && !task.isQuery
    ensures var (cache', response) := HandleTask(settings, cache, task, chance);
            SameOthers(cache', cache, task.runId) &&
            match L.Lookup(cache, task.runId)
            case Some(e) =>
              if !GoesOnFrom(task, e) then response == TaskFailed(ResetStickyTaskQueue) && SameLookups(cache', cache)
              else
                var r := ApplyAndResume(e, task.events, chance.budget);
                if r.deadlocked then response == TaskFailed(Deadlock) && L.Lookup(cache', task.runId).None?
                else Answers(r, task.updates, task.runId, cache', response)
            case None => response == TaskFailed(ResetStickyTaskQueue) && SameLookups(cache', cache)
  {
    hide ApplyAndResume, L.Remove, L.Touch, Answers, RunUpdateHandlers, Refresh;
    TouchLookups(cache, task.runId);
    match L.Lookup(cache, task.runId)
    case None =>
    case Some(e) =>
      var touched := L.Touch(cache, task.runId);
      var r := ApplyAndResume(e, task.events, chance.budget);
      RemoveLookups(touched, task.runId);
      RefreshLookups(touched, task.runId, r);
      AnswerTaskAnswers(Refresh(touched, task.runId, r), task.runId, r, task.updates);
  }

  /** A task of a type that nobody registered. */
  lemma UnknownTypeFails(settings: Settings, cache: Cache, task: Task, chance: Chance)
    ensures HandleTask(settings, cache, task, chance) == (cache, TaskFailed(NotRegistered)) <==>
              task.workflowType !in settings.workflows
  {
    hide Replayed, ApplyAndResume, RunUpdateHandlers, L.Store, L.Remove, L.Touch, Deterministic, Refresh;
  }

  // ---- Queries -------------------------------------------------------------------------------------

  /** The response shows a query exactly the body that stands at `m`, unless it has ended. */
  ghost predicate Shows(response: Response, m: Machine) {
    if m.phase.Finished? then response == QueryFailed else response == Answered(m.log, m.phase)
  }

  /** A query to a worker that has the runner is answered from where its body stands, as it stands. */
  lemma CachedQueryAnswered(settings: Settings, cache: Cache, task: Task, chance: Chance, e: RunnerState,
                            env: Env, h: History, seen: nat, m: Machine)
    requires task.workflowType in settings.workflows && task.isQuery && !task.IsFullHistory()
    requires L.Lookup(cache, task.runId) == Some(e) && Holds(env, h, seen, e, m)
    ensures var (cache', response) := HandleTask(settings, cache, task, chance);
            Shows(response, m) && SameLookups(cache', cache)
  {
    hide L.Touch, Holds, Replayed;
    TouchLookups(cache, task.runId);
    HoldsLog(env, h, seen, e, m);
  }

  lemma HoldsLog(env: Env, h: History, seen: nat, e: RunnerState, m: Machine)
    requires Holds(env, h, seen, e, m)
    ensures e.log == m.log && e.phase == m.phase && !e.deadlocked
  {
    hide Consistent, Aware, Emitted, Indexes, SameCursors, Know;
    var past, start :| Resident(env, h, seen, past, start, e, m);
  }

  /** A query to a worker that has no runner, or comes with the history, is answered from where the whole
      history leads; it fails, besides, exactly if the rebuild overran. Nothing is cached. */
  lemma RebuiltQueryAnswered(settings: Settings, cache: Cache, task: Task, chance: Chance, env: Env) returns (m: Machine)
    requires task.workflowType in settings.workflows && task.isQuery
    requires task.IsFullHistory() || L.Lookup(cache, task.runId).None?
    requires env.workflowId == task.workflowId && env.body == settings.workflows[task.workflowType]
    requires Lawful(env, task.whole) && SameWorld(env.world, RecordsOf(task.whole), chance.live)
    ensures var (cache', response) := HandleTask(settings, cache, task, chance);
            SameLookups(cache', cache) &&
            if BurstsFit(env, task.whole, |task.whole|, chance.budget) then Reaches(env, task.whole, m) && Shows(response, m)
            else response == QueryFailed
  {
    hide L.Touch, Run, NewRunner, Scan, Reaches, BurstsFit, SameWorld, RecordsOf, Lawful, Writes, Simulates;
    TouchLookups(cache, task.runId);
    var r: RunnerState;
    r, m := FullReplay(env, task.whole, chance.live, chance.budget);
    if !r.deadlocked {
      SimulatesLog(env, Know(task.whole), RecordedBy(m, task.whole), 0, r, m);
    }
  }

  lemma SimulatesLog(env: Env, k: Knowledge, past: seq<Command>, start: nat, r: RunnerState, m: Machine)
    requires Simulates(env, k, past, start, r, m)
    ensures r.log == m.log && r.phase == m.phase && !r.deadlocked
  {
    hide Consistent, Aware, Emitted, SameCursors;
  }

  /** Two queries at the same moment, one to a worker with a runner that has taken in the first `seen`
      events and one that is rebuilt in time: they are answered alike if and only if the events the
      cached runner has not been given leave its body where it is. */
  lemma QueriesAgree(settings: Settings, cached: Cache, other: Cache, a: Task, b: Task, chanceA: Chance, chanceB: Chance,
                     e: RunnerState, env: Env, seen: nat, c: nat, m: Machine)
    requires a.workflowType in settings.workflows && a.isQuery && !a.IsFullHistory() && L.Lookup(cached, a.runId) == Some(e)
    requires b.workflowType in settings.workflows && b.isQuery && (b.IsFullHistory() || L.Lookup(other, b.runId).None?)
    requires env.workflowId == b.workflowId && env.body == settings.workflows[b.workflowType]
    requires Lawful(env, b.whole) && SameWorld(env.world, RecordsOf(b.whole), chanceB.live)
    requires seen <= c <= |b.whole| && Updateless(b.whole, c) && Reaches(env, b.whole[..c], m)
    requires Holds(env, b.whole, seen, e, m) && m.phase.Running?
    requires BurstsFit(env, b.whole, |b.whole|, chanceB.budget)
    ensures HandleTask(settings, cached, a, chanceA).1 == HandleTask(settings, other, b, chanceB).1 <==>
              Settled(Know(b.whole), m)
  {
    hide HandleTask, BurstsFit, SameWorld, RecordsOf, Holds, Reaches, Settled, Settles, Authored, PlausibleAt, Plausible;
    CachedQueryAnswered(settings, cached, a, chanceA, e, env, b.whole, seen, m);
    var end := RebuiltQueryAnswered(settings, other, b, chanceB, env);
    LawfulParts(env, b.whole);
    ReachesBatch(env, b.whole, c, m, end);
    MovesShow(env, Know(b.whole), m, end);
  }

  // ---- A changed workflow --------------------------------------------------------------------------

  /** A body that schedules activities of type "B" where its history recorded type "A". */
  function ChangedBody(log: seq<Input>): Op {
    if log == [] then Op.Schedule(ActivityCall("B", [])) else Get(Handle(Activity, "0"))
  }

  const RECORDED: History := [Event(1, OtherEvent), Event(2, CommandRecorded(ActivityScheduled("0", "A")))]

  lemma RecordedFacts()
    ensures Recorded(RECORDED) == [ActivityScheduled("0", "A")] && TimelineOf(RECORDED) == []
    ensures OperationAt(OperationsOf(RECORDED), Handle(Activity, "0")) == OperationRecord(true, false, QUIET)
  {
    assert RECORDED[..1] == [RECORDED[0]] && RECORDED[..1][..0] == [];
    assert Recorded(RECORDED[..1]) == [];
    assert !SawUpdate(RECORDED[..1]);
    assert TimelineOf(RECORDED[..1]) == [];
    assert OperationsOf(RECORDED[..1]) == Operations(map[], map[], map[], map[]);
  }

  lemma ChangedTrail(live: World, budget: nat)
    requires budget > 0
    ensures var start := NewRunner("wf", ChangedBody, live, Scan(RECORDED));
            !Run(start, budget).deadlocked && Trail(start, budget) == [Begin("0", ActivityCall("B", []))]
  {
    RecordedFacts();
    var start := NewRunner("wf", ChangedBody, live, Scan(RECORDED));
    hide OperationsOf, RecordsOf, SignalsOf, IndexOf, TimelineOf;
    var r0 := Clear(start);
    assert IdOf("wf", Activity, 0) == "0";
    var r1 := Perform(r0).state;
    assert Perform(r0).Went? && r1.phase == Running(Get(Handle(Activity, "0"))) && Issues(r0) == Some(Begin("0", ActivityCall("B", [])));
    assert r1.futures == map[Handle(Activity, "0") := PENDING] && !r1.deadlocked;
    hide Perform, Issues;
    assert Perform(r1) == Yielded(r1) by { WaitsForever(r1); }
    assert Resume(r0, budget) == Resume(r1, budget - 1) == r1;
    assert Burst(r1, budget - 1) == [];
  }

  lemma WaitsForever(r: RunnerState)
    requires r.phase.Running? && r.phase.op.Get? && r.phase.op.future in r.futures && !r.futures[r.phase.op.future].ready
    ensures Perform(r) == Yielded(r)
  {
  }

  /** Such a task fails, by the panic policy, and leaves the cache as it was. */
  lemma ChangedWorkflowFails(settings: Settings, cache: Cache, runId: string, updates: seq<Update>, live: World, budget: nat)
    requires "type" in settings.workflows && settings.workflows["type"] == ChangedBody && budget > 0
    ensures var task := Task(runId, "wf", "type", RECORDED, RECORDED, updates, false);
            var (cache', response) := HandleTask(settings, cache, task, Chance(live, budget));
            response == (if settings.failOnPanic then WorkflowFailed else TaskFailed(NonDeterministicError)) &&
            SameLookups(cache', cache)
  {
    hide HandleTask, Run, Trail, Scan, NewRunner, SameLookups, Evicted, Answers;
    var task := Task(runId, "wf", "type", RECORDED, RECORDED, updates, false);
    ReplayAnswered(settings, cache, task, Chance(live, budget));
    ChangedTrail(live, budget);
    RecordedFacts();
    assert !GoesThroughAt(RECORDED, [Begin("0", ActivityCall("B", []))], 0);
  }
}
