/** Runs of the cluster: the invariant holds throughout, and what it means to users. */
module ClusterRuns {
  import opened Basics
  import opened Workflow
  import opened Machine
  import opened HistoryScan
  import opened ScanFacts
  import opened Engine
  import opened Simulation
  import opened Progress
  import opened Replay
  import opened Continuation
  import opened Guarantees
  import opened TaskHandling
  import opened Cluster
  import opened Answers
  import opened ClusterSafety
  import L = Lru

  // ---- One task, every way it can go -------------------------------------------------------------

  /** What a task may rely on: the record of its run, the runner the server trusts, and the runner
      the chosen worker has. */
  ghost predicate TaskReady(settings: Settings, run: RunRecord, runId: string, worker: nat, cache: Cache,
                            full: bool, trusted: Option<RunnerState>) {
    RunSound(settings, run, trusted) && !Closed(run.history) && Shape(settings, cache) &&
    (full || SentTo(run, worker)) && (SentTo(run, worker) ==> trusted == L.Lookup(cache, runId)) &&
    (L.Lookup(cache, runId).Some? ==> EntrySound(settings, run, L.Lookup(cache, runId).value))
  }

  lemma StartedFacts(env: Env, run: RunRecord)
    requires Lawful(env, run.history)
    ensures var h := Next(run.history, OtherEvent);
            Lawful(env, h) && h[0].id == 1 && Closed(h) == Closed(run.history) && h != []
  {
    hide Authored, Plausible, PlausibleAt;
    NextFacts(run.history, OtherEvent);
    BookkeepingPlausible(run.history);
    LawfulArrival(env, run.history, OtherEvent);
    assert Recorded(Next(run.history, OtherEvent)) == Recorded(run.history);
  }

  /** A task with the whole history: replayed from scratch. */
  lemma FullTask(settings: Settings, run: RunRecord, runId: string, worker: nat, cache: Cache,
                 updates: seq<Update>, chance: Chance, arrives: bool, full: bool, trusted: Option<RunnerState>)
    requires TaskReady(settings, run, runId, worker, cache, full, trusted)
    requires run.workflowType in settings.workflows
    ensures var task := Task(runId, run.workflowId, run.workflowType, Next(run.history, OtherEvent),
                             Next(run.history, OtherEvent), updates, false);
            var (cache', response) := HandleReplay(settings, settings.workflows[run.workflowType], cache, task, chance);
            TaskSound(settings, run, runId, worker, cache, cache', response, arrives)
  {
    hide Shape, OthersKept, EntrySound, Lawful, Stands, AtRest, TaskSound, Run, NewRunner, SameWorld, Next,
         Deterministic, Closed, RecordsOf;
    var h := Next(run.history, OtherEvent);
    var env0 :| RunSoundIn(settings, run, trusted, env0);
    StartedFacts(env0, run);
    var env := StartedWorld(settings, run, trusted, env0, chance.live);
    var m := ReplayReady(env, h, chance.live, chance.budget);
    var r := Run(NewRunner(run.workflowId, env.body, chance.live, Scan(h)), chance.budget);
    if r.deadlocked {
      RemoveKeepsShape(settings, cache, runId);
      FailureSound(settings, run, runId, worker, cache, L.Remove(cache, runId), Deadlock, arrives, trusted);
    } else {
      StoreKeeps(settings, cache, runId, r);
      AnswerSound(settings, run, runId, worker, cache, L.Store(cache, runId, r, settings.capacity), r, m, env,
                  updates, arrives, trusted);
    }
  }

  lemma StartedWorld(settings: Settings, run: RunRecord, trusted: Option<RunnerState>, env0: Env, live: World)
    returns (env: Env)
    requires RunSoundIn(settings, run, trusted, env0)
    ensures Serves(settings, run, env) && Lawful(env, Next(run.history, OtherEvent))
    ensures SameWorld(env.world, RecordsOf(Next(run.history, OtherEvent)), live)
  {
    hide Lawful, Stands, Serves, RecordsOf, Closed;
    var h := Next(run.history, OtherEvent);
    env := ReplayWorld(settings, run, trusted, env0, live);
    StartedFacts(env, run);
    assert RecordsOf(h) == RecordsOf(run.history) by { RecordsSame(run.history); }
    OnwardIsSame(RecordsOf(h), live);
  }

  lemma RecordsSame(h: History)
    ensures RecordsOf(Next(h, OtherEvent)) == RecordsOf(h)
  {
    NextFacts(h, OtherEvent);
  }

  lemma TrustedStanding(settings: Settings, run: RunRecord, e: RunnerState) returns (env: Env, c: nat, m: Machine)
    requires RunSound(settings, run, Some(e)) && run.sticky.Some?
    ensures Serves(settings, run, env) && Lawful(env, run.history) && Standing(env, run, Some(e), c, m)
  {
    hide Standing, Lawful, Serves;
    env :| RunSoundIn(settings, run, Some(e), env);
    c, m :| Standing(env, run, Some(e), c, m);
  }

  /** A continuation that finds its runner in the cache. */
  lemma HitTask(settings: Settings, run: RunRecord, runId: string, worker: nat, cache: Cache,
                updates: seq<Update>, chance: Chance, arrives: bool, e: RunnerState)
    requires TaskReady(settings, run, runId, worker, cache, false, Some(e))
    requires run.workflowType in settings.workflows && L.Lookup(cache, runId) == Some(e)
    ensures run.sticky.value.from < |Next(run.history, OtherEvent)|
    ensures var h := Next(run.history, OtherEvent);
            var task := Task(runId, run.workflowId, run.workflowType, h[run.sticky.value.from..], h, updates, false);
            task.events[0].id == e.scan.lastEventId + 1 && !task.IsFullHistory() &&
            var (cache', response) := HandleHit(L.Touch(cache, runId), task, e, chance);
            TaskSound(settings, run, runId, worker, cache, cache', response, arrives)
  {
    hide Shape, OthersKept, EntrySound, Lawful, AtRest, TaskSound, ApplyAndResume, Next, Closed, Refresh, RunSound,
         Serves, Holds, Position;
    var h := Next(run.history, OtherEvent);
    var from := run.sticky.value.from;
    var env, c, m := TrustedStanding(settings, run, e);
    HoldsFacts(env, run.history, from, e, m);
    StartedFacts(env, run);
    StartedId(env, run, from);
    PositionNext(env, run.history, OtherEvent, c, m);
    NextFacts(run.history, OtherEvent);
    assert run.history <= h;
    HoldsOn(env, run.history, h, from, e, m);
    EntryRuns(settings, run, e);
    var m' := ContinueReady(env, h, c, m, from, e, chance.budget);
    var r := ApplyAndResume(e, h[from..], chance.budget);
    var touched := L.Touch(cache, runId);
    TouchKeeps(settings, cache, runId);
    if r.deadlocked {
      RemoveKeepsShape(settings, touched, runId);
      OthersKeptTwice(cache, touched, L.Remove(touched, runId), runId);
      FailureSound(settings, run, runId, worker, cache, L.Remove(touched, runId), Deadlock, arrives, Some(e));
    } else {
      RefreshKeeps(settings, touched, runId, r);
      OthersKeptTwice(cache, touched, Refresh(touched, runId, r), runId);
      AnswerSound(settings, run, runId, worker, cache, Refresh(touched, runId, r), r, m', env, updates, arrives, Some(e));
    }
  }

  lemma EntryRuns(settings: Settings, run: RunRecord, e: RunnerState)
    requires EntrySound(settings, run, e)
    ensures e.phase.Running?
  {
  }

  lemma StartedId(env: Env, run: RunRecord, from: nat)
    requires Lawful(env, Next(run.history, OtherEvent)) && from <= |run.history|
    ensures from < |Next(run.history, OtherEvent)|
    ensures Next(run.history, OtherEvent)[from..][0].id == from + 1
  {
    hide Authored, Plausible;
  }

  /** A continuation whose runner is gone: the server is asked for the whole history. */
  lemma MissTask(settings: Settings, run: RunRecord, runId: string, worker: nat, cache: Cache, arrives: bool,
                 full: bool, trusted: Option<RunnerState>)
    requires TaskReady(settings, run, runId, worker, cache, full, trusted)
    ensures TaskSound(settings, run, runId, worker, cache, L.Touch(cache, runId), TaskFailed(ResetStickyTaskQueue), arrives)
    ensures TaskSound(settings, run, runId, worker, cache, cache, TaskFailed(NotRegistered), arrives)
  {
    hide RunSound, EntrySound, Shape, OthersKept, TaskSound;
    TouchKeeps(settings, cache, runId);
    FailureSound(settings, run, runId, worker, cache, L.Touch(cache, runId), ResetStickyTaskQueue, arrives, trusted);
    KeptItself(cache, runId);
    FailureSound(settings, run, runId, worker, cache, cache, NotRegistered, arrives, trusted);
  }

  lemma KeptItself(cache: Cache, runId: string)
    ensures OthersKept(cache, cache, runId)
  {
  }

  /** Whatever way the task goes. */
  lemma AnyTask(settings: Settings, run: RunRecord, runId: string, worker: nat, cache: Cache,
                full: bool, updates: seq<Update>, chance: Chance, arrives: bool, trusted: Option<RunnerState>)
    requires TaskReady(settings, run, runId, worker, cache, full, trusted)
    ensures var (cache', response) := HandleTask(settings, cache, TaskOf(run, runId, full, updates), chance);
            TaskSound(settings, run, runId, worker, cache, cache', response, arrives)
  {
    hide RunSound, EntrySound, Shape, TaskSound, HandleHit, HandleReplay, Closed;
    var task := TaskOf(run, runId, full, updates);
    MissTask(settings, run, runId, worker, cache, arrives, full, trusted);
    if run.workflowType in settings.workflows {
      StartsAtOne(settings, run, trusted);
      if full {
        FullTask(settings, run, runId, worker, cache, updates, chance, arrives, full, trusted);
      } else {
        StickyInside(settings, run, trusted);
        if trusted.Some? {
          HitTask(settings, run, runId, worker, cache, updates, chance, arrives, trusted.value);
        } else {
          assert Hit(cache, task).None?;
        }
      }
    }
  }

  lemma StartsAtOne(settings: Settings, run: RunRecord, trusted: Option<RunnerState>)
    requires RunSound(settings, run, trusted)
    ensures Next(run.history, OtherEvent)[0].id == 1
  {
    hide Lawful, Stands, Serves, Next;
    var env :| RunSoundIn(settings, run, trusted, env);
    StartedFacts(env, run);
  }

  lemma StickyInside(settings: Settings, run: RunRecord, trusted: Option<RunnerState>)
    requires RunSound(settings, run, trusted) && run.sticky.Some?
    ensures 0 < run.sticky.value.from <= |run.history|
    ensures var h := Next(run.history, OtherEvent);
            h[run.sticky.value.from..] != [] && h[run.sticky.value.from..][0].id == run.sticky.value.from + 1
  {
    hide Lawful, Serves, Holds, Position, Next;
    var env :| RunSoundIn(settings, run, trusted, env);
    var c: nat, m :| Standing(env, run, trusted, c, m);
    PositionBound(env, run.history, c, m);
    StartedFacts(env, run);
    StartedId(env, run, run.sticky.value.from);
  }

  // ---- One query ----------------------------------------------------------------------------------

  /** Queries move entries to the front and do nothing else. */
  lemma AnyQuery(settings: Settings, run: RunRecord, runId: string, cache: Cache, full: bool, chance: Chance, trusted: Option<RunnerState>)
    requires RunSound(settings, run, trusted) && run.history != []
    ensures var (cache', response) := HandleTask(settings, cache, QueryOf(run, runId, full), chance);
            (cache' == cache || cache' == L.Touch(cache, runId)) && !response.Completed?
  {
    hide Lawful, Stands, Serves, Run, NewRunner, L.Touch, Authored, Plausible;
    var env :| RunSoundIn(settings, run, trusted, env);
    assert run.history[0].id == 1 by { FirstId(env, run.history); }
  }

  lemma FirstId(env: Env, h: History)
    requires Lawful(env, h) && h != []
    ensures h[0].id == 1
  {
    hide Authored, Plausible;
  }

  // ---- The whole cluster --------------------------------------------------------------------------

  lemma InvariantAt(settings: Settings, c: Cluster, runId: string, worker: nat)
    requires Invariant(settings, c)
    ensures runId in c.runs ==> RunSound(settings, c.runs[runId], Trusted(c, runId))
    ensures CacheSound(settings, c, worker, runId) && CacheShape(settings, c, worker)
  {
  }

  lemma InitialInvariant(settings: Settings, c: Cluster)
    requires Initial(c)
    ensures Invariant(settings, c)
  {
    forall runId | runId in c.runs
      ensures RunSound(settings, c.runs[runId], Trusted(c, runId))
    {
      var run := c.runs[runId];
      var body: Body := if run.workflowType in settings.workflows then settings.workflows[run.workflowType] else (log => SideEffect);
      var env := Env(run.workflowId, body, World((i: nat) => "", (i: nat) => QUIET));
      assert Lawful(env, []);
      assert RunSoundIn(settings, run, Trusted(c, runId), env);
    }
  }

  /** A change of one run's record and one worker's cache, seen from everywhere else. */
  lemma TaskInvariant(settings: Settings, c: Cluster, c': Cluster, runId: string, worker: nat,
                      response: Response, arrives: bool)
    requires Invariant(settings, c) && runId in c.runs
    requires var run := c.runs[runId];
             TaskSound(settings, run, runId, worker, CacheOf(c, worker), CacheOf(c', worker), response, arrives) &&
             c' == Cluster(c.runs[runId := RecordAfter(run, worker, response, arrives)], c.caches[worker := CacheOf(c', worker)])
    ensures Invariant(settings, c')
  {
    hide RunSound, EntrySound, RecordAfter, HandleTask;
    var run := c.runs[runId];
    var run' := RecordAfter(run, worker, response, arrives);
    RecordGrows(run, worker, response, arrives);
    RecordSticky(run, worker, response, arrives);
    forall w
      ensures CacheShape(settings, c', w)
    {
      InvariantAt(settings, c, runId, w);
    }
    forall id | id in c'.runs
      ensures RunSound(settings, c'.runs[id], Trusted(c', id))
    {
      InvariantAt(settings, c, id, worker);
      if id != runId && c.runs[id].sticky.Some? && c.runs[id].sticky.value.worker == worker {
        TrustOthers(settings, c, c', id, worker);
      }
    }
    forall w, id
      ensures CacheSound(settings, c', w, id)
    {
      InvariantAt(settings, c, id, w);
      if EntryOf(c', id, w).Some? && id == runId && w != worker {
        EntryOn(settings, run, run', EntryOf(c, id, w).value);
      }
    }
  }

  lemma RecordSticky(run: RunRecord, worker: nat, response: Response, arrives: bool)
    ensures var run' := RecordAfter(run, worker, response, arrives);
            run'.sticky.Some? ==> run'.sticky.value.worker == worker
  {
    hide Accepted;
  }

  /** Another run loses at most its cached runner. */
  lemma TrustOthers(settings: Settings, c: Cluster, c': Cluster, id: string, worker: nat)
    requires id in c.runs && id in c'.runs && c'.runs[id] == c.runs[id] && SentTo(c.runs[id], worker)
    requires RunSound(settings, c.runs[id], Trusted(c, id))
    requires EntryOf(c', id, worker).Some? ==> EntryOf(c', id, worker) == EntryOf(c, id, worker)
    ensures RunSound(settings, c'.runs[id], Trusted(c', id))
  {
    hide Serves, Lawful, Stands;
    var env :| RunSoundIn(settings, c.runs[id], Trusted(c, id), env);
    StandsAlone(env, c.runs[id], Trusted(c, id));
    assert RunSoundIn(settings, c.runs[id], Trusted(c', id), env);
  }

  lemma ArriveInvariant(settings: Settings, c: Cluster, runId: string, a: Attributes)
    requires Invariant(settings, c) && Enabled(c, Arrive(runId, a))
    ensures Invariant(settings, Do(settings, c, Arrive(runId, a)))
  {
    hide EntrySound, HandleTask, Closed, PlausibleAt, Lawful, Stands, Next;
    var c' := Do(settings, c, Arrive(runId, a));
    var run, run' := c.runs[runId], c'.runs[runId];
    InvariantAt(settings, c, runId, 0);
    var env :| RunSoundIn(settings, run, Trusted(c, runId), env);
    NextFacts(run.history, a);
    LawfulArrival(env, run.history, a);
    StandsNext(env, run, Trusted(c, runId), a);
    assert RunSoundIn(settings, run', Trusted(c', runId), env);
    forall id | id in c'.runs
      ensures RunSound(settings, c'.runs[id], Trusted(c', id))
    {
      InvariantAt(settings, c, id, 0);
    }
    forall w, id
      ensures CacheSound(settings, c', w, id)
    {
      InvariantAt(settings, c, id, w);
      if EntryOf(c', id, w).Some? && id == runId {
        EntryOn(settings, run, run', EntryOf(c, id, w).value);
      }
    }
    forall w
      ensures CacheShape(settings, c', w)
    {
      InvariantAt(settings, c, runId, w);
    }
  }

  /** A cache that lost entries, or only moved them. */
  lemma CacheInvariant(settings: Settings, c: Cluster, worker: nat, cache': Cache)
    requires Invariant(settings, c) && Shape(settings, cache')
    requires forall id :: L.Lookup(cache', id).Some? ==> L.Lookup(cache', id) == L.Lookup(CacheOf(c, worker), id)
    ensures Invariant(settings, c.(caches := c.caches[worker := cache']))
  {
    hide RunSound, EntrySound;
    var c' := c.(caches := c.caches[worker := cache']);
    forall id | id in c'.runs
      ensures RunSound(settings, c'.runs[id], Trusted(c', id))
    {
      InvariantAt(settings, c, id, worker);
      if SentTo(c.runs[id], worker) {
        TrustOthers(settings, c, c', id, worker);
      }
    }
    forall w, id
      ensures CacheSound(settings, c', w, id)
    {
      InvariantAt(settings, c, id, w);
    }
    forall w
      ensures CacheShape(settings, c', w)
    {
      InvariantAt(settings, c, "", w);
    }
  }

  lemma TaskReadyHere(settings: Settings, c: Cluster, runId: string, worker: nat, full: bool, updates: seq<Update>,
                      chance: Chance, arrives: bool)
    requires Invariant(settings, c) && Enabled(c, DoTask(runId, worker, full, updates, chance, arrives))
    ensures TaskReady(settings, c.runs[runId], runId, worker, CacheOf(c, worker), full, Trusted(c, runId))
  {
    hide RunSound, EntrySound, Closed;
    InvariantAt(settings, c, runId, worker);
  }

  lemma DoInvariant(settings: Settings, c: Cluster, action: Action)
    requires Invariant(settings, c) && Enabled(c, action)
    ensures Invariant(settings, Do(settings, c, action))
  {
    hide Invariant, TaskReady, TaskSound, HandleTask, Closed, RecordAfter, TaskOf, QueryOf;
    match action
    case Arrive(runId, a) => ArriveInvariant(settings, c, runId, a);
    case DoTask(runId, worker, full, updates, chance, arrives) =>
      TaskReadyHere(settings, c, runId, worker, full, updates, chance, arrives);
      AnyTask(settings, c.runs[runId], runId, worker, CacheOf(c, worker), full, updates, chance, arrives, Trusted(c, runId));
      var response := HandleTask(settings, CacheOf(c, worker), TaskOf(c.runs[runId], runId, full, updates), chance).1;
      TaskInvariant(settings, c, Do(settings, c, action), runId, worker, response, arrives);
    case DoQuery(runId, worker, full, chance) =>
      QueryInvariant(settings, c, runId, worker, full, chance);
    case Restart(worker) => CacheInvariant(settings, c, worker, []);
  }

  lemma QueryInvariant(settings: Settings, c: Cluster, runId: string, worker: nat, full: bool, chance: Chance)
    requires Invariant(settings, c) && Enabled(c, DoQuery(runId, worker, full, chance))
    ensures Invariant(settings, Do(settings, c, DoQuery(runId, worker, full, chance)))
  {
    hide HandleTask, QueryOf, RunSound, L.Touch;
    InvariantAt(settings, c, runId, worker);
    var cache := CacheOf(c, worker);
    AnyQuery(settings, c.runs[runId], runId, cache, full, chance, Trusted(c, runId));
    TouchKeeps(settings, cache, runId);
    var cache' := HandleTask(settings, cache, QueryOf(c.runs[runId], runId, full), chance).0;
    forall id
      ensures L.Lookup(cache', id) == L.Lookup(cache, id)
    {
      L.LookupTouch(cache, runId, id);
    }
    hide Invariant;
    CacheInvariant(settings, c, worker, cache');
  }

  /** Safety over whole runs: whatever the interleaving of arrivals, tasks, lost answers, evictions,
      restarts and queries, every reachable cluster satisfies the invariant. */
  lemma {:induction false} AlwaysSafe(settings: Settings, states: seq<Cluster>, actions: seq<Action>, n: nat)
    requires Execution(settings, states, actions) && n < |states|
    ensures Invariant(settings, states[n])
  {
    if n == 0 {
      InitialInvariant(settings, states[0]);
    } else {
      AlwaysSafe(settings, states, actions, n - 1);
      assert DoneBy(settings, states[n - 1], actions[n - 1], states[n]);
      DoInvariant(settings, states[n - 1], actions[n - 1]);
    }
  }
}
