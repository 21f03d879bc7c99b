/** What every reachable cluster keeps: histories that are one workflow's own, recorded commands that
    are each of its operations once and in order, and cached runners that stand where they say. */
module ClusterSafety {
  import opened Basics
  import opened Workflow
  import opened Machine
  import opened HistoryScan
  import opened ScanFacts
  import opened Engine
  import opened Simulation
  import opened Progress
  import opened Replay
  import opened Continuation
  import opened Guarantees
  import opened TaskHandling
  import opened Cluster
  import opened Answers
  import L = Lru

  // ---- The invariant ---------------------------------------------------------------------------

  ghost predicate Serves(settings: Settings, run: RunRecord, env: Env) {
    env.workflowId == run.workflowId &&
    (run.workflowType in settings.workflows ==> env.body == settings.workflows[run.workflowType])
  }

  /** No task of the run has been answered yet. */
  ghost predicate Untouched(h: History) {
    Recorded(h) == [] && Updateless(h, 0)
  }

  /** The last accepted task left the body at `m`, when the history had `c` events; everything the
      body had done is recorded, once and in order. */
  ghost predicate Position(env: Env, h: History, c: nat, m: Machine) {
    c <= |h| && Reaches(env, h[..c], m) && Updateless(h, c) && Writes(m, Recorded(h)) && |Recorded(h)| == |m.trace|
  }

  /** The runner has taken in exactly the first `seen` events, each once, and its body stands at `m`. */
  ghost predicate Holds(env: Env, h: History, seen: nat, e: RunnerState, m: Machine) {
    exists past, start :: Resident(env, h, seen, past, start, e, m)
  }

  /** The server's record and the runner it trusts, if any, stand together. */
  ghost predicate Standing(env: Env, run: RunRecord, entry: Option<RunnerState>, c: nat, m: Machine) {
    Position(env, run.history, c, m) &&
    (run.sticky.Some? ==>
       0 < run.sticky.value.from <= c &&
       (entry.Some? ==> Holds(env, run.history, run.sticky.value.from, entry.value, m)))
  }

  ghost predicate Stands(env: Env, run: RunRecord, entry: Option<RunnerState>) {
    (Untouched(run.history) && run.sticky.None?) || exists c: nat, m :: Standing(env, run, entry, c, m)
  }

  ghost predicate RunSound(settings: Settings, run: RunRecord, entry: Option<RunnerState>) {
    exists env :: RunSoundIn(settings, run, entry, env)
  }

  ghost predicate RunSoundIn(settings: Settings, run: RunRecord, entry: Option<RunnerState>, env: Env) {
    Serves(settings, run, env) && Lawful(env, run.history) && Stands(env, run, entry)
  }

  /** Any cached runner, trusted or stale: it has consumed exactly events 1..last_event_id of its run,
      has not ended and is not deadlocked. */
  ghost predicate EntrySound(settings: Settings, run: RunRecord, e: RunnerState) {
    run.workflowType in settings.workflows && 0 < e.scan.lastEventId <= |run.history| &&
    e.phase.Running? && !e.deadlocked &&
    exists env, m :: Serves(settings, run, env) && Holds(env, run.history, e.scan.lastEventId, e, m)
  }

  function EntryOf(c: Cluster, runId: string, worker: nat): Option<RunnerState> {
    L.Lookup(CacheOf(c, worker), runId)
  }

  /** The runner the server would continue on. */
  function Trusted(c: Cluster, runId: string): Option<RunnerState>
    requires runId in c.runs
  {
    match c.runs[runId].sticky
    case None => None
    case Some(s) => EntryOf(c, runId, s.worker)
  }

  ghost predicate CacheSound(settings: Settings, c: Cluster, worker: nat, runId: string) {
    EntryOf(c, runId, worker).Some? ==>
      runId in c.runs && EntrySound(settings, c.runs[runId], EntryOf(c, runId, worker).value)
  }

  ghost predicate Invariant(settings: Settings, c: Cluster) {
    (forall runId :: runId in c.runs ==> RunSound(settings, c.runs[runId], Trusted(c, runId))) &&
    (forall worker, runId :: CacheSound(settings, c, worker, runId)) &&
    (forall worker :: CacheShape(settings, c, worker))
  }

  ghost predicate CacheShape(settings: Settings, c: Cluster, worker: nat) {
    L.Distinct(CacheOf(c, worker)) && L.Within(CacheOf(c, worker), settings.capacity)
  }

  // ---- History grows under what stands -----------------------------------------------------------

  lemma HoldsOn(env: Env, h: History, h': History, seen: nat, e: RunnerState, m: Machine)
    requires Holds(env, h, seen, e, m) && seen <= |h| && h <= h'
    ensures Holds(env, h', seen, e, m)
  {
    hide Simulates, Indexes, Know;
    var past, start :| Resident(env, h, seen, past, start, e, m);
    assert h'[..seen] == h[..seen];
    assert Resident(env, h', seen, past, start, e, m);
  }

  lemma EntryOn(settings: Settings, run: RunRecord, run': RunRecord, e: RunnerState)
    requires EntrySound(settings, run, e) && run.history <= run'.history
    requires run'.workflowId == run.workflowId && run'.workflowType == run.workflowType
    ensures EntrySound(settings, run', e)
  {
    hide Holds;
    var env, m :| Serves(settings, run, env) && Holds(env, run.history, e.scan.lastEventId, e, m);
    assert Serves(settings, run', env);
    HoldsOn(env, run.history, run'.history, e.scan.lastEventId, e, m);
  }

  lemma PositionNext(env: Env, h: History, a: Attributes, c: nat, m: Machine)
    requires Position(env, h, c, m) && External(a)
    ensures Position(env, Next(h, a), c, m)
  {
    hide Reaches, Recorded;
    NextFacts(h, a);
    assert Recorded(Next(h, a)) == Recorded(h);
  }

  lemma UntouchedNext(h: History, a: Attributes)
    requires Untouched(h) && External(a)
    ensures Untouched(Next(h, a))
  {
    NextFacts(h, a);
  }

  lemma StandsNext(env: Env, run: RunRecord, entry: Option<RunnerState>, a: Attributes)
    requires Stands(env, run, entry) && External(a)
    ensures Stands(env, run.(history := Next(run.history, a)), entry)
  {
    hide Position, Holds, Untouched;
    var run' := run.(history := Next(run.history, a));
    if Untouched(run.history) && run.sticky.None? {
      UntouchedNext(run.history, a);
    } else {
      var c: nat, m :| Standing(env, run, entry, c, m);
      PositionNext(env, run.history, a, c, m);
      if run.sticky.Some? && entry.Some? {
        PositionBound(env, run.history, c, m);
        HoldsOn(env, run.history, run'.history, run.sticky.value.from, entry.value, m);
      }
      assert Standing(env, run', entry, c, m);
    }
  }

  lemma PositionBound(env: Env, h: History, c: nat, m: Machine)
    requires Position(env, h, c, m)
    ensures c <= |h|
  {
  }

  /** The server may stop trusting a worker at any time. */
  lemma StandsUntrusted(env: Env, run: RunRecord, entry: Option<RunnerState>, other: Option<RunnerState>)
    requires Stands(env, run, entry)
    ensures Stands(env, run.(sticky := None), other)
  {
    hide Position, Holds, Untouched;
    if !(Untouched(run.history) && run.sticky.None?) {
      var c: nat, m :| Standing(env, run, entry, c, m);
      assert Standing(env, run.(sticky := None), other, c, m);
    }
  }

  /** Losing the cached runner is harmless. */
  lemma StandsAlone(env: Env, run: RunRecord, entry: Option<RunnerState>)
    requires Stands(env, run, entry)
    ensures Stands(env, run, None)
  {
    hide Position, Holds, Untouched;
    if !(Untouched(run.history) && run.sticky.None?) {
      var c: nat, m :| Standing(env, run, entry, c, m);
      assert Standing(env, run, None, c, m);
    }
  }

  lemma BookkeepingPlausible(h: History)
    ensures PlausibleAt(Next(h, OtherEvent), |h|)
  {
  }

  /** A task that leads to nothing: its start and its failure are recorded. */
  lemma FailedTask(settings: Settings, run: RunRecord, entry: Option<RunnerState>, env: Env, other: Option<RunnerState>)
    requires RunSoundIn(settings, run, entry, env)
    ensures RunSoundIn(settings, run.(history := Next(Next(run.history, OtherEvent), OtherEvent), sticky := None), other, env)
  {
    hide Lawful, Stands, PlausibleAt, Next;
    var h1 := Next(run.history, OtherEvent);
    BookkeepingPlausible(run.history);
    BookkeepingPlausible(h1);
    LawfulArrival(env, run.history, OtherEvent);
    LawfulArrival(env, h1, OtherEvent);
    var run1 := run.(history := h1);
    StandsNext(env, run, entry, OtherEvent);
    StandsNext(env, run1, entry, OtherEvent);
    StandsUntrusted(env, run1.(history := Next(h1, OtherEvent)), entry, other);
  }

  // ---- Answering a task --------------------------------------------------------------------------

  /** A runner that has just brought its body to rest on the whole history, not yet answered. */
  ghost predicate AtRest(env: Env, h: History, r: RunnerState, m: Machine) {
    Lawful(env, h) && Reaches(env, h, m) && Holds(env, h, |h|, r, m) && Writes(m, Recorded(h)) &&
    |Recorded(h)| <= |m.trace| && AnswerOf(r) == m.trace[|Recorded(h)|..]
  }

  lemma HoldsFacts(env: Env, h: History, seen: nat, e: RunnerState, m: Machine)
    requires Holds(env, h, seen, e, m)
    ensures seen <= |h| && e.scan.lastEventId == seen && e.phase == m.phase && !e.deadlocked && Consistent(env, m)
  {
    hide Consistent, Aware, Emitted, Indexes;
    var past, start :| Resident(env, h, seen, past, start, e, m);
  }

  lemma HoldsUpdated(env: Env, h: History, seen: nat, e: RunnerState, m: Machine, updates: seq<Update>)
    requires Holds(env, h, seen, e, m)
    ensures Holds(env, h, seen, RunUpdateHandlers(e, updates), RunUpdates(m, updates))
  {
    hide Resident;
    var past, start :| Resident(env, h, seen, past, start, e, m);
    UpdatesStayResident(env, h, seen, past, start, e, m, updates);
    assert Resident(env, h, seen, past, start, RunUpdateHandlers(e, updates), RunUpdates(m, updates));
  }

  /** The answer is recorded and the worker trusted with what follows. */
  lemma AnswerStands(settings: Settings, env: Env, run: RunRecord, worker: nat, h: History, r: RunnerState, m: Machine,
                     updates: seq<Update>, entry: Option<RunnerState>)
    requires Serves(settings, run, env) && AtRest(env, h, r, m) && h != []
    requires entry == None || entry == Some(RunUpdateHandlers(r, updates))
    ensures var response := Response.Completed(r.commands, updates, ClosingOf(r));
            RunSoundIn(settings, run.(history := Accepted(h, response), sticky := Some(Sticky(worker, |h|))), entry, env)
  {
    hide Lawful, Reaches, Writes, Recorded, Consistent, Holds, RunUpdates, RunUpdateHandlers, WithCommands,
         WithUpdates;
    var response := Response.Completed(r.commands, updates, ClosingOf(r));
    var run' := run.(history := Accepted(h, response), sticky := Some(Sticky(worker, |h|)));
    var m' := RunUpdates(m, updates);
    AnswerRecorded(env, h, m, |Recorded(h)|, r.commands, updates, ClosingOf(r));
    WrittenUpdates(env, h, m, |Recorded(h)|, updates);
    var h' := run'.history;
    assert Position(env, h', |h'|, m') by {
      assert h'[..|h'|] == h';
    }
    HoldsUpdated(env, h, |h|, r, m, updates);
    AcceptedExtends(h, response);
    HoldsOn(env, h, h', |h|, RunUpdateHandlers(r, updates), m');
    assert Standing(env, run', entry, |h'|, m');
  }

  /** What the worker keeps in its cache after answering. */
  lemma AnswerKept(settings: Settings, env: Env, run: RunRecord, h: History, r: RunnerState, m: Machine, updates: seq<Update>)
    requires Serves(settings, run, env) && run.workflowType in settings.workflows && Holds(env, h, |h|, r, m)
    requires h <= run.history && h != [] && RunUpdateHandlers(r, updates).phase.Running?
    ensures EntrySound(settings, run, RunUpdateHandlers(r, updates))
  {
    hide Holds, RunUpdates, RunUpdateHandlers;
    HoldsUpdated(env, h, |h|, r, m, updates);
    var e, m' := RunUpdateHandlers(r, updates), RunUpdates(m, updates);
    HoldsFacts(env, h, |h|, e, m');
    HoldsOn(env, h, run.history, |h|, e, m');
  }

  // ---- Continuing on the trusted runner ------------------------------------------------------------

  lemma ContinueReady(env: Env, h: History, c: nat, m: Machine, seen: nat, e: RunnerState, budget: nat) returns (m': Machine)
    requires Lawful(env, h) && Position(env, h, c, m) && seen <= c && Holds(env, h, seen, e, m)
    requires e.phase.Running? && !Closed(h)
    ensures var r := ApplyAndResume(e, h[seen..], budget);
            r.deadlocked || AtRest(env, h, r, m')
  {
    hide Lawful, Reaches, Writes, Recorded, Consistent, ApplyAndResume, Simulates, Indexes, Closed;
    var past, start :| Resident(env, h, seen, past, start, e, m);
    var r;
    r, m' := Continue(env, h, seen, c, past, start, e, m, budget);
    if !r.deadlocked {
      assert Resident(env, h, |h|, past, |m.trace|, r, m');
      assert h[..|h|] == h;
      WritesMore(m, m', Recorded(h));
      ReachesKeeps(env, h, m');
      if m'.phase.Finished? {
        EndNotRecorded(env, h, m');
      }
      AnswerIsNewPart(env, Know(h), past, |m.trace|, r, m');
    }
  }

  // ---- Replaying in full -----------------------------------------------------------------------

  lemma ReplayReady(env: Env, h: History, live: World, budget: nat) returns (m: Machine)
    requires Lawful(env, h) && SameWorld(env.world, RecordsOf(h), live) && !Closed(h)
    ensures var r := Run(NewRunner(env.workflowId, env.body, live, Scan(h)), budget);
            r.deadlocked || (Deterministic(r) && AtRest(env, h, r, m))
  {
    hide Reaches, Writes, Recorded, Consistent, Run, NewRunner, Simulates, Indexes, Closed, SameWorld, Authored,
         Plausible, Deterministic;
    var r;
    r, m := FullReplay(env, h, live, budget);
    NoFalseNondeterminism(env, h, live, budget);
    if !r.deadlocked {
      RebuiltIsResident(env, h, r, m);
      assert h[..|h|] == h;
      WritesFits(m, h);
      ReachesKeeps(env, h, m);
      if m.phase.Finished? {
        EndNotRecorded(env, h, m);
      }
      AnswerIsNewPart(env, Know(h), RecordedBy(m, h), 0, r, m);
    }
  }

  /** The world in which a fresh runner carries on: what is recorded, then what it will see itself. */
  lemma ReplayWorld(settings: Settings, run: RunRecord, entry: Option<RunnerState>, env: Env, live: World) returns (env': Env)
    requires RunSoundIn(settings, run, entry, env)
    ensures env' == InWorld(env, Onward(RecordsOf(run.history), live)) && Serves(settings, run, env')
    ensures Lawful(env', run.history)
  {
    hide Lawful, Reaches, Writes, Recorded, Consistent, RecordsOf, Holds, Updateless;
    var h := run.history;
    env' := InWorld(env, Onward(RecordsOf(h), live));
    if Untouched(h) && run.sticky.None? {
      LawfulUnrecorded(env, env'.world, h);
    } else {
      var c: nat, m :| Standing(env, run, entry, c, m);
      ReachesKeeps(env, h[..c], m);
      OnwardAgrees(env, h, m, live);
      LawfulInWorld(env, env'.world, h, c, m);
    }
  }

  // ---- The cache under a task --------------------------------------------------------------------

  ghost predicate Shape(settings: Settings, cache: Cache) {
    L.Distinct(cache) && L.Within(cache, settings.capacity)
  }

  /** Entries of other runs stay what they are, or are evicted. */
  ghost predicate OthersKept(cache: Cache, cache': Cache, runId: string) {
    forall k :: k != runId && L.Lookup(cache', k).Some? ==> L.Lookup(cache', k) == L.Lookup(cache, k)
  }

  lemma TouchKeeps(settings: Settings, cache: Cache, runId: string)
    requires Shape(settings, cache)
    ensures Shape(settings, L.Touch(cache, runId)) && OthersKept(cache, L.Touch(cache, runId), runId)
    ensures L.Lookup(L.Touch(cache, runId), runId) == L.Lookup(cache, runId)
  {
    L.ApplyKeeps(cache, L.Get(runId), settings.capacity);
    forall k
      ensures L.Lookup(L.Touch(cache, runId), k) == L.Lookup(cache, k)
    {
      L.LookupTouch(cache, runId, k);
    }
  }

  lemma RemoveKeepsShape(settings: Settings, cache: Cache, runId: string)
    requires Shape(settings, cache)
    ensures Shape(settings, L.Remove(cache, runId)) && OthersKept(cache, L.Remove(cache, runId), runId)
    ensures L.Lookup(L.Remove(cache, runId), runId) == None
  {
    L.ApplyKeeps(cache, L.Erase(runId), settings.capacity);
    forall k
      ensures L.Lookup(L.Remove(cache, runId), k) == if k == runId then None else L.Lookup(cache, k)
    {
      L.LookupRemove(cache, runId, k);
    }
  }

  lemma StoreKeeps(settings: Settings, cache: Cache, runId: string, r: RunnerState)
    requires Shape(settings, cache)
    ensures var cache' := L.Store(cache, runId, r, settings.capacity);
            Shape(settings, cache') && OthersKept(cache, cache', runId) && L.Lookup(cache', runId) == Some(r)
  {
    L.ApplyKeeps(cache, L.Put(runId, r), settings.capacity);
    forall k
      ensures var cache' := L.Store(cache, runId, r, settings.capacity);
              L.Lookup(cache', runId) == Some(r) &&
              (k != runId && L.Lookup(cache', k).Some? ==> L.Lookup(cache', k) == L.Lookup(cache, k))
    {
      L.LookupStore(cache, runId, r, settings.capacity, k);
    }
  }

  lemma RefreshKeeps(settings: Settings, cache: Cache, runId: string, r: RunnerState)
    requires Shape(settings, cache) && L.Lookup(cache, runId).Some?
    ensures Shape(settings, Refresh(cache, runId, r)) && OthersKept(cache, Refresh(cache, runId, r), runId)
    ensures L.Lookup(Refresh(cache, runId, r), runId) == Some(r)
  {
    var rest := L.Remove(cache, runId);
    L.RemoveKeeps(cache, runId);
    L.FrontDistinct(L.Entry(runId, r), rest);
    forall k
      ensures L.Lookup(Refresh(cache, runId, r), k) == if k == runId then Some(r) else L.Lookup(cache, k)
    {
      L.LookupRemove(cache, runId, k);
      L.LookupFront(L.Entry(runId, r), rest, k);
    }
  }

  lemma OthersKeptTwice(a: Cache, b: Cache, c: Cache, runId: string)
    requires OthersKept(a, b, runId) && OthersKept(b, c, runId)
    ensures OthersKept(a, c, runId)
  {
  }

  /** `AnswerTask` leaves a live runner at the front and takes a finished one out. */
  lemma AnswerTaskKeeps(settings: Settings, cache: Cache, runId: string, r: RunnerState, updates: seq<Update>)
    requires Shape(settings, cache) && L.Lookup(cache, runId).Some?
    ensures var cache' := AnswerTask(cache, runId, r, updates).0;
            var r1 := RunUpdateHandlers(r, updates);
            Shape(settings, cache') && OthersKept(cache, cache', runId) &&
            L.Lookup(cache', runId) == if r1.phase.Finished? then None else Some(r1)
  {
    hide Shape, OthersKept, Refresh, RunUpdateHandlers;
    RemoveKeepsShape(settings, cache, runId);
    RefreshKeeps(settings, cache, runId, RunUpdateHandlers(r, updates));
  }

  // ---- One task -----------------------------------------------------------------------------------

  /** What a task does to the record of its run and to the runner its worker keeps for it. */
  ghost predicate TaskSound(settings: Settings, run: RunRecord, runId: string, worker: nat, cache: Cache,
                            cache': Cache, response: Response, arrives: bool) {
    var run' := RecordAfter(run, worker, response, arrives);
    var kept := L.Lookup(cache', runId);
    Shape(settings, cache') && OthersKept(cache, cache', runId) &&
    RunSound(settings, run', if run'.sticky.Some? then kept else None) &&
    (kept.Some? ==> EntrySound(settings, run', kept.value)) &&
    !response.WorkflowFailed? && response != TaskFailed(NonDeterministicError)
  }

  lemma RecordGrows(run: RunRecord, worker: nat, response: Response, arrives: bool)
    ensures var run' := RecordAfter(run, worker, response, arrives);
            Next(run.history, OtherEvent) <= run'.history && run.history <= run'.history &&
            run'.workflowId == run.workflowId && run'.workflowType == run.workflowType
  {
    hide WithCommands, WithUpdates;
    AcceptedExtends(Next(run.history, OtherEvent), response);
    assert run.history <= Next(run.history, OtherEvent);
  }

  /** The task fails: nothing of the run is lost. */
  lemma FailureSound(settings: Settings, run: RunRecord, runId: string, worker: nat, cache: Cache, cache': Cache,
                     cause: Cause, arrives: bool, trusted: Option<RunnerState>)
    requires RunSound(settings, run, trusted) && cause != NonDeterministicError
    requires Shape(settings, cache') && OthersKept(cache, cache', runId)
    requires L.Lookup(cache', runId).Some? ==>
               L.Lookup(cache', runId) == L.Lookup(cache, runId) && EntrySound(settings, run, L.Lookup(cache, runId).value)
    ensures TaskSound(settings, run, runId, worker, cache, cache', TaskFailed(cause), arrives)
  {
    hide Shape, OthersKept, EntrySound, RunSoundIn, Next;
    var env :| RunSoundIn(settings, run, trusted, env);
    FailedTask(settings, run, trusted, env, None);
    var run' := RecordAfter(run, worker, TaskFailed(cause), arrives);
    assert RunSoundIn(settings, run', None, env);
    RecordGrows(run, worker, TaskFailed(cause), arrives);
    if L.Lookup(cache', runId).Some? {
      EntryOn(settings, run, run', L.Lookup(cache', runId).value);
    }
  }

  /** The task is answered. `env` is the world the runner went through, `env0` the one recorded so far. */
  lemma AnswerSound(settings: Settings, run: RunRecord, runId: string, worker: nat, cache: Cache, cache1: Cache,
                    r: RunnerState, m: Machine, env: Env, updates: seq<Update>, arrives: bool, trusted: Option<RunnerState>)
    requires RunSound(settings, run, trusted) && run.workflowType in settings.workflows
    requires Serves(settings, run, env) && AtRest(env, Next(run.history, OtherEvent), r, m)
    requires Shape(settings, cache1) && OthersKept(cache, cache1, runId) && L.Lookup(cache1, runId).Some?
    ensures var (cache', response) := AnswerTask(cache1, runId, r, updates);
            TaskSound(settings, run, runId, worker, cache, cache', response, arrives)
  {
    hide Shape, OthersKept, EntrySound, RunSoundIn, RunUpdateHandlers, WithCommands, WithUpdates, Lawful, Reaches,
         Writes, Recorded, Holds;
    var h := Next(run.history, OtherEvent);
    var (cache', response) := AnswerTask(cache1, runId, r, updates);
    var run' := RecordAfter(run, worker, response, arrives);
    var kept := L.Lookup(cache', runId);
    AnswerTaskKeeps(settings, cache1, runId, r, updates);
    OthersKeptTwice(cache, cache1, cache', runId);
    RecordGrows(run, worker, response, arrives);
    if arrives {
      AnswerStands(settings, env, run, worker, h, r, m, updates, kept);
      assert RunSoundIn(settings, run', kept, env);
    } else {
      var env0 :| RunSoundIn(settings, run, trusted, env0);
      FailedTask(settings, run, trusted, env0, None);
      assert RunSoundIn(settings, run', None, env0);
    }
    if kept.Some? {
      AnswerKept(settings, env, run', h, r, m, updates);
    }
  }
}
