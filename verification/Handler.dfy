/** The workflow task handler as the object it is: a cache of live runners, changed in place. `Handle`
    is proved to do to the cached states, and to answer, what `TaskHandling` says. */
module Handler {
  import opened Basics
  import opened Workflow
  import opened Machine
  import opened HistoryScan
  import Engine
  import Continuation
  import T = TaskHandling
  import L = Lru
  import R = Runner
  import D = Determinism

  type Runners = seq<L.Entry<string, R.WorkflowRunner>>

  ghost function Values(es: Runners): set<R.WorkflowRunner> {
    set e | e in es :: e.value
  }

  /** The states behind the cached runners. */
  ghost function StatesOf(es: Runners): (r: T.Cache)
    reads Values(es)
    ensures |r| == |es|
    ensures forall i :: 0 <= i < |es| ==> r[i] == L.Entry(es[i].key, es[i].value.State())
  {
    seq(|es|, i requires 0 <= i < |es| reads Values(es) => L.Entry(es[i].key, es[i].value.State()))
  }

  /** No two runs share a runner. */
  ghost predicate Separate(es: Runners) {
    forall i, j :: 0 <= i < j < |es| ==> es[i].value != es[j].value
  }

  // ---- The cache operations, through the states --------------------------------------------------

  lemma StatesSplit(es: Runners)
    requires es != []
    ensures StatesOf(es)[1..] == StatesOf(es[1..]) && StatesOf(es)[0] == L.Entry(es[0].key, es[0].value.State())
    ensures es == [es[0]] + es[1..]
  {
  }

  lemma StatesFront(e: L.Entry<string, R.WorkflowRunner>, es: Runners)
    ensures StatesOf([e] + es) == [L.Entry(e.key, e.value.State())] + StatesOf(es)
  {
  }

  lemma {:induction false} StatesLookup(es: Runners, k: string)
    ensures L.Lookup(StatesOf(es), k) == match L.Lookup(es, k) case Some(v) => Some(v.State()) case None => None
  {
    if es != [] {
      StatesSplit(es);
      hide StatesOf;
      StatesLookup(es[1..], k);
    }
  }

  lemma LookupValue(es: Runners, k: string)
    requires L.Lookup(es, k).Some?
    ensures L.Lookup(es, k).value in Values(es)
  {
    L.LookupMember(es, k);
  }

  lemma {:induction false} StatesRemove(es: Runners, k: string)
    ensures StatesOf(L.Remove(es, k)) == L.Remove(StatesOf(es), k)
  {
    if es != [] {
      StatesSplit(es);
      StatesRemove(es[1..], k);
      StatesFront(es[0], L.Remove(es[1..], k));
    }
  }

  lemma StatesTouch(es: Runners, k: string)
    ensures StatesOf(L.Touch(es, k)) == L.Touch(StatesOf(es), k)
  {
    hide L.Lookup, L.Remove;
    StatesLookup(es, k);
    StatesRemove(es, k);
    if L.Lookup(es, k).Some? {
      StatesFront(L.Entry(k, L.Lookup(es, k).value), L.Remove(es, k));
    }
  }

  lemma StatesStore(es: Runners, k: string, v: R.WorkflowRunner, capacity: nat)
    ensures StatesOf(L.Store(es, k, v, capacity)) == L.Store(StatesOf(es), k, v.State(), capacity)
  {
    hide L.Remove;
    StatesRemove(es, k);
    StatesFront(L.Entry(k, v), L.Remove(es, k));
  }

  lemma {:induction false} RemoveSeparate(es: Runners, k: string)
    requires Separate(es)
    ensures Separate(L.Remove(es, k)) && Values(L.Remove(es, k)) <= Values(es)
  {
    L.RemoveMembers(es, k);
    if es != [] {
      RemoveSeparate(es[1..], k);
      L.RemoveMembers(es[1..], k);
      forall e | e in es[1..]
        ensures e.value != es[0].value
      {
        var i :| 0 <= i < |es[1..]| && es[1..][i] == e;
        assert es[i + 1] == e;
      }
    }
  }

  lemma FrontSeparate(e: L.Entry<string, R.WorkflowRunner>, es: Runners)
    requires Separate(es) && e.value !in Values(es)
    ensures Separate([e] + es)
  {
    var all := [e] + es;
    forall i, j | 0 <= i < j < |all|
      ensures all[i].value != all[j].value
    {
      assert all[j] == es[j - 1] && es[j - 1] in es;
    }
  }

  lemma RemovedIsGone(es: Runners, k: string, v: R.WorkflowRunner)
    requires Separate(es) && L.Lookup(es, k) == Some(v)
    ensures v !in Values(L.Remove(es, k))
  {
    L.RemoveMembers(es, k);
    L.LookupMember(es, k);
    var i :| 0 <= i < |es| && es[i] == L.Entry(k, v);
    forall e | e in L.Remove(es, k)
      ensures e.value != v
    {
      assert e in es;
      var j :| 0 <= j < |es| && es[j] == e;
      assert i != j;
    }
  }

  lemma TouchSeparate(es: Runners, k: string)
    requires Separate(es)
    ensures Separate(L.Touch(es, k)) && Values(L.Touch(es, k)) <= Values(es)
  {
    RemoveSeparate(es, k);
    if L.Lookup(es, k).Some? {
      var v := L.Lookup(es, k).value;
      RemovedIsGone(es, k, v);
      FrontSeparate(L.Entry(k, v), L.Remove(es, k));
      L.LookupMember(es, k);
    }
  }

  lemma StoreSeparate(es: Runners, k: string, v: R.WorkflowRunner, capacity: nat)
    requires Separate(es) && v !in Values(es)
    ensures Separate(L.Store(es, k, v, capacity)) && Values(L.Store(es, k, v, capacity)) <= Values(es) + {v}
  {
    RemoveSeparate(es, k);
    FrontSeparate(L.Entry(k, v), L.Remove(es, k));
  }

  // ---- The handler -------------------------------------------------------------------------------

  class WorkflowTaskHandler {
    const settings: T.Settings
    const cache: L.LruCache<string, R.WorkflowRunner>

    ghost predicate Valid()
      reads this, cache, cache.order
    {
      cache.Valid() && cache.capacity == settings.capacity && Separate(cache.Contents())
    }

    ghost function Runners(): set<R.WorkflowRunner>
      reads this, cache, cache.order
    {
      Values(cache.Contents())
    }

    ghost function Cached(): T.Cache
      reads this, cache, cache.order, Runners()
    {
      StatesOf(cache.Contents())
    }

    constructor (settings: T.Settings)
      ensures Valid() && this.settings == settings && Cached() == [] && fresh(cache) && cache.order == []
    {
      this.settings := settings;
      cache := new L.LruCache(settings.capacity);
    }

    /** The updates that came with the task, against the runner's live state. */
    method RunUpdates(runner: R.WorkflowRunner, updates: seq<Continuation.Update>)
      modifies runner
      ensures runner.State() == Continuation.RunUpdateHandlers(old(runner.State()), updates)
    {
      hide R.Merged, Engine.RunUpdateHandler;
      for i := 0 to |updates|
        invariant runner.State() == Continuation.RunUpdateHandlers(old(runner.State()), updates[..i])
      {
        assert updates[..i + 1][..i] == updates[..i];
        runner.RunUpdate(updates[i].name, updates[i].args);
      }
      assert updates[..|updates|] == updates;
    }

    method AnswerQuery(runner: R.WorkflowRunner) returns (response: T.Response)
      ensures response == T.AnswerQuery(runner.State())
    {
      hide R.Merged;
      if runner.deadlocked || runner.phase.Finished? {
        return T.QueryFailed;
      }
      return T.Answered(runner.log, runner.phase);
    }

    /** With the runner's entry at the front, the rest of the cache is what removing the run leaves. */
    lemma FrontRest(runId: string, runner: R.WorkflowRunner)
      requires Valid() && cache.Contents() != [] && cache.Contents()[0] == L.Entry(runId, runner)
      ensures L.Remove(cache.Contents(), runId) == cache.Contents()[1..] && runner !in Values(cache.Contents()[1..])
      ensures L.Remove(StatesOf(cache.Contents()), runId) == StatesOf(cache.Contents()[1..])
      ensures L.Lookup(cache.Contents(), runId) == Some(runner)
    {
      var es := cache.Contents();
      L.EntriesDistinct(cache.order, cache.index);
      L.RemoveAt(es, 0);
      assert es[..0] + es[1..] == es[1..];
      RemovedIsGone(es, runId, runner);
      StatesRemove(es, runId);
    }

    /** The updates run against the cached runner, where it is. */
    method UpdateCached(runId: string, runner: R.WorkflowRunner, updates: seq<Continuation.Update>)
      requires Valid() && cache.Contents() != [] && cache.Contents()[0] == L.Entry(runId, runner)
      modifies runner
      ensures Valid() && cache.Contents() == old(cache.Contents())
      ensures runner.State() == Continuation.RunUpdateHandlers(old(runner.State()), updates)
      ensures Cached() == T.Refresh(old(Cached()), runId, runner.State())
    {
      hide R.Merged, L.Lookup, L.Remove, StatesOf, Separate, L.Linked, L.EntriesOf, Continuation.RunUpdateHandlers;
      ghost var es := cache.Contents();
      FrontRest(runId, runner);
      assert es == [es[0]] + es[1..];
      ghost var rest := StatesOf(es[1..]);
      RunUpdates(runner, updates);
      StatesFront(es[0], es[1..]);
    }

    /** Take the runner at the front out of the cache. */
    method EraseFront(runId: string, runner: R.WorkflowRunner, ghost was: T.Cache)
      requires Valid() && cache.Contents() != [] && cache.Contents()[0] == L.Entry(runId, runner)
      requires Cached() == T.Refresh(was, runId, runner.State())
      modifies cache`order, cache`index
      ensures Valid() && Runners() <= old(Runners()) && (forall n :: n in cache.order ==> n in old(cache.order))
      ensures Cached() == L.Remove(was, runId)
    {
      hide R.Merged, L.Lookup, L.Remove, StatesOf, Separate, L.Linked, L.EntriesOf, T.Refresh;
      RefreshedRest(Cached(), was, runId, runner.State());
      RemoveSeparate(cache.Contents(), runId);
      StatesRemove(cache.Contents(), runId);
      cache.Erase(runId);
    }

    /** Commands first, then the updates run; a runner that has ended leaves the cache. */
    method AnswerTask(runId: string, runner: R.WorkflowRunner, updates: seq<Continuation.Update>) returns (response: T.Response)
      requires Valid() && cache.Contents() != [] && cache.Contents()[0] == L.Entry(runId, runner)
      modifies cache`order, cache`index, runner
      ensures Valid() && Runners() <= old(Runners()) && (forall n :: n in cache.order ==> n in old(cache.order))
      ensures (Cached(), response) == T.AnswerTask(old(Cached()), runId, old(runner.State()), updates)
    {
      hide R.Merged, L.Lookup, L.Remove, StatesOf, Separate, L.Linked, L.EntriesOf, Continuation.RunUpdateHandlers,
           T.Refresh;
      var commands := runner.commands;
      UpdatesKeepPhase(runner.State(), updates);
      UpdateCached(runId, runner, updates);
      response := T.Response.Completed(commands, updates, if runner.phase.Finished? then Some(runner.phase.how) else None);
      if runner.phase.Finished? {
        EraseFront(runId, runner, old(Cached()));
      }
    }

    /** The cached runner takes in the new events and runs on, where it is. */
    method ContinueCached(runId: string, events: History, runner: R.WorkflowRunner, budget: nat)
      requires Valid() && cache.Contents() != [] && cache.Contents()[0] == L.Entry(runId, runner)
      modifies runner
      ensures Valid() && cache.Contents() == old(cache.Contents())
      ensures runner.State() == Engine.ApplyAndResume(old(runner.State()), events, budget)
      ensures Cached() == T.Refresh(old(Cached()), runId, runner.State())
    {
      hide R.Merged, L.Lookup, L.Remove, StatesOf, Separate, L.Linked, L.EntriesOf, Engine.ApplyAndResume;
      ghost var es := cache.Contents();
      FrontRest(runId, runner);
      assert es == [es[0]] + es[1..];
      ghost var rest := StatesOf(es[1..]);
      runner.ApplyAndResume(events, budget);
      StatesFront(es[0], es[1..]);
    }

    /** A continuation of, or a query to, the runner found in the cache. */
    method HandleHit(task: T.Task, runner: R.WorkflowRunner, ghost live: World, budget: nat) returns (response: T.Response)
      requires Valid() && cache.Contents() != [] && cache.Contents()[0] == L.Entry(task.runId, runner)
      modifies cache`order, cache`index, runner
      ensures Valid() && Runners() <= old(Runners()) && (forall n :: n in cache.order ==> n in old(cache.order))
      ensures (Cached(), response) == T.HandleHit(old(Cached()), task, old(runner.State()), T.Chance(live, budget))
    {
      hide R.Merged, L.Lookup, L.Remove, StatesOf, Separate, L.Linked, L.EntriesOf, Engine.ApplyAndResume,
           T.AnswerTask, T.Refresh;
      if task.isQuery {
        response := AnswerQuery(runner);
        return;
      }
      ContinueCached(task.runId, task.events, runner, budget);
      if runner.deadlocked {
        EraseFront(task.runId, runner, old(Cached()));
        return T.TaskFailed(T.Deadlock);
      }
      response := AnswerTask(task.runId, runner, task.updates);
    }

    /** A new runner, run over a whole history. */
    method Replay(body: Body, task: T.Task, history: History, live: World, budget: nat) returns (runner: R.WorkflowRunner)
      ensures fresh(runner) && runner.State() == T.Replayed(body, task, history, T.Chance(live, budget))
    {
      hide R.Merged, Engine.Run, Engine.NewRunner, Scan;
      var scan := ScanHistory(history);
      runner := new R.WorkflowRunner(task.workflowId, body, live, scan);
      runner.Run(budget);
    }

    /** The new runner becomes the cached one, and the least recently used may have to go. */
    method Keep(runId: string, runner: R.WorkflowRunner)
      requires Valid() && runner !in Runners()
      modifies cache, cache.order
      ensures Valid() && Runners() <= old(Runners()) + {runner}
      ensures forall n :: n in cache.order ==> n in old(cache.order) || fresh(n)
      ensures cache.Contents() != [] && cache.Contents()[0] == L.Entry(runId, runner)
      ensures Cached() == L.Store(old(Cached()), runId, runner.State(), settings.capacity)
    {
      hide R.Merged, L.Remove, StatesOf, Separate, L.Linked, L.EntriesOf;
      ghost var kept := L.Store(cache.Contents(), runId, runner, settings.capacity);
      StatesStore(cache.Contents(), runId, runner, settings.capacity);
      StoreSeparate(cache.Contents(), runId, runner, settings.capacity);
      ghost var states := StatesOf(kept);
      cache.Put(runId, runner);
      assert cache.Contents() == kept && StatesOf(kept) == states;
    }

    method KeepAndAnswer(task: T.Task, runner: R.WorkflowRunner) returns (response: T.Response)
      requires Valid() && runner !in Runners()
      modifies cache, cache.order, runner
      ensures Valid() && Runners() <= old(Runners()) + {runner}
      ensures forall n :: n in cache.order ==> n in old(cache.order) || fresh(n)
      ensures (Cached(), response) ==
                T.AnswerTask(L.Store(old(Cached()), task.runId, old(runner.State()), settings.capacity), task.runId,
                             old(runner.State()), task.updates)
    {
      hide R.Merged, L.Store, StatesOf, Separate, L.Linked, L.EntriesOf, T.AnswerTask;
      Keep(task.runId, runner);
      response := AnswerTask(task.runId, runner, task.updates);
    }

    /** A replayed runner is cached unless it diverged or overran its timeout. */
    method AnswerReplay(task: T.Task, runner: R.WorkflowRunner) returns (response: T.Response)
      requires Valid() && runner !in Runners()
      modifies cache, cache.order, runner
      ensures Valid() && Runners() <= old(Runners()) + {runner}
      ensures forall n :: n in cache.order ==> n in old(cache.order) || fresh(n)
      ensures (Cached(), response) == T.AnswerReplay(settings, old(Cached()), task, old(runner.State()))
    {
      hide R.Merged, L.Lookup, L.Remove, StatesOf, Separate, L.Linked, L.EntriesOf, L.Store, Engine.Deterministic,
           T.AnswerTask, D.Divergence, D.DivergesFirstAt;
      if runner.deadlocked {
        StatesRemove(cache.Contents(), task.runId);
        RemoveSeparate(cache.Contents(), task.runId);
        cache.Erase(task.runId);
        return T.TaskFailed(T.Deadlock);
      }
      var divergence := runner.CheckDeterminism();
      if divergence.Some? {
        return if settings.failOnPanic then T.WorkflowFailed else T.TaskFailed(T.NonDeterministicError);
      }
      response := KeepAndAnswer(task, runner);
    }

    /** A replay from scratch. */
    method HandleReplay(body: Body, task: T.Task, live: World, budget: nat) returns (response: T.Response)
      requires Valid()
      modifies cache, cache.order
      ensures Valid()
      ensures (Cached(), response) == T.HandleReplay(settings, body, old(Cached()), task, T.Chance(live, budget))
    {
      hide R.Merged, StatesOf, Separate, L.Linked, L.EntriesOf, T.AnswerReplay, T.Replayed;
      var runner := Replay(body, task, task.events, live, budget);
      assert runner !in Runners();
      response := AnswerReplay(task, runner);
    }

    /** One task, from delivery to answer. */
    method Handle(task: T.Task, live: World, budget: nat) returns (response: T.Response)
      requires Valid()
      modifies cache, cache.order, Runners()
      ensures Valid()
      ensures (Cached(), response) == T.HandleTask(settings, old(Cached()), task, T.Chance(live, budget))
    {
      hide R.Merged, L.Lookup, L.Remove, L.Touch, StatesOf, Separate, L.Linked, L.EntriesOf, T.HandleHit,
           T.HandleReplay, T.Replayed;
      if task.workflowType !in settings.workflows {
        return T.TaskFailed(T.NotRegistered);
      }
      var body := settings.workflows[task.workflowType];
      ghost var es := cache.Contents();
      StatesLookup(es, task.runId);
      StatesTouch(es, task.runId);
      TouchSeparate(es, task.runId);
      if !task.IsFullHistory() {
        var slot := cache.Get(task.runId);
        if slot.Some? {
          LookupValue(es, task.runId);
          FrontAfterTouch(es, task.runId);
          var cached := slot.value;
          if task.isQuery || (task.events != [] && task.events[0].id == cached.scan.lastEventId + 1) {
            response := HandleHit(task, cached, live, budget);
            return;
          }
        }
      }
      if task.isQuery {
        var runner := Replay(body, task, task.whole, live, budget);
        response := AnswerQuery(runner);
      } else if !task.IsFullHistory() {
        return T.TaskFailed(T.ResetStickyTaskQueue);
      } else {
        response := HandleReplay(body, task, live, budget);
      }
    }
  }

  /** Removing a run that was just refreshed is removing it as it was. */
  lemma RefreshedRest(now: T.Cache, was: T.Cache, runId: string, r: Engine.RunnerState)
    requires now == T.Refresh(was, runId, r)
    ensures L.Remove(now, runId) == L.Remove(was, runId)
  {
    L.RemoveMembers(was, runId);
    assert now[1..] == L.Remove(was, runId);
    L.RemoveAbsent(now[1..], runId);
  }

  lemma FrontAfterTouch(es: Runners, k: string)
    requires L.Lookup(es, k).Some?
    ensures L.Touch(es, k) != [] && L.Touch(es, k)[0] == L.Entry(k, L.Lookup(es, k).value)
  {
  }

  lemma {:induction false} UpdatesKeepPhase(r: Engine.RunnerState, updates: seq<Continuation.Update>)
    ensures Continuation.RunUpdateHandlers(r, updates).phase == r.phase
  {
    if updates != [] {
      UpdatesKeepPhase(r, updates[..|updates| - 1]);
    }
  }
}
