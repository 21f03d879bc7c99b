/** What users of the cluster get, over every run of it. */
module ClusterGuarantees {
  import opened Basics
  import opened Workflow
  import opened Machine
  import opened HistoryScan
  import opened ScanFacts
  import opened Engine
  import opened Simulation
  import opened Progress
  import opened Replay
  import opened Continuation
  import opened Guarantees
  import opened TaskHandling
  import opened Cluster
  import opened Answers
  import opened ClusterSafety
  import opened ClusterRuns
  import opened TaskAnswers
  import L = Lru

  /** Exactly once: the commands in a reachable history are, one for one and in order, all the
      commands of one execution of the body. */
  lemma RecordedOnce(settings: Settings, states: seq<Cluster>, actions: seq<Action>, n: nat, runId: string)
    returns (env: Env, c: nat, m: Machine)
    requires Execution(settings, states, actions) && n < |states| && runId in states[n].runs
    ensures var run := states[n].runs[runId];
            Serves(settings, run, env) && Lawful(env, run.history) &&
            (Untouched(run.history) ||
             (c <= |run.history| && Reaches(env, run.history[..c], m) && |Recorded(run.history)| == |m.trace| &&
              forall i :: 0 <= i < |m.trace| ==> Recorded(run.history)[i] == RecordingOf(m.trace[i])))
  {
    hide Serves, Lawful, Reaches, Recorded, Holds, RecordingOf;
    AlwaysSafe(settings, states, actions, n);
    var run := states[n].runs[runId];
    InvariantAt(settings, states[n], runId, 0);
    env :| RunSoundIn(settings, run, Trusted(states[n], runId), env);
    c, m := 0, Init(env);
    if !Untouched(run.history) {
      c, m :| Standing(env, run, Trusted(states[n], runId), c, m);
    }
  }

  /** No false alarms: no task of a reachable cluster fails for non-determinism. */
  lemma NeverNondeterministic(settings: Settings, states: seq<Cluster>, actions: seq<Action>, n: nat,
                              runId: string, worker: nat, full: bool, updates: seq<Update>, chance: Chance)
    requires Execution(settings, states, actions) && n < |states|
    requires Enabled(states[n], DoTask(runId, worker, full, updates, chance, true))
    ensures var response := HandleTask(settings, CacheOf(states[n], worker), TaskOf(states[n].runs[runId], runId, full, updates), chance).1;
            !response.WorkflowFailed? && response != TaskFailed(NonDeterministicError)
  {
    hide Invariant, TaskReady, HandleTask, Closed, RecordAfter, TaskOf, Shape, OthersKept, RunSound, EntrySound;
    var c := states[n];
    AlwaysSafe(settings, states, actions, n);
    TaskReadyHere(settings, c, runId, worker, full, updates, chance, true);
    AnyTask(settings, c.runs[runId], runId, worker, CacheOf(c, worker), full, updates, chance, true, Trusted(c, runId));
  }

  /** A cached runner: which events it has had is exactly what its checkpoint says, and it has neither
      ended nor overrun its timeout. */
  lemma CachedRunnersSound(settings: Settings, states: seq<Cluster>, actions: seq<Action>, n: nat, worker: nat, runId: string)
    returns (env: Env, m: Machine)
    requires Execution(settings, states, actions) && n < |states| && EntryOf(states[n], runId, worker).Some?
    ensures runId in states[n].runs
    ensures var e, run := EntryOf(states[n], runId, worker).value, states[n].runs[runId];
            0 < e.scan.lastEventId <= |run.history| && e.phase.Running? && !e.deadlocked &&
            Serves(settings, run, env) && Holds(env, run.history, e.scan.lastEventId, e, m)
  {
    hide Serves, Holds, RunSound;
    AlwaysSafe(settings, states, actions, n);
    InvariantAt(settings, states[n], runId, worker);
    var e, run := EntryOf(states[n], runId, worker).value, states[n].runs[runId];
    env, m :| Serves(settings, run, env) && Holds(env, run.history, e.scan.lastEventId, e, m);
  }

  // ---- Every task gets on ------------------------------------------------------------------------

  /** In every reachable cluster, whichever worker an open run's whole history is sent to: unless some
      burst of the replay is longer than the timeout, the task is answered, with exactly what the body
      does after that history and the history has not recorded, and with the updates delivered. */
  lemma FullTaskAnswered(settings: Settings, states: seq<Cluster>, actions: seq<Action>, n: nat, runId: string, worker: nat,
                         updates: seq<Update>, chance: Chance) returns (env: Env, m: Machine)
    requires Execution(settings, states, actions) && n < |states| && runId in states[n].runs
    requires !Closed(states[n].runs[runId].history) && states[n].runs[runId].workflowType in settings.workflows
    ensures var run := states[n].runs[runId];
            var h := Next(run.history, OtherEvent);
            var response := HandleTask(settings, CacheOf(states[n], worker), TaskOf(run, runId, true, updates), chance).1;
            Serves(settings, run, env) && Lawful(env, h) &&
            if BurstsFit(env, h, |h|, chance.budget) then
              Reaches(env, h, m) && Writes(m, Recorded(h)) && response.Completed? && response.updates == updates &&
              m.trace == m.trace[..|Recorded(h)|] + response.commands + Terminal(response.closing)
            else response == TaskFailed(Deadlock)
  {
    hide Execution, Invariant, HandleTask, RunSound, Closed;
    AlwaysSafe(settings, states, actions, n);
    InvariantAt(settings, states[n], runId, worker);
    env, m := FullAnswered(settings, states[n].runs[runId], runId, CacheOf(states[n], worker), Trusted(states[n], runId), updates, chance);
  }

  function Terminal(closing: Option<Closing>): seq<Command> {
    match closing
    case None => []
    case Some(how) => [CloseWorkflow(how)]
  }

  lemma FullAnswered(settings: Settings, run: RunRecord, runId: string, cache: Cache, trusted: Option<RunnerState>,
                     updates: seq<Update>, chance: Chance) returns (env: Env, m: Machine)
    requires RunSound(settings, run, trusted) && !Closed(run.history) && run.workflowType in settings.workflows
    ensures var h := Next(run.history, OtherEvent);
            var response := HandleTask(settings, cache, TaskOf(run, runId, true, updates), chance).1;
            Serves(settings, run, env) && Lawful(env, h) &&
            if BurstsFit(env, h, |h|, chance.budget) then
              Reaches(env, h, m) && Writes(m, Recorded(h)) && response.Completed? && response.updates == updates &&
              m.trace == m.trace[..|Recorded(h)|] + response.commands + Terminal(response.closing)
            else response == TaskFailed(Deadlock)
  {
    hide Lawful, Stands, Reaches, Writes, Recorded, Run, NewRunner, Next, Closed, Deterministic, SameWorld, RecordsOf,
         BurstsFit, Holds, HandleTask, Rebuilds;
    var h := Next(run.history, OtherEvent);
    var env0 :| RunSoundIn(settings, run, trusted, env0);
    StartedFacts(env0, run);
    env := StartedWorld(settings, run, trusted, env0, chance.live);
    FullResponse(settings, cache, TaskOf(run, runId, true, updates), chance);
    m := ReplayReady(env, h, chance.live, chance.budget);
    var r, _ := FullReplay(env, h, chance.live, chance.budget);
  }

  /** What an answer does to the record of its run, if it arrives: all its commands are recorded in order,
      then its updates, then its end, and the worker is trusted with what follows; otherwise only that
      the task was started and failed, and no worker is trusted. */
  lemma RecordGains(run: RunRecord, worker: nat, response: Response, arrives: bool)
    requires response.Completed? || response.TaskFailed?
    ensures var run' := RecordAfter(run, worker, response, arrives);
            var n := |run.history|;
            run.history <= run'.history &&
            if arrives && response.Completed? then
              Recorded(run'.history) == Recorded(run.history) + Recordings(response.commands + Terminal(response.closing)) &&
              UpdatesIn(run'.history[n..]) == response.updates && run'.sticky == Some(Sticky(worker, n + 1))
            else
              Recorded(run'.history) == Recorded(run.history) && UpdatesIn(run'.history[n..]) == [] && run'.sticky == None
  {
    hide Recorded, UpdatesIn, WithCommands, WithUpdates, Recordings;
    var n, h := |run.history|, run.history;
    var h1 := Next(h, OtherEvent);
    GainNext(h, h, OtherEvent);
    assert UpdatesIn(h[n..]) == [] by { assert h[n..] == []; NoUpdates(); }
    GainNext(h, h1, OtherEvent);
    if arrives && response.Completed? {
      var h2 := WithCommands(Next(h1, OtherEvent), response.commands);
      GainCommands(h, Next(h1, OtherEvent), response.commands);
      GainUpdates(h, h2, response.updates);
      var h3 := WithUpdates(h2, response.updates);
      assert [] + response.updates == response.updates;
      RecordingsEnd(response.commands, response.closing);
      if response.closing.Some? {
        GainNext(h, h3, CommandRecorded(WorkflowClosed(response.closing.value)));
      } else {
        assert response.commands + Terminal(response.closing) == response.commands;
      }
    }
  }

  function Recordings(commands: seq<Command>): seq<Recording> {
    seq(|commands|, i requires 0 <= i < |commands| => RecordingOf(commands[i]))
  }

  lemma RecordingsEnd(commands: seq<Command>, closing: Option<Closing>)
    ensures closing.Some? ==>
              Recordings(commands + Terminal(closing)) == Recordings(commands) + [WorkflowClosed(closing.value)]
  {
  }

  lemma NoUpdates()
    ensures UpdatesIn([]) == []
  {
  }

  lemma GainNext(h: History, now: History, a: Attributes)
    requires h <= now
    ensures h <= Next(now, a)
    ensures Recorded(Next(now, a)) == Recorded(now) + if a.CommandRecorded? then [a.record] else []
    ensures UpdatesIn(Next(now, a)[|h|..]) == UpdatesIn(now[|h|..]) + if a.UpdateAccepted? then [Update(a.name, a.args)] else []
  {
    hide UpdatesIn, Recorded;
    NextFacts(now, a);
    var n, c := |h|, |now|;
    assert Next(now, a)[n..c] == now[n..];
    assert Next(now, a)[n..c + 1] == Next(now, a)[n..];
    UpdatesInStep(Next(now, a), n, c);
  }

  lemma {:induction false} GainCommands(h: History, now: History, commands: seq<Command>)
    requires h <= now
    ensures var h' := WithCommands(now, commands);
            h <= h' && Recorded(h') == Recorded(now) + Recordings(commands) && UpdatesIn(h'[|h|..]) == UpdatesIn(now[|h|..])
  {
    hide UpdatesIn, Recorded, RecordingOf;
    if commands != [] {
      var n := |commands| - 1;
      GainCommands(h, now, commands[..n]);
      GainNext(h, WithCommands(now, commands[..n]), CommandRecorded(RecordingOf(commands[n])));
      assert Recordings(commands) == Recordings(commands[..n]) + [RecordingOf(commands[n])];
    }
  }

  lemma {:induction false} GainUpdates(h: History, now: History, updates: seq<Update>)
    requires h <= now
    ensures var h' := WithUpdates(now, updates);
            h <= h' && Recorded(h') == Recorded(now) && UpdatesIn(h'[|h|..]) == UpdatesIn(now[|h|..]) + updates
  {
    hide UpdatesIn, Recorded;
    if updates != [] {
      var n := |updates| - 1;
      GainUpdates(h, now, updates[..n]);
      GainNext(h, WithUpdates(now, updates[..n]), UpdateAccepted(updates[n].name, updates[n].args));
      assert updates == updates[..n] + [updates[n]];
    }
  }

  // ---- Caching is transparent --------------------------------------------------------------------

  /** The trusted runner and the record agree about the values that are still to come. */
  lemma SameFuture(env: Env, h: History, c: nat, m: Machine, seen: nat, e: RunnerState)
    requires Position(env, h, c, m) && Holds(env, h, seen, e, m) && e.phase.Running?
    ensures SameWorld(env.world, RecordsOf(h), e.live)
  {
    hide Reaches, Recorded, RecordsOf, Minted, Indexes, SameFutures, Foreseen, GuardsFutures, GuardsCancels, Emitted,
         WellNumbered, RecordsExactly, Know;
    var past, start :| Resident(env, h, seen, past, start, e, m);
    WritesExactly(env, m, h);
    assert RecordedBy(m, h) == m.trace;
    RecordedMarkers(env, h, m.trace);
    PrefixMonotone(past, m.trace);
  }

  lemma SameAnswer(env: Env, h: History, a: RunnerState, b: RunnerState, m: Machine, n: nat)
    requires Holds(env, h, |h|, a, m) && Holds(env, h, |h|, b, m)
    requires n <= |m.trace| && AnswerOf(a) == m.trace[n..] && AnswerOf(b) == m.trace[n..]
    ensures a.commands == b.commands && ClosingOf(a) == ClosingOf(b)
  {
    HoldsFacts(env, h, |h|, a, m);
    HoldsFacts(env, h, |h|, b, m);
    hide Holds, Consistent;
    if m.phase.Finished? {
      assert a.commands == AnswerOf(a)[..|AnswerOf(a)| - 1] && b.commands == AnswerOf(b)[..|AnswerOf(b)| - 1];
    } else {
      assert a.commands == AnswerOf(a) && b.commands == AnswerOf(b);
    }
  }

  /** Continuing on the cached runner and replaying on a runner built from scratch, given the same
      values for what is new, answer the task alike. */
  lemma TransparentRunners(env: Env, h: History, c: nat, m: Machine, seen: nat, e: RunnerState, b1: nat, b2: nat)
    requires Lawful(env, h) && Position(env, h, c, m) && seen <= c && Holds(env, h, seen, e, m) && e.phase.Running?
    requires !Closed(h) && seen <= |h|
    ensures var hit := ApplyAndResume(e, h[seen..], b1);
            var replayed := Run(NewRunner(env.workflowId, env.body, e.live, Scan(h)), b2);
            hit.deadlocked || replayed.deadlocked ||
            (Deterministic(replayed) && hit.commands == replayed.commands && ClosingOf(hit) == ClosingOf(replayed))
  {
    hide Lawful, Reaches, Recorded, RecordsOf, Run, NewRunner, ApplyAndResume, SameWorld, Closed, Deterministic,
         Position, Holds, ClosingOf, AnswerOf;
    SameFuture(env, h, c, m, seen, e);
    var m1 := ContinueReady(env, h, c, m, seen, e, b1);
    var m2 := ReplayReady(env, h, e.live, b2);
    var hit := ApplyAndResume(e, h[seen..], b1);
    var replayed := Run(NewRunner(env.workflowId, env.body, e.live, Scan(h)), b2);
    if !hit.deadlocked && !replayed.deadlocked {
      ReachesUnique(env, h, m1, m2);
      SameAnswer(env, h, hit, replayed, m1, |Recorded(h)|);
    }
  }

  /** The response to a replayed task. */
  lemma FullResponse(settings: Settings, cache: Cache, task: Task, chance: Chance)
    requires task.workflowType in settings.workflows && task.IsFullHistory() && !task.isQuery
    ensures var r := Replayed(settings.workflows[task.workflowType], task, task.events, chance);
            var response := HandleTask(settings, cache, task, chance).1;
            if r.deadlocked then response == TaskFailed(Deadlock)
            else Deterministic(r) ==> response == Response.Completed(r.commands, task.updates, ClosingOf(r))
  {
    hide Replayed, Deterministic, RunUpdateHandlers, L.Store, L.Remove, Refresh;
  }

  /** The response to a continuation that finds its runner. */
  lemma StickyResponse(settings: Settings, cache: Cache, task: Task, chance: Chance, e: RunnerState)
    requires task.workflowType in settings.workflows && !task.IsFullHistory() && !task.isQuery && task.events != []
    requires L.Lookup(cache, task.runId) == Some(e) && task.events[0].id == e.scan.lastEventId + 1
    ensures var r := ApplyAndResume(e, task.events, chance.budget);
            HandleTask(settings, cache, task, chance).1 ==
              if r.deadlocked then TaskFailed(Deadlock) else Response.Completed(r.commands, task.updates, ClosingOf(r))
  {
    hide ApplyAndResume, RunUpdateHandlers, L.Touch, L.Remove, Refresh;
  }

  /** In every reachable cluster, the trusted worker answers a continuation with exactly the response
      any other worker gives after a full replay, whatever either has in its cache. */
  lemma CachingIsTransparent(settings: Settings, states: seq<Cluster>, actions: seq<Action>, n: nat,
                             runId: string, worker: nat, updates: seq<Update>, other: Cache, b1: nat, b2: nat)
    requires Execution(settings, states, actions) && n < |states|
    requires runId in states[n].runs && !Closed(states[n].runs[runId].history) && SentTo(states[n].runs[runId], worker)
    requires EntryOf(states[n], runId, worker).Some?
    ensures var run, e := states[n].runs[runId], EntryOf(states[n], runId, worker).value;
            var sticky := HandleTask(settings, CacheOf(states[n], worker), TaskOf(run, runId, false, updates), Chance(e.live, b1)).1;
            var full := HandleTask(settings, other, TaskOf(run, runId, true, updates), Chance(e.live, b2)).1;
            sticky == TaskFailed(Deadlock) || full == TaskFailed(Deadlock) || (sticky.Completed? && sticky == full)
  {
    AlwaysSafe(settings, states, actions, n);
    hide Execution, Invariant, HandleTask, EntrySound, Closed, RunSound;
    InvariantAt(settings, states[n], runId, worker);
    TransparentTask(settings, states[n].runs[runId], runId, CacheOf(states[n], worker), EntryOf(states[n], runId, worker).value,
                    updates, other, b1, b2);
  }

  lemma TransparentTask(settings: Settings, run: RunRecord, runId: string, cache: Cache, e: RunnerState,
                        updates: seq<Update>, other: Cache, b1: nat, b2: nat)
    requires RunSound(settings, run, Some(e)) && EntrySound(settings, run, e) && L.Lookup(cache, runId) == Some(e)
    requires run.sticky.Some? && !Closed(run.history)
    ensures var sticky := HandleTask(settings, cache, TaskOf(run, runId, false, updates), Chance(e.live, b1)).1;
            var full := HandleTask(settings, other, TaskOf(run, runId, true, updates), Chance(e.live, b2)).1;
            sticky == TaskFailed(Deadlock) || full == TaskFailed(Deadlock) || (sticky.Completed? && sticky == full)
  {
    hide RunSound, Serves, Lawful, Closed, Holds, Position, Run, NewRunner, ApplyAndResume, Deterministic, ClosingOf,
         Next, HandleTask;
    var h := Next(run.history, OtherEvent);
    var env, at, m := TrustedStanding(settings, run, e);
    var from := run.sticky.value.from;
    HoldsFacts(env, run.history, from, e, m);
    StartedFacts(env, run);
    PositionBound(env, run.history, at, m);
    StartedId(env, run, from);
    PositionNext(env, run.history, OtherEvent, at, m);
    NextFacts(run.history, OtherEvent);
    assert run.history <= h;
    HoldsOn(env, run.history, h, from, e, m);
    TransparentRunners(env, h, at, m, from, e, b1, b2);
    ServesBody(settings, run, env);
    FullResponse(settings, other, TaskOf(run, runId, true, updates), Chance(e.live, b2));
    StickyResponse(settings, cache, TaskOf(run, runId, false, updates), Chance(e.live, b1), e);
  }

  lemma ServesBody(settings: Settings, run: RunRecord, env: Env)
    requires Serves(settings, run, env)
    ensures env.workflowId == run.workflowId
    ensures run.workflowType in settings.workflows ==> env.body == settings.workflows[run.workflowType]
  {
  }

  // ---- Updates are replayed as they ran ----------------------------------------------------------

  lemma {:induction false} KnowCommands(h: History, commands: seq<Command>)
    ensures Know(WithCommands(h, commands)) == Know(h)
  {
    if commands != [] {
      var n := |commands| - 1;
      KnowCommands(h, commands[..n]);
      NextFacts(WithCommands(h, commands[..n]), CommandRecorded(RecordingOf(commands[n])));
    }
  }

  lemma {:induction false} KnowUpdates(h: History, updates: seq<Update>)
    ensures Know(WithUpdates(h, updates)) == Know(h)
  {
    if updates != [] {
      var n := |updates| - 1;
      KnowUpdates(h, updates[..n]);
      NextFacts(WithUpdates(h, updates[..n]), UpdateAccepted(updates[n].name, updates[n].args));
    }
  }

  /** The record of an answer resolves nothing and brings no signal. */
  lemma KnowAccepted(h: History, commands: seq<Command>, updates: seq<Update>, closing: Option<Closing>)
    ensures Know(Accepted(h, Response.Completed(commands, updates, closing))) == Know(h)
  {
    hide Know, WithCommands, WithUpdates;
    NextFacts(h, OtherEvent);
    KnowCommands(Next(h, OtherEvent), commands);
    var h2 := WithCommands(Next(h, OtherEvent), commands);
    KnowUpdates(h2, updates);
    if closing.Some? {
      NextFacts(WithUpdates(h2, updates), CommandRecorded(WorkflowClosed(closing.value)));
    }
  }

  /** A task that took its events in at once, answered and then ran its update handlers leaves the very
      state that a replay of the resulting history rebuilds, event by event and update by update. */
  lemma LiveUpdatesReplayed(env: Env, h: History, r: RunnerState, m: Machine, updates: seq<Update>, live: World, budget: nat)
    requires AtRest(env, h, r, m)
    requires var h' := Accepted(h, Response.Completed(r.commands, updates, ClosingOf(r)));
             SameWorld(env.world, RecordsOf(h'), live)
    ensures var h' := Accepted(h, Response.Completed(r.commands, updates, ClosingOf(r)));
            var replayed := Run(NewRunner(env.workflowId, env.body, live, Scan(h')), budget);
            replayed.deadlocked ||
            (SameState(RunUpdateHandlers(r, updates), replayed) && replayed.produced == Identities(m.trace))
  {
    hide Lawful, Reaches, Writes, Recorded, RecordsOf, Run, NewRunner, SameWorld, Resident, Accepted, RunUpdates,
         RunUpdateHandlers, Simulates, Know;
    var h' := Accepted(h, Response.Completed(r.commands, updates, ClosingOf(r)));
    var m' := RunUpdates(m, updates);
    AnswerRecorded(env, h, m, |Recorded(h)|, r.commands, updates, ClosingOf(r));
    WrittenUpdates(env, h, m, |Recorded(h)|, updates);
    KnowAccepted(h, r.commands, updates, ClosingOf(r));
    HoldsUpdated(env, h, |h|, r, m, updates);
    var past, start := HoldsSimulates(env, h, RunUpdateHandlers(r, updates), m');
    var replayed, end := FullReplay(env, h', live, budget);
    if !replayed.deadlocked {
      ReachesUnique(env, h', end, m');
      SimulatesSame(env, Know(h), past, start, RunUpdateHandlers(r, updates), RecordedBy(m', h'), 0, replayed, m');
      ProducedAll(env, Know(h), RecordedBy(m', h'), replayed, m');
    }
  }

  lemma HoldsSimulates(env: Env, h: History, e: RunnerState, m: Machine) returns (past: seq<Command>, start: nat)
    requires Holds(env, h, |h|, e, m)
    ensures Simulates(env, Know(h), past, start, e, m)
  {
    hide Simulates, Know, Indexes;
    past, start :| Resident(env, h, |h|, past, start, e, m);
    assert h[..|h|] == h;
  }

  // ---- A query that sees an older state ----------------------------------------------------------

  /** A body that receives signals for ever. */
  function ReceivingBody(log: seq<Input>): Op {
    Receive("signal")
  }

  function ReceivingEnv(): Env {
    Env("wf", ReceivingBody, World((i: nat) => "", (i: nat) => QUIET))
  }

  function SignalledHistory(): History {
    Next(Next([], OtherEvent), Signaled("signal", ["payload"]))
  }

  lemma SignalledIsLawful()
    ensures Lawful(ReceivingEnv(), Next([], OtherEvent)) && Lawful(ReceivingEnv(), SignalledHistory())
  {
    hide Lawful;
    var env := ReceivingEnv();
    NothingIsLawful(env);
    LawfulArrival(env, [], OtherEvent);
    LawfulArrival(env, Next([], OtherEvent), Signaled("signal", ["payload"]));
  }

  lemma NothingIsLawful(env: Env)
    ensures Lawful(env, [])
  {
  }

  /** What the two histories say and record, and that the body waits under the one and goes on under
      the other. */
  lemma SignalledKnowledge()
    ensures Know(Next([], OtherEvent)) == NOTHING
    ensures Know(SignalledHistory()) == Knowledge(map[], map["signal" := [["payload"]]])
    ensures RecordsOf(Next([], OtherEvent)) == Records([], 0, 0, [], [])
    ensures RecordsOf(SignalledHistory()) == Records([], 0, 0, [], [])
    ensures !SawUpdate(Next([], OtherEvent)) && !SawUpdate(SignalledHistory())
  {
    NextFacts([], OtherEvent);
    NextFacts(Next([], OtherEvent), Signaled("signal", ["payload"]));
    assert Pending(NOTHING, "signal") + [["payload"]] == [["payload"]];
  }

  /** Where the body stands once it has received the signal. */
  function Signalled(): Machine {
    Init(ReceivingEnv()).(log := [Received(["payload"])], cursors := map["signal" := 1])
  }

  lemma OneSignal(budget: nat)
    requires budget > 0
    ensures var env, k := ReceivingEnv(), Knowledge(map[], map["signal" := [["payload"]]]);
            Settled(NOTHING, Init(env)) && !Settled(k, Init(env)) && Fits(env, k, Init(env), budget) &&
            Settles(env, k, Init(env), Signalled())
  {
    var env, k := ReceivingEnv(), Knowledge(map[], map["signal" := [["payload"]]]);
    assert Step(env, k, Init(env)) == Signalled();
    assert Settled(k, Signalled());
    assert Iterate(env, k, Signalled(), budget - 1) == Signalled() && Iterate(env, k, Signalled(), 0) == Signalled();
    assert Iterate(env, k, Init(env), 1) == Signalled();
  }

  lemma ResidentAtRest(env: Env, h: History, budget: nat) returns (r: RunnerState)
    requires Lawful(env, h) && !SawUpdate(h) && Settled(Know(h), Init(env)) && SameWorld(env.world, RecordsOf(h), env.world)
    ensures r == Run(NewRunner(env.workflowId, env.body, env.world, Scan(h)), budget)
    ensures Reaches(env, h, Init(env)) && Holds(env, h, |h|, r, Init(env))
  {
    hide Lawful, Reaches, Settled, Fits, Run, NewRunner, Resident, SameWorld, Know;
    LawfulParts(env, h);
    NoUpdatesYet(h);
    var m: Machine;
    r, m := FullReplay(env, h, env.world, budget);
    AtRestFits(env, Know(h), Init(env), budget);
    assert Iterate(env, Know(h), Init(env), 0) == Init(env);
    ReachesFromStart(env, h, Init(env));
    ReachesUnique(env, h, Init(env), m);
    RebuiltIsResident(env, h, r, m);
    assert Resident(env, h, |h|, RecordedBy(m, h), 0, r, m);
  }

  function ReceivingSettings(): Settings {
    Settings(map["type" := ReceivingBody], 0, false)
  }

  /** The failing side of query agreement, in a lawful history: a query to a worker whose runner has not
      been given a signal yet is shown the body before the signal, while any worker without a runner
      shows it after. */
  lemma StaleQuery(budget: nat)
    requires budget > 0
    ensures var env, h := ReceivingEnv(), SignalledHistory();
            var cached := Run(NewRunner(env.workflowId, env.body, env.world, Scan(h[..1])), budget);
            var query := QueryOf(RunRecord("wf", "type", h, None), "run", false);
            Lawful(env, h) && Holds(env, h, 1, cached, Init(env)) &&
            HandleTask(ReceivingSettings(), [L.Entry("run", cached)], query, Chance(env.world, budget)).1 ==
              Answered([], Running(Receive("signal"))) &&
            HandleTask(ReceivingSettings(), [], query, Chance(env.world, budget)).1 ==
              Answered([Received(["payload"])], Running(Receive("signal")))
  {
    hide Lawful, Reaches, Settled, Fits, Run, NewRunner, RecordsOf, Know, Resident, HandleTask, Settles, Holds;
    var env, h, h1 := ReceivingEnv(), SignalledHistory(), Next([], OtherEvent);
    NextFacts(h1, Signaled("signal", ["payload"]));
    SignalledIsLawful();
    SignalledKnowledge();
    OneSignal(budget);
    var cached := ResidentAtRest(env, h1, budget);
    HoldsOn(env, h1, h, 1, cached, Init(env));
    var query := QueryOf(RunRecord("wf", "type", h, None), "run", false);
    var cache: Cache := [L.Entry("run", cached)];
    assert L.Lookup(cache, "run") == Some(cached);
    CachedQueryAnswered(ReceivingSettings(), cache, query, Chance(env.world, budget), cached, env, h, 1, Init(env));
    NoUpdatesYet(h);
    LawfulParts(env, h);
    var m := RebuiltQueryAnswered(ReceivingSettings(), [], query, Chance(env.world, budget), env);
    ReachesFromStart(env, h, Signalled());
    assert BurstsFit(env, h, |h|, budget);
    ReachesUnique(env, h, m, Signalled());
  }

  /** In every reachable cluster: a query to the worker of a cached runner is answered with the state of
      the body that stands after exactly the events the runner has taken in, and fails never. */
  lemma QueryAnswered(settings: Settings, states: seq<Cluster>, actions: seq<Action>, n: nat, worker: nat, runId: string,
                      chance: Chance) returns (env: Env, m: Machine)
    requires Execution(settings, states, actions) && n < |states| && EntryOf(states[n], runId, worker).Some?
    ensures runId in states[n].runs
    ensures var run, e := states[n].runs[runId], EntryOf(states[n], runId, worker).value;
            0 < e.scan.lastEventId && Serves(settings, run, env) && Holds(env, run.history, e.scan.lastEventId, e, m) &&
            HandleTask(settings, CacheOf(states[n], worker), QueryOf(run, runId, false), chance).1 == Answered(m.log, m.phase)
  {
    hide Serves, Holds, RunSound, HandleTask, Execution;
    AlwaysSafe(settings, states, actions, n);
    InvariantAt(settings, states[n], runId, worker);
    env, m := CachedRunnersSound(settings, states, actions, n, worker, runId);
    var e, run := EntryOf(states[n], runId, worker).value, states[n].runs[runId];
    HoldsLog(env, run.history, e.scan.lastEventId, e, m);
    CachedQueryAnswered(settings, CacheOf(states[n], worker), QueryOf(run, runId, false), chance, e, env, run.history,
                        e.scan.lastEventId, m);
  }

  /** ... and a query to any other worker, or with the whole history, with the state after that history,
      unless the rebuild overruns or the body has ended. */
  lemma RebuiltQueryAnsweredHere(settings: Settings, states: seq<Cluster>, actions: seq<Action>, n: nat, worker: nat,
                                 runId: string, full: bool, chance: Chance) returns (env: Env, m: Machine)
    requires Execution(settings, states, actions) && n < |states| && runId in states[n].runs
    requires states[n].runs[runId].history != [] && states[n].runs[runId].workflowType in settings.workflows
    requires full || EntryOf(states[n], runId, worker).None?
    ensures var run := states[n].runs[runId];
            var response := HandleTask(settings, CacheOf(states[n], worker), QueryOf(run, runId, full), chance).1;
            Serves(settings, run, env) && Lawful(env, run.history) &&
            if BurstsFit(env, run.history, |run.history|, chance.budget) then Reaches(env, run.history, m) && Shows(response, m)
            else response == QueryFailed
  {
    hide Holds, RunSound, HandleTask, Execution, Lawful, SameWorld, RecordsOf, Reaches, BurstsFit;
    AlwaysSafe(settings, states, actions, n);
    InvariantAt(settings, states[n], runId, worker);
    var run := states[n].runs[runId];
    env := QueryWorld(settings, run, Trusted(states[n], runId), chance.live);
    FirstId(env, run.history);
    m := RebuiltQueryAnswered(settings, CacheOf(states[n], worker), QueryOf(run, runId, full), chance, env);
  }

  lemma QueryWorld(settings: Settings, run: RunRecord, trusted: Option<RunnerState>, live: World) returns (env: Env)
    requires RunSound(settings, run, trusted)
    ensures Serves(settings, run, env) && Lawful(env, run.history) && SameWorld(env.world, RecordsOf(run.history), live)
  {
    hide Lawful, Stands, Serves, RecordsOf;
    var env0 :| RunSoundIn(settings, run, trusted, env0);
    env := ReplayWorld(settings, run, trusted, env0, live);
    OnwardIsSame(RecordsOf(run.history), live);
  }
}
