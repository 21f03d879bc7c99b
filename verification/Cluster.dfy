/** Any number of workers with sticky caches serving the runs of one server. The server is a source of
    arbitrary steps: it appends signals and plausible resolutions, starts tasks on any worker, accepts
    or loses the answers. Events that arrive while a task is out enter the history after its answer,
    as the server buffers them until then. */
module Cluster {
  import opened Basics
  import opened Workflow
  import opened Machine
  import opened HistoryScan
  import opened Engine
  import opened Continuation
  import opened Progress
  import opened TaskHandling
  import L = Lru

  /** The worker the server sends continuations to, and how many events it believes that worker has. */
  datatype Sticky = Sticky(worker: nat, from: nat)

  datatype RunRecord = RunRecord(workflowId: string, workflowType: string, history: History, sticky: Option<Sticky>)

  datatype Cluster = Cluster(runs: map<string, RunRecord>, caches: map<nat, Cache>)

  function CacheOf(c: Cluster, worker: nat): Cache {
    GetOr(c.caches, worker, [])
  }

  function Next(h: History, a: Attributes): History {
    h + [Event(|h| + 1, a)]
  }

  predicate Closed(h: History) {
    Recorded(h) != [] && Recorded(h)[|Recorded(h)| - 1].WorkflowClosed?
  }

  ghost predicate Initial(c: Cluster) {
    c.caches == map[] && forall id :: id in c.runs ==> c.runs[id].history == [] && c.runs[id].sticky.None?
  }

  // ---- The server's answers --------------------------------------------------------------------

  function WithCommands(h: History, commands: seq<Command>): History {
    if commands == [] then h
    else Next(WithCommands(h, commands[..|commands| - 1]), CommandRecorded(RecordingOf(commands[|commands| - 1])))
  }

  function WithUpdates(h: History, updates: seq<Update>): History {
    if updates == [] then h
    else
      var last := updates[|updates| - 1];
      Next(WithUpdates(h, updates[..|updates| - 1]), UpdateAccepted(last.name, last.args))
  }

  function WithClosing(h: History, closing: Option<Closing>): History {
    match closing
    case None => h
    case Some(how) => Next(h, CommandRecorded(WorkflowClosed(how)))
  }

  /** The history after a task that the worker answered with `response`, if the answer arrives. */
  function Accepted(h: History, response: Response): History {
    match response
    case Completed(commands, updates, closing) =>
      WithClosing(WithUpdates(WithCommands(Next(h, OtherEvent), commands), updates), closing)
    case WorkflowFailed => Next(Next(h, OtherEvent), CommandRecorded(WorkflowClosed(Fail("NonDeterministicError", ""))))
    case _ => Next(h, OtherEvent)
  }

  // ---- Steps -----------------------------------------------------------------------------------

  /** What happens outside of workflow tasks. */
  predicate External(a: Attributes) {
    a.Signaled? || a.FutureResolved? || a.OtherEvent?
  }

  datatype Action =
    | Arrive(runId: string, attributes: Attributes)
    | DoTask(runId: string, worker: nat, full: bool, updates: seq<Update>, chance: Chance, arrives: bool)
    | DoQuery(runId: string, worker: nat, full: bool, chance: Chance)
    | Restart(worker: nat)

  ghost predicate Enabled(c: Cluster, action: Action) {
    match action
    case Arrive(runId, a) =>
      runId in c.runs && !Closed(c.runs[runId].history) && External(a) &&
      var h := Next(c.runs[runId].history, a);
      PlausibleAt(h, |h| - 1)
    case DoTask(runId, worker, full, _, _, _) =>
      runId in c.runs && !Closed(c.runs[runId].history) && (full || SentTo(c.runs[runId], worker))
    case DoQuery(runId, worker, full, _) =>
      runId in c.runs && c.runs[runId].history != [] && (full || SentTo(c.runs[runId], worker))
    case Restart(_) => true
  }

  predicate SentTo(run: RunRecord, worker: nat) {
    run.sticky.Some? && run.sticky.value.worker == worker
  }

  /** The task the server builds: a started event is added, and a sticky worker is sent what is new. */
  function TaskOf(run: RunRecord, runId: string, full: bool, updates: seq<Update>): Task
    requires full || run.sticky.Some?
  {
    var h := Next(run.history, OtherEvent);
    Task(runId, run.workflowId, run.workflowType,
         if full || run.sticky.value.from > |h| then h else h[run.sticky.value.from..], h, updates, false)
  }

  function QueryOf(run: RunRecord, runId: string, full: bool): Task {
    Task(runId, run.workflowId, run.workflowType, if full then run.history else [], run.history, [], true)
  }

  /** The server's record after the task. */
  function RecordAfter(run: RunRecord, worker: nat, response: Response, arrives: bool): RunRecord {
    var h := Next(run.history, OtherEvent);
    if arrives && (response.Completed? || response.WorkflowFailed?) then
      run.(history := Accepted(h, response), sticky := Some(Sticky(worker, |h|)))
    else run.(history := Next(h, OtherEvent), sticky := None)
  }

  ghost function Do(settings: Settings, c: Cluster, action: Action): Cluster
    requires Enabled(c, action)
  {
    match action
    case Arrive(runId, a) =>
      c.(runs := c.runs[runId := c.runs[runId].(history := Next(c.runs[runId].history, a))])
    case DoTask(runId, worker, full, updates, chance, arrives) =>
      var run := c.runs[runId];
      var (cache, response) := HandleTask(settings, CacheOf(c, worker), TaskOf(run, runId, full, updates), chance);
      Cluster(c.runs[runId := RecordAfter(run, worker, response, arrives)], c.caches[worker := cache])
    case DoQuery(runId, worker, full, chance) =>
      var (cache, response) := HandleTask(settings, CacheOf(c, worker), QueryOf(c.runs[runId], runId, full), chance);
      c.(caches := c.caches[worker := cache])
    case Restart(worker) => c.(caches := c.caches[worker := []])
  }

  ghost predicate DoneBy(settings: Settings, before: Cluster, action: Action, after: Cluster) {
    Enabled(before, action) && after == Do(settings, before, action)
  }

  /** A run of the cluster: `states[i]` is taken to `states[i + 1]` by `actions[i]`. */
  ghost predicate Execution(settings: Settings, states: seq<Cluster>, actions: seq<Action>) {
    |states| == |actions| + 1 && Initial(states[0]) &&
    forall i :: 0 <= i < |actions| ==> DoneBy(settings, states[i], actions[i], states[i + 1])
  }

  /** The server is free: any worker may restart at any moment and loses its cache only, and an open run may
      get any signal, a task on any worker and, once started, a query to any worker. */
  lemma ServerIsFree(settings: Settings, c: Cluster, runId: string, worker: nat, name: string, payloads: Payloads,
                     updates: seq<Update>, chance: Chance, arrives: bool)
    ensures Enabled(c, Restart(worker))
    ensures var c' := Do(settings, c, Restart(worker));
            c'.runs == c.runs && CacheOf(c', worker) == [] && forall w :: w != worker ==> CacheOf(c', w) == CacheOf(c, w)
    ensures runId in c.runs && !Closed(c.runs[runId].history) ==>
              Enabled(c, Arrive(runId, Signaled(name, payloads))) && Enabled(c, DoTask(runId, worker, true, updates, chance, arrives))
    ensures runId in c.runs && c.runs[runId].history != [] ==> Enabled(c, DoQuery(runId, worker, true, chance))
  {
    hide HandleTask, Closed, RecordAfter;
  }
}
