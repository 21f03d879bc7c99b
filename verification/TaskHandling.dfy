/** How a worker handles one workflow task against its sticky cache
    (src/internal/workflow_task_handler.cpp, WorkflowTaskHandler::Handle), as a function on values. */
module TaskHandling {
  import opened Basics
  import opened Workflow
  import opened Machine
  import opened HistoryScan
  import opened Engine
  import opened Continuation
  import opened Guarantees
  import L = Lru
  import D = Determinism

  type Cache = seq<L.Entry<string, RunnerState>>

  /** A worker's fixed settings. Capacity 0 is an unbounded cache; `failOnPanic` is the FailWorkflow
      panic policy. */
  datatype Settings = Settings(workflows: map<string, Body>, capacity: nat, failOnPanic: bool)

  /** A task as delivered. `events` is the whole history, or what follows the checkpoint of the
      sticky worker, or nothing for a sticky query; `whole` is what the history RPC returns. `updates`
      are the delivered updates that their validators let pass. */
  datatype Task = Task(runId: string, workflowId: string, workflowType: string, events: History, whole: History,
                       updates: seq<Update>, isQuery: bool)
  {
    /** The first event is WorkflowExecutionStarted, which always has id 1. */
    predicate IsFullHistory() {
      events != [] && events[0].id == 1
    }
  }

  /** What the environment contributes while the task runs: values of side effects and local
      activities run now, and the deadlock timeout as a number of operations. */
  datatype Chance = Chance(live: World, budget: nat)

  datatype Cause = NotRegistered | Deadlock | ResetStickyTaskQueue | NonDeterministicError

  datatype Response =
    | Completed(commands: seq<Command>, updates: seq<Update>, closing: Option<Closing>)
    | TaskFailed(cause: Cause)
    | WorkflowFailed
    | Answered(log: seq<Input>, phase: Phase)
    | QueryFailed

  function ClosingOf(r: RunnerState): Option<Closing> {
    if r.phase.Finished? then Some(r.phase.how) else None
  }

  /** The runner at the front of the cache is brought up to date in place. */
  function Refresh(cache: Cache, runId: string, r: RunnerState): Cache {
    [L.Entry(runId, r)] + L.Remove(cache, runId)
  }

  /** The task is answered: commands first, then the update handlers run, and a runner that has ended
      leaves the cache. */
  function AnswerTask(cache: Cache, runId: string, r: RunnerState, updates: seq<Update>): (Cache, Response) {
    var r1 := RunUpdateHandlers(r, updates);
    (if r1.phase.Finished? then L.Remove(cache, runId) else Refresh(cache, runId, r1),
     Response.Completed(r.commands, updates, ClosingOf(r)))
  }

  function AnswerQuery(r: RunnerState): Response {
    if r.deadlocked || r.phase.Finished? then QueryFailed else Answered(r.log, r.phase)
  }

  /** The cached runner a task can go on with, if any. */
  function Hit(cache: Cache, task: Task): Option<RunnerState> {
    if task.IsFullHistory() then None
    else
      match L.Lookup(cache, task.runId)
      case None => None
      case Some(r) =>
        if task.isQuery || (task.events != [] && task.events[0].id == r.scan.lastEventId + 1) then Some(r) else None
  }

  function Replayed(body: Body, task: Task, history: History, chance: Chance): RunnerState {
    Run(NewRunner(task.workflowId, body, chance.live, Scan(history)), chance.budget)
  }

  /** A sticky continuation or query. */
  function HandleHit(cache: Cache, task: Task, r: RunnerState, chance: Chance): (Cache, Response) {
    if task.isQuery then (cache, AnswerQuery(r))
    else
      var r1 := ApplyAndResume(r, task.events, chance.budget);
      if r1.deadlocked then (L.Remove(cache, task.runId), TaskFailed(Deadlock))
      else AnswerTask(Refresh(cache, task.runId, r1), task.runId, r1, task.updates)
  }

  /** A full replay. */
  ghost function HandleReplay(settings: Settings, body: Body, cache: Cache, task: Task, chance: Chance): (Cache, Response) {
    AnswerReplay(settings, cache, task, Replayed(body, task, task.events, chance))
  }

  /** A replayed runner is cached and answers, unless it diverged or overran its timeout. */
  ghost function AnswerReplay(settings: Settings, cache: Cache, task: Task, r: RunnerState): (Cache, Response) {
    if r.deadlocked then (L.Remove(cache, task.runId), TaskFailed(Deadlock))
    else if !Deterministic(r) then
      (cache, if settings.failOnPanic then WorkflowFailed else TaskFailed(NonDeterministicError))
    else AnswerTask(L.Store(cache, task.runId, r, settings.capacity), task.runId, r, task.updates)
  }

  ghost function HandleTask(settings: Settings, cache: Cache, task: Task, chance: Chance): (Cache, Response) {
    if task.workflowType !in settings.workflows then (cache, TaskFailed(NotRegistered))
    else
      var body := settings.workflows[task.workflowType];
      var cache1 := if task.IsFullHistory() then cache else L.Touch(cache, task.runId);
      match Hit(cache, task)
      case Some(r) => HandleHit(cache1, task, r, chance)
      case None =>
        if task.isQuery then (cache1, AnswerQuery(Replayed(body, task, task.whole, chance)))
        else if !task.IsFullHistory() then (cache1, TaskFailed(ResetStickyTaskQueue))
        else HandleReplay(settings, body, cache1, task, chance)
  }
}
