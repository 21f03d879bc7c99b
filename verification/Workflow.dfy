/** The vocabulary the replay engine works on: what a workflow body may ask for, the commands a
    task answers with, and the history events the server appends. Payloads are opaque. */
module Workflow {
  import opened Basics
  import D = Determinism

  type Payload = string
  type Payloads = seq<Payload>

  /** The four operations whose result arrives later, through a future. */
  datatype FutureKind = Activity | Timer | Child | Nexus

  /** A future as the body holds it: the operation kind and the id its call was given. */
  datatype Handle = Handle(kind: FutureKind, id: string)

  /** What a resolved future carries (the result fields of `FutureState`). */
  datatype Outcome = Outcome(failed: bool, result: Payloads, failureType: string, failureMessage: string)

  const QUIET := Outcome(false, [], "", "")

  // ---- The body ------------------------------------------------------------------------------

  datatype Call =
    | ActivityCall(activityType: string, input: Payloads)
    | TimerCall(duration: int)
    | ChildCall(workflowType: string, input: Payloads)
    | NexusCall(endpoint: string, service: string, operation: string, payload: Payload)

  /** One operation of a blocking-only workflow body. */
  datatype Op =
    | Schedule(call: Call)
    | Cancel(timer: string)
    | Signal(workflowId: string, signalName: string, input: Payloads)
    | Upsert(attributes: map<string, Payload>)
    | SideEffect
    | LocalActivity(activityType: string, input: Payloads)
    | SetUpdateHandler(name: string)
    | Get(future: Handle)
    | Receive(name: string)
    | Close(how: Closing)

  /** The three ways a body ends: it returns, throws, or asks for a fresh run. */
  datatype Closing =
    | Complete(result: Payloads)
    | Fail(failureType: string, failureMessage: string)
    | ContinueAsNew(workflowType: string, input: Payloads)

  /** Everything a body is ever told: the answer to each operation, and each update handler run. */
  datatype Input =
    | Started(future: Handle)
    | Acknowledged
    | Value(data: Payload)
    | Resolved(outcome: Outcome)
    | Received(payloads: Payloads)
    | Updated(name: string, args: Payloads)

  /** A deterministic body: its next operation is a function of everything it has been told. The
      list of inputs is therefore the whole state of the suspended coroutine. */
  type Body = seq<Input> -> Op

  /** What non-deterministic code would produce: the value of the n-th side effect and the outcome
      of the n-th local activity (after its inline retries). */
  datatype World = World(side: nat -> Payload, local: nat -> Outcome)

  datatype Env = Env(workflowId: string, body: Body, world: World)

  // ---- Ids -----------------------------------------------------------------------------------

  function KindOf(call: Call): FutureKind {
    match call
    case ActivityCall(_, _) => Activity
    case TimerCall(_) => Timer
    case ChildCall(_, _) => Child
    case NexusCall(_, _, _, _) => Nexus
  }

  function IdOf(workflowId: string, kind: FutureKind, n: nat): string {
    match kind
    case Activity => Decimal(n)
    case Timer => "t" + Decimal(n)
    case Child => workflowId + "_c" + Decimal(n)
    case Nexus => Decimal(n)
  }

  function HandleOf(workflowId: string, kind: FutureKind, n: nat): Handle {
    Handle(kind, IdOf(workflowId, kind, n))
  }

  /** Ids handed out in call order never collide within a kind. */
  lemma IdsDistinct(workflowId: string, kind: FutureKind, a: nat, b: nat)
    requires IdOf(workflowId, kind, a) == IdOf(workflowId, kind, b)
    ensures a == b
  {
    var prefix := match kind case Activity => "" case Timer => "t" case Child => workflowId + "_c" case Nexus => "";
    assert IdOf(workflowId, kind, a)[|prefix|..] == Decimal(a);
    assert IdOf(workflowId, kind, b)[|prefix|..] == Decimal(b);
    DecimalInjective(a, b);
  }

  // ---- Commands ------------------------------------------------------------------------------

  datatype Marker = SideEffectMarker(data: Payload) | LocalActivityMarker(outcome: Outcome)

  datatype Command =
    | Begin(id: string, call: Call)   // schedule activity, start timer, start child, schedule Nexus operation
    | CancelTimer(id: string)
    | SignalExternalWorkflow(workflowId: string, signalName: string, input: Payloads)
    | UpsertSearchAttributes(attributes: map<string, Payload>)
    | RecordMarker(marker: Marker)
    | CloseWorkflow(how: Closing)
  {
    /** The future this command's operation resolves. */
    function Future(): Handle
      requires Begin?
    {
      Handle(KindOf(call), id)
    }

    predicate IsSideEffect() {
      RecordMarker? && marker.SideEffectMarker?
    }

    predicate IsLocalActivity() {
      RecordMarker? && marker.LocalActivityMarker?
    }
  }

  function MarkerName(marker: Marker): string {
    match marker
    case SideEffectMarker(_) => "SideEffect"
    case LocalActivityMarker(_) => "LocalActivity"
  }

  function CallIdentity(id: string, call: Call): D.CommandEvent {
    match call
    case ActivityCall(activityType, _) => D.CommandEvent(D.Activity, id, activityType)
    case TimerCall(_) => D.CommandEvent(D.Timer, id, "")
    case ChildCall(workflowType, _) => D.CommandEvent(D.ChildWorkflow, id, workflowType)
    case NexusCall(_, _, _, _) => D.CommandEvent(D.NexusOperation, id, "")
  }

  function ClosingIdentity(how: Closing): D.CommandEvent {
    match how
    case Complete(_) => D.CommandEvent(D.CompleteWorkflow, "", "")
    case Fail(_, _) => D.CommandEvent(D.FailWorkflow, "", "")
    case ContinueAsNew(_, _) => D.CommandEvent(D.ContinueAsNew, "", "")
  }

  /** The fields of a command that take part in replay matching. */
  function Identity(c: Command): D.CommandEvent {
    match c
    case Begin(id, call) => CallIdentity(id, call)
    case CancelTimer(id) => D.CommandEvent(D.CancelTimer, id, "")
    case SignalExternalWorkflow(workflowId, _, _) => D.CommandEvent(D.SignalExternalWorkflow, workflowId, "")
    case UpsertSearchAttributes(_) => D.CommandEvent(D.UpsertSearchAttributes, "", "")
    case RecordMarker(marker) => D.CommandEvent(D.Marker, MarkerName(marker), "")
    case CloseWorkflow(how) => ClosingIdentity(how)
  }

  function Identities(commands: seq<Command>): (r: seq<D.CommandEvent>)
    ensures |r| == |commands|
  {
    seq(|commands|, i requires 0 <= i < |commands| => Identity(commands[i]))
  }

  // ---- History -------------------------------------------------------------------------------

  /** How an activity or Nexus operation ended. */
  datatype Resolution =
    | Completed(result: Payloads)
    | Failed(failureType: string, failureMessage: string)
    | TimedOut
    | Canceled

  /** How a child workflow ended, or that it could not be started. */
  datatype ChildEnding =
    | ChildCompleted(result: Payloads)
    | ChildFailed(failureType: string, failureMessage: string)
    | ChildCanceled
    | ChildTimedOut
    | ChildTerminated
    | ChildStartFailed

  /** Events that record a command of the workflow. */
  datatype Recording =
    | ActivityScheduled(id: string, activityType: string)
    | TimerStarted(id: string)
    | ChildInitiated(id: string, workflowType: string)
    | NexusScheduled(endpoint: string, service: string, operation: string)   // carries no id of ours
    | TimerCanceled(id: string)
    | ExternalSignalInitiated(workflowId: string)
    | AttributesUpserted
    | MarkerRecorded(marker: Marker)
    | WorkflowClosed(how: Closing)

  /** Events that resolve a future. */
  datatype Resolving =
    | ActivityResolved(scheduledId: int, resolution: Resolution)
    | TimerFired(id: string)
    | ChildResolved(id: string, ending: ChildEnding)
    | NexusResolved(scheduledId: int, resolution: Resolution)

  datatype Attributes =
    | CommandRecorded(record: Recording)
    | FutureResolved(how: Resolving)
    | Signaled(name: string, payloads: Payloads)
    | UpdateAccepted(name: string, args: Payloads)
    | OtherEvent   // workflow started, task bookkeeping, activity started, update completed, ...

  datatype Event = Event(id: int, attributes: Attributes)

  type History = seq<Event>

  /** Event ids count from 1 without gaps. */
  ghost predicate Numbered(h: History) {
    forall i :: 0 <= i < |h| ==> h[i].id == i + 1
  }

  function CallRecording(id: string, call: Call): Recording {
    match call
    case ActivityCall(activityType, _) => ActivityScheduled(id, activityType)
    case TimerCall(_) => TimerStarted(id)
    case ChildCall(workflowType, _) => ChildInitiated(id, workflowType)
    case NexusCall(endpoint, service, operation, _) => NexusScheduled(endpoint, service, operation)
  }

  /** What the server records for a command. */
  function RecordingOf(c: Command): Recording {
    match c
    case Begin(id, call) => CallRecording(id, call)
    case CancelTimer(id) => TimerCanceled(id)
    case SignalExternalWorkflow(workflowId, _, _) => ExternalSignalInitiated(workflowId)
    case UpsertSearchAttributes(_) => AttributesUpserted
    case RecordMarker(marker) => MarkerRecorded(marker)
    case CloseWorkflow(how) => WorkflowClosed(how)
  }

  /** The endings of a child that the engine has a case for; the others resolve nothing. */
  predicate ChildEndingHandled(e: ChildEnding) {
    e.ChildCompleted? || e.ChildFailed? || e.ChildCanceled?
  }

  function ActivityOutcome(r: Resolution): Outcome {
    match r
    case Completed(result) => Outcome(false, result, "", "")
    case Failed(failureType, failureMessage) => Outcome(true, [], failureType, failureMessage)
    case TimedOut => Outcome(true, [], "TimeoutError", "activity timed out")
    case Canceled => Outcome(true, [], "CanceledError", "activity cancelled")
  }

  function ChildOutcome(e: ChildEnding): Outcome
    requires ChildEndingHandled(e)
  {
    match e
    case ChildCompleted(result) => Outcome(false, result, "", "")
    case ChildFailed(failureType, failureMessage) => Outcome(true, [], failureType, failureMessage)
    case ChildCanceled => Outcome(true, [], "CanceledError", "child workflow cancelled")
  }

  function NexusOutcome(r: Resolution): Outcome {
    match r
    case Completed(result) => Outcome(false, result, "", "")
    case Failed(failureType, failureMessage) => Outcome(true, [], failureType, failureMessage)
    case TimedOut => Outcome(true, [], "TimeoutError", "nexus operation timed out")
    case Canceled => Outcome(true, [], "CanceledError", "nexus operation cancelled")
  }
}
