/** Matching of the commands a replay produced against the commands history recorded
    (src/internal/determinism.h). */
module Determinism {
  import opened Basics

  datatype Kind =
    | Activity
    | RequestCancelActivity
    | Timer
    | CancelTimer
    | ChildWorkflow
    | RequestCancelExternalWorkflow
    | SignalExternalWorkflow
    | UpsertSearchAttributes
    | NexusOperation
    | Marker
    | CompleteWorkflow
    | FailWorkflow
    | ContinueAsNew

  datatype CommandEvent = CommandEvent(kind: Kind, id: string, name: string)

  function CommandKindName(k: Kind): string {
    match k
    case Activity => "ScheduleActivity"
    case RequestCancelActivity => "RequestCancelActivity"
    case Timer => "StartTimer"
    case CancelTimer => "CancelTimer"
    case ChildWorkflow => "StartChildWorkflow"
    case RequestCancelExternalWorkflow => "RequestCancelExternalWorkflowExecution"
    case SignalExternalWorkflow => "SignalExternalWorkflowExecution"
    case UpsertSearchAttributes => "UpsertWorkflowSearchAttributes"
    case NexusOperation => "ScheduleNexusOperation"
    case Marker => "RecordMarker"
    case CompleteWorkflow => "CompleteWorkflowExecution"
    case FailWorkflow => "FailWorkflowExecution"
    case ContinueAsNew => "ContinueAsNewWorkflowExecution"
  }

  predicate CommandMatchesEvent(produced: CommandEvent, expected: CommandEvent) {
    produced.kind == expected.kind &&
    match produced.kind
    case Activity | ChildWorkflow => produced.id == expected.id && produced.name == expected.name
    case CompleteWorkflow | FailWorkflow | ContinueAsNew => true
    case _ => produced.id == expected.id
  }

  /** Matching is an equivalence, so history may be compared with any equivalent replay; it never
      identifies two kinds, two activities or children that differ in id or type, or two ids of any
      commands but terminal ones. */
  lemma MatchingIsEquivalence(a: CommandEvent, b: CommandEvent, c: CommandEvent)
    ensures CommandMatchesEvent(a, a)
    ensures CommandMatchesEvent(a, b) == CommandMatchesEvent(b, a)
    ensures CommandMatchesEvent(a, b) && CommandMatchesEvent(b, c) ==> CommandMatchesEvent(a, c)
    ensures CommandMatchesEvent(a, b) ==> a.kind == b.kind
    ensures CommandMatchesEvent(a, b) && (a.kind.Activity? || a.kind.ChildWorkflow?) ==> a == b
    ensures CommandMatchesEvent(a, b) && a.id != b.id ==> a.kind.CompleteWorkflow? || a.kind.FailWorkflow? || a.kind.ContinueAsNew?
  {
  }

  function Describe(c: CommandEvent): string {
    CommandKindName(c.kind)
    + (if c.id != "" then "/" + c.id else "")
    + (if c.name != "" then "/" + c.name else "")
  }

  const NONDETERMINISTIC := "[TMPRL1100] nondeterministic workflow: "

  /** The message naming position `i` as the first divergence. */
  function Divergence(produced: seq<CommandEvent>, expected: seq<CommandEvent>, i: nat): string
    requires i < |expected|
  {
    if i >= |produced| then
      NONDETERMINISTIC + "missing replay command for history " + Describe(expected[i])
    else
      NONDETERMINISTIC + "at command #" + Decimal(i) + " history recorded " + Describe(expected[i])
      + " but replay produced " + Describe(produced[i])
  }

  predicate AgreeAt(produced: seq<CommandEvent>, expected: seq<CommandEvent>, i: nat)
    requires i < |expected|
  {
    i < |produced| && CommandMatchesEvent(produced[i], expected[i])
  }

  /** Every recorded command is reproduced at its own position; extra trailing commands are allowed. */
  ghost predicate Reproduces(produced: seq<CommandEvent>, expected: seq<CommandEvent>) {
    forall i :: 0 <= i < |expected| ==> AgreeAt(produced, expected, i)
  }

  ghost predicate DivergesFirstAt(produced: seq<CommandEvent>, expected: seq<CommandEvent>, i: nat) {
    i < |expected| && !AgreeAt(produced, expected, i) &&
    forall j :: 0 <= j < i ==> AgreeAt(produced, expected, j)
  }

  method MatchReplayCommands(produced: seq<CommandEvent>, expected: seq<CommandEvent>)
    returns (divergence: Option<string>)
    ensures divergence.None? <==> Reproduces(produced, expected)
    ensures divergence.Some? ==>
              exists i: nat :: DivergesFirstAt(produced, expected, i) &&
                               divergence.value == Divergence(produced, expected, i)
  {
    for i := 0 to |expected|
      invariant forall j :: 0 <= j < i ==> AgreeAt(produced, expected, j)
    {
      if i >= |produced| || !CommandMatchesEvent(produced[i], expected[i]) {
        assert DivergesFirstAt(produced, expected, i);
        return Some(Divergence(produced, expected, i));
      }
    }
    return None;
  }

  /** Progress past the recorded commands never turns a consistent replay into a divergent one,
      and a divergence before the end of the produced stream is never repaired by more commands. */
  lemma TrailingCommandsAreFree(produced: seq<CommandEvent>, more: seq<CommandEvent>, expected: seq<CommandEvent>)
    ensures Reproduces(produced, expected) ==> Reproduces(produced + more, expected)
    ensures |expected| <= |produced| ==> (Reproduces(produced + more, expected) <==> Reproduces(produced, expected))
  {
    forall i | 0 <= i < |expected| && i < |produced|
      ensures AgreeAt(produced + more, expected, i) == AgreeAt(produced, expected, i)
    {
      assert (produced + more)[i] == produced[i];
    }
  }
}
