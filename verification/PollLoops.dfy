/** One iteration of a poll loop (src/internal/worker_impl.cpp, WorkflowPollLoop and ActivityPollLoop):
    whichever step throws or breaks, the scaler slot and the gate permit are given back once. */
module PollLoops {
  import opened Basics

  datatype Effect = TakeSlot | GiveSlot | Report(gotTask: bool) | TakePermit | GivePermit | HandleTask

  /** The steps of the try block that may throw: the poll itself, the handler, and the calls into the
      user's metrics handler between them. */
  datatype Point =
    | Polling          // the poll RPC
    | TimeoutMetric    // counting a poll that returned no task
    | SuccessMetric    // counting one that did
    | StartMetrics     // gauges and latency, with the permit held
    | Handling         // the task handler
    | EndMetrics       // latencies and counters after it, with the permit still held

  /** What the iteration meets. The two loops differ in `paced`: activities also wait for the rate
      limiter and then look at the stop flag again. */
  datatype Script = Script(
    scalable: bool, autoscaling: bool, paced: bool,
    slotDenied: bool,       // the scaler was stopped while waiting
    gotTask: bool, stopAfterPoll: bool, draining: bool, stopAfterPace: bool,
    permitDenied: bool,     // the gate was released
    throwsAt: Option<Point>,
    stopAfterError: bool, errorReportThrows: bool)

  /** How the try block is left. */
  datatype Exit = Fell | Continued | Broke | Threw

  /** How the iteration ends; an exception thrown while an error is being reported escapes the loop. */
  datatype Ending = GoOn | Leave | Escape

  predicate ThrowsAt(script: Script, at: Point) {
    script.throwsAt == Some(at)
  }

  class PollLoop {
    var effects: seq<Effect>
    var slotReleased: bool

    constructor ()
      ensures effects == []
    {
      effects, slotReleased := [], true;
    }

    /** What happens in the scope of the permit; its guard releases on every way out. */
    method WithPermit(script: Script) returns (exit: Exit)
      modifies this`effects
      ensures effects == old(effects) + Handled(script)
      ensures exit == if ThrowsAt(script, StartMetrics) || ThrowsAt(script, Handling) || ThrowsAt(script, EndMetrics)
                      then Threw else Fell
    {
      if ThrowsAt(script, StartMetrics) {
        return Threw;
      }
      effects := effects + [HandleTask];
      if ThrowsAt(script, Handling) || ThrowsAt(script, EndMetrics) {
        return Threw;
      }
      return Fell;
    }

    /** Dispatching a polled task. */
    method Dispatch(script: Script) returns (exit: Exit)
      modifies this`effects
      ensures effects == old(effects) + Dispatched(script)
      ensures exit == DispatchExit(script)
    {
      if script.stopAfterPoll {
        return Broke;
      }
      if !script.gotTask {
        return if ThrowsAt(script, TimeoutMetric) then Threw else Continued;
      }
      if ThrowsAt(script, SuccessMetric) {
        return Threw;
      }
      if script.draining {
        return Continued;
      }
      if script.paced && script.stopAfterPace {
        return Broke;
      }
      if script.permitDenied {
        return Broke;
      }
      effects := effects + [TakePermit];
      exit := WithPermit(script);
      effects := effects + [GivePermit];
    }

    method TryBlock(script: Script) returns (exit: Exit)
      requires slotReleased == !script.scalable
      modifies this
      ensures slotReleased == (!script.scalable || !ThrowsAt(script, Polling))
      ensures exit == if ThrowsAt(script, Polling) then Threw else DispatchExit(script)
      ensures effects == old(effects) + if ThrowsAt(script, Polling) then [] else Polled(script) + Dispatched(script)
    {
      hide Dispatched, DispatchExit;
      if ThrowsAt(script, Polling) {
        return Threw;
      }
      if script.autoscaling {
        effects := effects + [Report(script.gotTask)];
      }
      if script.scalable {
        effects := effects + [GiveSlot];
        slotReleased := true;
      }
      assert effects == old(effects) + Polled(script);
      exit := Dispatch(script);
    }

    /** One time round the loop. */
    method Iterate(script: Script) returns (ending: Ending)
      modifies this
      ensures effects == old(effects) + Effects(script)
      ensures ending == EndingOf(script)
    {
      hide Polled, Dispatched, DispatchExit;
      if script.scalable {
        if script.slotDenied {
          return Leave;
        }
        effects := effects + [TakeSlot];
      }
      slotReleased := !script.scalable;
      var exit := TryBlock(script);
      if exit.Threw? {
        if script.scalable && !slotReleased {
          effects := effects + [GiveSlot];
        }
        if script.stopAfterError {
          return Leave;
        }
        return if script.errorReportThrows then Escape else GoOn;
      }
      return if exit.Broke? then Leave else GoOn;
    }
  }

  /** What the poll itself leaves behind. */
  function Polled(script: Script): seq<Effect> {
    (if script.autoscaling then [Report(script.gotTask)] else []) + (if script.scalable then [GiveSlot] else [])
  }

  function Handled(script: Script): seq<Effect> {
    if ThrowsAt(script, StartMetrics) then [] else [HandleTask]
  }

  /** The task gets as far as a permit. */
  predicate Admitted(script: Script) {
    !script.stopAfterPoll && script.gotTask && !ThrowsAt(script, SuccessMetric) && !script.draining &&
    !(script.paced && script.stopAfterPace) && !script.permitDenied
  }

  function Dispatched(script: Script): seq<Effect> {
    if Admitted(script) then [TakePermit] + Handled(script) + [GivePermit] else []
  }

  function DispatchExit(script: Script): Exit {
    if script.stopAfterPoll then Broke
    else if !script.gotTask then (if ThrowsAt(script, TimeoutMetric) then Threw else Continued)
    else if ThrowsAt(script, SuccessMetric) then Threw
    else if script.draining then Continued
    else if (script.paced && script.stopAfterPace) || script.permitDenied then Broke
    else if ThrowsAt(script, StartMetrics) || ThrowsAt(script, Handling) || ThrowsAt(script, EndMetrics) then Threw
    else Fell
  }

  function Effects(script: Script): seq<Effect> {
    if script.scalable && script.slotDenied then []
    else
      (if script.scalable then [TakeSlot] else []) +
      (if ThrowsAt(script, Polling) then (if script.scalable then [GiveSlot] else []) else Polled(script) + Dispatched(script))
  }

  function EndingOf(script: Script): Ending {
    if script.scalable && script.slotDenied then Leave
    else if ThrowsAt(script, Polling) || DispatchExit(script).Threw? then
      if script.stopAfterError then Leave else if script.errorReportThrows then Escape else GoOn
    else if DispatchExit(script).Broke? then Leave
    else GoOn
  }

  function Count(effects: seq<Effect>, e: Effect): nat {
    if effects == [] then 0 else Count(effects[..|effects| - 1], e) + if effects[|effects| - 1] == e then 1 else 0
  }

  /** Slots and permits out at this point. */
  function Out(effects: seq<Effect>, take: Effect, give: Effect): int {
    Count(effects, take) - Count(effects, give)
  }

  lemma {:induction false} CountConcat(a: seq<Effect>, b: seq<Effect>, e: Effect)
    ensures Count(a + b, e) == Count(a, e) + Count(b, e)
  {
    if b == [] {
      assert a + b == a;
    } else {
      CountConcat(a, b[..|b| - 1], e);
      assert (a + b)[..|a + b| - 1] == a + b[..|b| - 1];
    }
  }

  lemma CountAtMost3(effects: seq<Effect>, e: Effect)
    requires |effects| <= 3
    ensures Count(effects, e) ==
              (if |effects| > 0 && effects[0] == e then 1 else 0) + (if |effects| > 1 && effects[1] == e then 1 else 0) +
              (if |effects| > 2 && effects[2] == e then 1 else 0)
  {
    if |effects| > 0 {
      var a := effects[..|effects| - 1];
      if |a| > 0 {
        assert a[..|a| - 1] == effects[..|effects| - 2];
      }
    }
  }

  lemma PolledCount(script: Script, e: Effect)
    requires !e.Report?
    ensures Count(Polled(script), e) == if script.scalable && e == GiveSlot then 1 else 0
  {
    CountAtMost3(Polled(script), e);
    hide Count;
  }

  lemma DispatchedCount(script: Script, e: Effect)
    requires e != HandleTask
    ensures Count(Dispatched(script), e) == if Admitted(script) && (e == TakePermit || e == GivePermit) then 1 else 0
  {
    CountAtMost3(Dispatched(script), e);
    hide Count, Admitted;
  }

  /** How often an iteration has an effect. */
  lemma EffectsCount(script: Script, e: Effect)
    requires !e.Report? && e != HandleTask && !(script.scalable && script.slotDenied)
    ensures Count(Effects(script), e) ==
              (if script.scalable && (e == TakeSlot || e == GiveSlot) then 1 else 0) +
              if ThrowsAt(script, Polling) then 0 else Count(Dispatched(script), e)
  {
    hide Polled, Dispatched, Count;
    var first := if script.scalable then [TakeSlot] else [];
    CountAtMost3(first, e);
    if ThrowsAt(script, Polling) {
      var last := if script.scalable then [GiveSlot] else [];
      CountConcat(first, last, e);
      CountAtMost3(last, e);
    } else {
      CountConcat(first, Polled(script) + Dispatched(script), e);
      CountConcat(Polled(script), Dispatched(script), e);
      PolledCount(script, e);
    }
  }

  /** Every iteration gives back what it took, whichever step throws: one slot if it got one, one permit
      if it got one. */
  lemma IterationBalanced(script: Script)
    ensures Count(Effects(script), TakeSlot) == Count(Effects(script), GiveSlot) ==
              if script.scalable && !script.slotDenied then 1 else 0
    ensures Count(Effects(script), TakePermit) == Count(Effects(script), GivePermit) <= 1
  {
    if script.scalable && script.slotDenied {
      assert Effects(script) == [];
    } else {
      EffectsCount(script, TakeSlot);
      EffectsCount(script, GiveSlot);
      EffectsCount(script, TakePermit);
      EffectsCount(script, GivePermit);
      DispatchedCount(script, TakeSlot);
      DispatchedCount(script, GiveSlot);
      DispatchedCount(script, TakePermit);
      DispatchedCount(script, GivePermit);
      hide Effects, Dispatched, Count;
    }
  }

  /** What comes before the handling of a task. */
  function Prologue(script: Script): seq<Effect> {
    (if script.scalable then [TakeSlot] else []) + (Polled(script) + [TakePermit])
  }

  lemma BeforeHandling(script: Script, n: nat)
    requires n < |Effects(script)| && Effects(script)[n] == HandleTask
    ensures Effects(script)[..n] == Prologue(script)
  {
    hide Admitted;
    assert Effects(script) == (if script.scalable then [TakeSlot] else []) + (Polled(script) + Dispatched(script));
    assert HandleTask !in Prologue(script);
    assert Dispatched(script) == [TakePermit, HandleTask, GivePermit];
  }

  lemma PrologueCount(script: Script, e: Effect)
    requires !e.Report?
    ensures Count(Prologue(script), e) ==
              (if script.scalable && (e == TakeSlot || e == GiveSlot) then 1 else 0) + if e == TakePermit then 1 else 0
  {
    hide Polled, Count;
    var first := if script.scalable then [TakeSlot] else [];
    CountConcat(first, Polled(script) + [TakePermit], e);
    CountConcat(Polled(script), [TakePermit], e);
    PolledCount(script, e);
    CountAtMost3(first, e);
    CountAtMost3([TakePermit], e);
  }

  /** A handler runs with exactly one permit out, and the scaler slot is given back by then. */
  lemma HandledUnderPermit(script: Script, n: nat)
    requires n < |Effects(script)| && Effects(script)[n] == HandleTask
    ensures Out(Effects(script)[..n], TakePermit, GivePermit) == 1
    ensures Out(Effects(script)[..n], TakeSlot, GiveSlot) == 0
  {
    BeforeHandling(script, n);
    PrologueCount(script, TakePermit);
    PrologueCount(script, GivePermit);
    PrologueCount(script, TakeSlot);
    PrologueCount(script, GiveSlot);
    hide Effects, Prologue, Count;
  }

  /** The parts of an iteration, counted one by one. */
  lemma PartsCount(script: Script, e: Effect)
    requires !(script.scalable && script.slotDenied) && e != TakeSlot && e != GiveSlot
    ensures Count(Effects(script), e) ==
              if script.throwsAt == Some(Polling) then 0 else Count(Polled(script), e) + Count(Dispatched(script), e)
  {
    hide Polled, Dispatched, Count;
    var first, last := if script.scalable then [TakeSlot] else [], if script.scalable then [GiveSlot] else [];
    CountAtMost3(first, e);
    CountAtMost3(last, e);
    CountConcat(first, last, e);
    CountConcat(first, Polled(script) + Dispatched(script), e);
    CountConcat(Polled(script), Dispatched(script), e);
  }

  /** A task is handled exactly once if the iteration gets its slot, the poll returns a task in time, no
      metrics callback before the handler throws and a permit is granted; otherwise never. */
  lemma HandledExactlyOnce(script: Script)
    ensures Count(Effects(script), HandleTask) ==
              if (script.scalable ==> !script.slotDenied) && script.gotTask && !script.stopAfterPoll && !script.draining &&
                 !(script.paced && script.stopAfterPace) && !script.permitDenied &&
                 script.throwsAt != Some(Polling) && script.throwsAt != Some(SuccessMetric) && script.throwsAt != Some(StartMetrics)
              then 1 else 0
  {
    if script.scalable && script.slotDenied {
      assert Effects(script) == [];
    } else {
      PartsCount(script, HandleTask);
      CountAtMost3(Polled(script), HandleTask);
      CountAtMost3(Dispatched(script), HandleTask);
      hide Count, Effects;
    }
  }

  /** The scaler is told of every poll that returned, and of what it returned, if autoscaling is on. */
  lemma ReportedExactlyOnce(script: Script, gotTask: bool)
    ensures Count(Effects(script), Report(gotTask)) ==
              if (script.scalable ==> !script.slotDenied) && script.autoscaling && script.throwsAt != Some(Polling) &&
                 gotTask == script.gotTask
              then 1 else 0
  {
    if script.scalable && script.slotDenied {
      assert Effects(script) == [];
    } else {
      PartsCount(script, Report(gotTask));
      CountAtMost3(Polled(script), Report(gotTask));
      CountAtMost3(Dispatched(script), Report(gotTask));
      hide Count, Effects;
    }
  }

  /** The worker was stopping when the iteration looked, at one of the points where it looks. */
  predicate SawStop(script: Script) {
    (script.scalable && script.slotDenied) ||
    (script.throwsAt != Some(Polling) && script.stopAfterPoll) ||
    (Polls(script) && script.paced && script.stopAfterPace) ||
    (Polls(script) && !(script.paced && script.stopAfterPace) && script.permitDenied)
  }

  /** The poll returned a task that the worker still takes. */
  predicate Polls(script: Script) {
    script.throwsAt != Some(Polling) && !script.stopAfterPoll && script.gotTask && script.throwsAt != Some(SuccessMetric) &&
    !script.draining
  }

  /** The iteration got as far as the step that throws. */
  predicate Meets(script: Script, at: Point) {
    script.throwsAt == Some(at) && !(script.scalable && script.slotDenied) &&
    match at
    case Polling => true
    case TimeoutMetric => !script.stopAfterPoll && !script.gotTask
    case SuccessMetric => !script.stopAfterPoll && script.gotTask
    case StartMetrics | Handling | EndMetrics =>
      !script.stopAfterPoll && script.gotTask && !script.draining && !(script.paced && script.stopAfterPace) && !script.permitDenied
  }

  /** How an iteration ends: it leaves the loop if it saw the worker stop, there or while handling an error;
      an error that cannot be reported escapes; every other way, errors included, the loop goes on. */
  lemma EndsExactly(script: Script)
    ensures var threw := script.throwsAt.Some? && Meets(script, script.throwsAt.value);
            (EndingOf(script) == Leave <==> if threw then script.stopAfterError else SawStop(script)) &&
            (EndingOf(script) == Escape <==> threw && !script.stopAfterError && script.errorReportThrows)
  {
  }

  function Session(scripts: seq<Script>): seq<Effect> {
    if scripts == [] then [] else Session(scripts[..|scripts| - 1]) + Effects(scripts[|scripts| - 1])
  }

  /** Between the iterations of a poller's whole life it holds no slot and no permit. */
  lemma {:induction false} SessionBalanced(scripts: seq<Script>)
    ensures Out(Session(scripts), TakeSlot, GiveSlot) == 0 && Out(Session(scripts), TakePermit, GivePermit) == 0
  {
    if scripts != [] {
      var before, last := scripts[..|scripts| - 1], scripts[|scripts| - 1];
      SessionBalanced(before);
      IterationBalanced(last);
      CountConcat(Session(before), Effects(last), TakeSlot);
      CountConcat(Session(before), Effects(last), GiveSlot);
      CountConcat(Session(before), Effects(last), TakePermit);
      CountConcat(Session(before), Effects(last), GivePermit);
    }
  }
}
