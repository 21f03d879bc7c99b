/** A body's life read off its own log: every answer it was given is the true one for the operation it had
    asked, and its commands are the ones those operations call for. The reading uses no counters, futures or
    cursors, only the order of the log and the history. */
module Telling {
  import opened Basics
  import opened Workflow
  import opened Machine
  import opened HistoryScan
  import opened Progress
  import opened Replay
  import opened Divergence
  import opened Outcomes

  // ---- Reading a log -------------------------------------------------------------------------------

  /** The operation that a body is in, having been told `log`: update handlers do not move it. */
  function Asked(env: Env, log: seq<Input>): Op {
    if log != [] && log[|log| - 1].Updated? then Asked(env, log[..|log| - 1]) else env.body(log)
  }

  /** Operations that are numbered in call order. */
  datatype Sort = Calls(kind: FutureKind) | SideEffectCalls | LocalCalls | Receives(name: string)

  predicate InSort(op: Op, sort: Sort) {
    match sort
    case Calls(kind) => op.Schedule? && KindOf(op.call) == kind
    case SideEffectCalls => op.SideEffect?
    case LocalCalls => op.LocalActivity?
    case Receives(name) => op == Receive(name)
  }

  /** How many operations of the sort were answered. */
  function CountOf(env: Env, log: seq<Input>, sort: Sort): nat {
    if log == [] then 0
    else
      var past := log[..|log| - 1];
      CountOf(env, past, sort) + if !log[|log| - 1].Updated? && InSort(Asked(env, past), sort) then 1 else 0
  }

  /** The body has registered a handler for updates of that name. */
  predicate Registered(env: Env, log: seq<Input>, name: string) {
    log != [] &&
    (Registered(env, log[..|log| - 1], name) ||
     (!log[|log| - 1].Updated? && Asked(env, log[..|log| - 1]) == SetUpdateHandler(name)))
  }

  predicate StartsTimer(c: Command, timer: string) {
    c.Begin? && c.call.TimerCall? && c.id == timer
  }

  ghost predicate TimerRuns(commands: seq<Command>, timer: string) {
    (exists i :: 0 <= i < |commands| && StartsTimer(commands[i], timer)) && CancelTimer(timer) !in commands
  }

  /** The commands that the operations of a log call for: a timer is cancelled once, if it was started. */
  ghost function CommandsOf(env: Env, log: seq<Input>): seq<Command> {
    if log == [] then []
    else
      var past, input := log[..|log| - 1], log[|log| - 1];
      CommandsOf(env, past) + if input.Updated? then [] else CalledFor(CommandsOf(env, past), Asked(env, past), input)
  }

  ghost function CalledFor(sofar: seq<Command>, op: Op, input: Input): seq<Command> {
    match op
    case Schedule(call) => if input.Started? then [Begin(input.future.id, call)] else []
    case Cancel(timer) => if TimerRuns(sofar, timer) then [CancelTimer(timer)] else []
    case Signal(workflowId, name, payloads) => [SignalExternalWorkflow(workflowId, name, payloads)]
    case Upsert(attributes) => [UpsertSearchAttributes(attributes)]
    case SideEffect => if input.Value? then [RecordMarker(SideEffectMarker(input.data))] else []
    case LocalActivity(_, _) => if input.Resolved? then [RecordMarker(LocalActivityMarker(input.outcome))] else []
    case SetUpdateHandler(_) | Get(_) | Receive(_) | Close(_) => []
  }

  // ---- True answers --------------------------------------------------------------------------------

  /** What the history delivered under a signal name, in order. */
  function Delivered(h: History, name: string): seq<Payloads> {
    if h == [] then []
    else
      var a := h[|h| - 1].attributes;
      Delivered(h[..|h| - 1], name) + if a.Signaled? && a.name == name then [a.payloads] else []
  }

  /** The id of the n-th call of a kind. */
  predicate IsId(env: Env, kind: FutureKind, n: nat, id: string) {
    match kind
    case Activity | Nexus => id == Decimal(n)
    case Timer => id == "t" + Decimal(n)
    case Child => id == env.workflowId + "_c" + Decimal(n)
  }

  /** `input` is the true answer to `op`, asked after `past`, when `h` has happened. */
  ghost predicate TrueAnswer(env: Env, h: History, past: seq<Input>, op: Op, input: Input) {
    match op
    case Schedule(call) =>
      input.Started? && input.future.kind == KindOf(call) &&
      IsId(env, KindOf(call), CountOf(env, past, Calls(KindOf(call))), input.future.id)
    case SideEffect => input == Value(env.world.side(CountOf(env, past, SideEffectCalls)))
    case LocalActivity(_, _) => input == Resolved(env.world.local(CountOf(env, past, LocalCalls)))
    case Get(x) =>
      input.Resolved? &&
      if x.kind.Timer? then input.outcome == QUIET && (Ended(h, x) || CancelTimer(x.id) in CommandsOf(env, past))
      else EndedWith(h, x, input.outcome)
    case Receive(name) =>
      var n := CountOf(env, past, Receives(name));
      n < |Delivered(h, name)| && input == Received(Delivered(h, name)[n])
    case Cancel(_) | Signal(_, _, _) | Upsert(_) | SetUpdateHandler(_) => input == Acknowledged
    case Close(_) => false
  }

  /** The i-th thing the body was told: a registered handler's update, or the true answer to its operation. */
  ghost predicate TrueAt(env: Env, h: History, log: seq<Input>, i: nat)
    requires i < |log|
  {
    if log[i].Updated? then Registered(env, log[..i], log[i].name)
    else TrueAnswer(env, h, log[..i], Asked(env, log[..i]), log[i])
  }

  ghost predicate Truthful(env: Env, h: History, log: seq<Input>) {
    forall i :: 0 <= i < |log| ==> TrueAt(env, h, log, i)
  }

  // ---- The machine's bookkeeping is a reading of the log -------------------------------------------

  ghost predicate CountersRead(env: Env, m: Machine) {
    m.counters.activity == CountOf(env, m.log, Calls(Activity)) &&
    m.counters.timer == CountOf(env, m.log, Calls(Timer)) &&
    m.counters.child == CountOf(env, m.log, Calls(Child)) &&
    m.counters.nexus == CountOf(env, m.log, Calls(Nexus)) &&
    m.counters.sideEffects == CountOf(env, m.log, SideEffectCalls) &&
    m.counters.locals == CountOf(env, m.log, LocalCalls)
  }

  ghost predicate CursorsRead(env: Env, m: Machine) {
    forall name :: Cursor(m, name) == CountOf(env, m.log, Receives(name))
  }

  ghost predicate HandlersRead(env: Env, m: Machine) {
    forall name :: name in m.handlers <==> Registered(env, m.log, name)
  }

  ghost predicate PhaseReads(env: Env, m: Machine) {
    match m.phase
    case Running(op) => op == Asked(env, m.log) && m.trace == CommandsOf(env, m.log)
    case Finished(how) => Asked(env, m.log) == Close(how) && m.trace == CommandsOf(env, m.log) + [CloseWorkflow(how)]
  }

  ghost predicate Reads(env: Env, m: Machine) {
    CountersRead(env, m) && CursorsRead(env, m) && HandlersRead(env, m) && PhaseReads(env, m)
  }

  lemma {:induction false} HoldsTimers(trace: seq<Command>, timer: string)
    ensures Handle(Timer, timer) in Handles(trace) <==> exists i :: 0 <= i < |trace| && StartsTimer(trace[i], timer)
    ensures timer in Cancels(trace) <==> CancelTimer(timer) in trace
  {
    if trace != [] {
      var n := |trace| - 1;
      HoldsTimers(trace[..n], timer);
      assert trace == trace[..n] + [trace[n]];
      if i :| 0 <= i < n && StartsTimer(trace[i], timer) {
        assert StartsTimer(trace[..n][i], timer);
      }
    }
  }

  lemma {:induction false} DeliveredIsPending(h: History, name: string)
    ensures Pending(Know(h), name) == Delivered(h, name)
  {
    if h != [] {
      hide Resolves;
      DeliveredIsPending(h[..|h| - 1], name);
    }
  }

  lemma {:induction false} DeliveredGrows(h: History, n: nat, name: string)
    requires n <= |h|
    ensures Delivered(h[..n], name) <= Delivered(h, name)
    decreases |h|
  {
    if n == |h| {
      assert h[..n] == h;
    } else {
      DeliveredGrows(h[..|h| - 1], n, name);
      assert h[..|h| - 1][..n] == h[..n];
    }
  }

  /** The log is told one thing more. */
  lemma ReadsLast(env: Env, log: seq<Input>, input: Input)
    ensures Asked(env, log + [input]) == if input.Updated? then Asked(env, log) else env.body(log + [input])
    ensures forall sort :: CountOf(env, log + [input], sort) ==
              CountOf(env, log, sort) + if !input.Updated? && InSort(Asked(env, log), sort) then 1 else 0
    ensures forall name :: Registered(env, log + [input], name) <==>
              Registered(env, log, name) || (!input.Updated? && Asked(env, log) == SetUpdateHandler(name))
    ensures CommandsOf(env, log + [input]) ==
              CommandsOf(env, log) + if input.Updated? then [] else CalledFor(CommandsOf(env, log), Asked(env, log), input)
  {
    assert (log + [input])[..|log|] == log;
  }

  lemma TruthfulLast(env: Env, h: History, log: seq<Input>, input: Input)
    requires Truthful(env, h, log)
    requires if input.Updated? then Registered(env, log, input.name) else TrueAnswer(env, h, log, Asked(env, log), input)
    ensures Truthful(env, h, log + [input])
  {
    hide TrueAnswer, Registered;
    var log' := log + [input];
    forall i | 0 <= i < |log'|
      ensures TrueAt(env, h, log', i)
    {
      assert log'[..i] == log[..i];
      if i < |log| {
        assert TrueAt(env, h, log, i);
      } else {
        assert log[..i] == log;
      }
    }
  }

  // ---- Every step tells the truth ------------------------------------------------------------------

  /** What a step tells the body. */
  function TellsNow(env: Env, k: Knowledge, m: Machine): Input
    requires !Settled(k, m) && !m.phase.op.Close?
  {
    match m.phase.op
    case Schedule(call) => Started(NextHandle(env, m, KindOf(call)))
    case SideEffect => Value(env.world.side(m.counters.sideEffects))
    case LocalActivity(_, _) => Resolved(env.world.local(m.counters.locals))
    case Get(h) => Resolved(OutcomeAt(k, m, h))
    case Receive(name) => Received(Pending(k, name)[Cursor(m, name)])
    case Cancel(_) | Signal(_, _, _) | Upsert(_) | SetUpdateHandler(_) => Acknowledged
  }

  lemma StepTells(env: Env, k: Knowledge, m: Machine)
    requires !Settled(k, m)
    ensures m.phase.op.Close? ==> Step(env, k, m).log == m.log && Step(env, k, m).phase == Finished(m.phase.op.how)
    ensures !m.phase.op.Close? ==>
              Step(env, k, m).log == m.log + [TellsNow(env, k, m)] &&
              Step(env, k, m).phase == Running(env.body(m.log + [TellsNow(env, k, m)]))
  {
  }

  /** The answer to a call or a marker is numbered truly. */
  lemma TellsNumbered(env: Env, h: History, m: Machine)
    requires Reads(env, m) && !Settled(Know(h), m)
    requires m.phase.op.Schedule? || m.phase.op.SideEffect? || m.phase.op.LocalActivity?
    ensures TrueAnswer(env, h, m.log, m.phase.op, TellsNow(env, Know(h), m))
  {
    hide Know, CommandsOf, CountOf, Registered, Asked, Delivered, CursorsRead, HandlersRead;
  }

  lemma TellsOutcome(env: Env, h: History, m: Machine)
    requires Plausible(h) && Consistent(env, m) && Reads(env, m) && !Settled(Know(h), m) && m.phase.op.Get?
    ensures TrueAnswer(env, h, m.log, m.phase.op, TellsNow(env, Know(h), m))
  {
    hide Know, CountOf, Registered, Asked, Delivered, CursorsRead, HandlersRead, CountersRead, Ended, EndedWith,
         AllMinted, WellNumbered, EndsOnce, CancelsHeld, CommandsOf;
    var x := m.phase.op.future;
    KnownExactly(h, x);
    HoldsTimers(m.trace, x.id);
  }

  lemma TellsSignal(env: Env, h: History, m: Machine)
    requires Reads(env, m) && !Settled(Know(h), m) && m.phase.op.Receive?
    ensures TrueAnswer(env, h, m.log, m.phase.op, TellsNow(env, Know(h), m))
  {
    hide Know, CountOf, Registered, Asked, Delivered, HandlersRead, CountersRead, CommandsOf;
    DeliveredIsPending(h, m.phase.op.name);
    assert Cursor(m, m.phase.op.name) == CountOf(env, m.log, Receives(m.phase.op.name));
  }

  lemma TellsTruth(env: Env, h: History, m: Machine)
    requires Plausible(h) && Consistent(env, m) && Reads(env, m) && !Settled(Know(h), m) && !m.phase.op.Close?
    ensures var input := TellsNow(env, Know(h), m);
            !input.Updated? && TrueAnswer(env, h, m.log, Asked(env, m.log), input)
  {
    assert m.phase.op == Asked(env, m.log);
    match m.phase.op
    case Schedule(_) => TellsNumbered(env, h, m);
    case SideEffect => TellsNumbered(env, h, m);
    case LocalActivity(_, _) => TellsNumbered(env, h, m);
    case Get(_) => TellsOutcome(env, h, m);
    case Receive(_) => TellsSignal(env, h, m);
    case Cancel(_) => assert TellsNow(env, Know(h), m) == Acknowledged;
    case Signal(_, _, _) => assert TellsNow(env, Know(h), m) == Acknowledged;
    case Upsert(_) => assert TellsNow(env, Know(h), m) == Acknowledged;
    case SetUpdateHandler(_) => assert TellsNow(env, Know(h), m) == Acknowledged;
  }

  lemma StepCalls(env: Env, k: Knowledge, m: Machine)
    requires Consistent(env, m) && PhaseReads(env, m) && !Settled(k, m) && !m.phase.op.Close?
    ensures Step(env, k, m).trace == m.trace + CalledFor(m.trace, m.phase.op, TellsNow(env, k, m))
  {
    hide AllMinted, WellNumbered, EndsOnce, CancelsHeld, CommandsOf, Asked;
    if m.phase.op.Cancel? {
      HoldsTimers(m.trace, m.phase.op.timer);
    }
    StepTrace(env, k, m);
  }

  /** The counters, cursors and handlers that a step changes. */
  lemma StepBookkeeping(env: Env, k: Knowledge, m: Machine)
    requires !Settled(k, m)
    ensures var m' := Step(env, k, m);
            var op := m.phase.op;
            (forall kind :: CounterOf(m'.counters, kind) == CounterOf(m.counters, kind) + if InSort(op, Calls(kind)) then 1 else 0) &&
            m'.counters.sideEffects == m.counters.sideEffects + (if op.SideEffect? then 1 else 0) &&
            m'.counters.locals == m.counters.locals + (if op.LocalActivity? then 1 else 0) &&
            (forall name :: Cursor(m', name) == Cursor(m, name) + if op == Receive(name) then 1 else 0) &&
            (forall name :: name in m'.handlers <==> name in m.handlers || op == SetUpdateHandler(name))
  {
  }

  lemma StepReadsPhase(env: Env, k: Knowledge, m: Machine)
    requires Consistent(env, m) && PhaseReads(env, m) && !Settled(k, m)
    ensures PhaseReads(env, Step(env, k, m))
  {
    StepTells(env, k, m);
    if m.phase.op.Close? {
      StepTrace(env, k, m);
      hide Asked, CommandsOf;
    } else {
      StepCalls(env, k, m);
      ReadsLast(env, m.log, TellsNow(env, k, m));
      hide Asked, CommandsOf, CalledFor, Step, Consistent, CountOf, Registered;
    }
  }

  /** One more answer of a sort, or none. */
  lemma StepCounts(env: Env, k: Knowledge, m: Machine, sort: Sort)
    requires PhaseReads(env, m) && !Settled(k, m)
    ensures CountOf(env, Step(env, k, m).log, sort) == CountOf(env, m.log, sort) + if InSort(m.phase.op, sort) then 1 else 0
  {
    StepTells(env, k, m);
    if !m.phase.op.Close? {
      ReadsLast(env, m.log, TellsNow(env, k, m));
    }
    hide Asked, CountOf, Registered, CommandsOf, Step;
  }

  lemma StepReadsCounters(env: Env, k: Knowledge, m: Machine)
    requires Reads(env, m) && !Settled(k, m)
    ensures CountersRead(env, Step(env, k, m))
  {
    var m' := Step(env, k, m);
    StepBookkeeping(env, k, m);
    StepCounts(env, k, m, Calls(Activity));
    StepCounts(env, k, m, Calls(Timer));
    StepCounts(env, k, m, Calls(Child));
    StepCounts(env, k, m, Calls(Nexus));
    StepCounts(env, k, m, SideEffectCalls);
    StepCounts(env, k, m, LocalCalls);
    assert m.counters.activity == CounterOf(m.counters, Activity) && m'.counters.activity == CounterOf(m'.counters, Activity);
    assert m.counters.timer == CounterOf(m.counters, Timer) && m'.counters.timer == CounterOf(m'.counters, Timer);
    assert m.counters.child == CounterOf(m.counters, Child) && m'.counters.child == CounterOf(m'.counters, Child);
    assert m.counters.nexus == CounterOf(m.counters, Nexus) && m'.counters.nexus == CounterOf(m'.counters, Nexus);
    hide CountOf, Step, PhaseReads, CursorsRead, HandlersRead, CounterOf, Settled;
  }

  lemma StepReadsCursors(env: Env, k: Knowledge, m: Machine)
    requires Reads(env, m) && !Settled(k, m)
    ensures CursorsRead(env, Step(env, k, m))
  {
    var m' := Step(env, k, m);
    StepBookkeeping(env, k, m);
    forall name
      ensures Cursor(m', name) == CountOf(env, m'.log, Receives(name))
    {
      hide Cursor, CountOf, PhaseReads, HandlersRead, CountersRead, Step, Settled;
      assert Cursor(m, name) == CountOf(env, m.log, Receives(name));
      StepCounts(env, k, m, Receives(name));
    }
  }

  lemma StepReadsHandlers(env: Env, k: Knowledge, m: Machine)
    requires Reads(env, m) && !Settled(k, m)
    ensures HandlersRead(env, Step(env, k, m))
  {
    StepBookkeeping(env, k, m);
    StepTells(env, k, m);
    if !m.phase.op.Close? {
      ReadsLast(env, m.log, TellsNow(env, k, m));
    }
    hide Asked, CountOf, Registered, CommandsOf, CalledFor, Step, Cursor, CursorsRead, CountersRead;
  }

  lemma UpdateReads(env: Env, h: History, m: Machine, name: string, args: Payloads)
    requires Reads(env, m) && Truthful(env, h, m.log)
    ensures var m' := RunUpdate(m, name, args);
            Reads(env, m') && Truthful(env, h, m'.log)
  {
    var input := Updated(name, args);
    ReadsLast(env, m.log, input);
    hide Asked, CountOf, Registered, CommandsOf, Truthful;
    var m' := RunUpdate(m, name, args);
    if m'.log != m.log {
      TruthfulLast(env, h, m.log, input);
      forall x
        ensures Cursor(m', x) == CountOf(env, m'.log, Receives(x))
      {
        assert Cursor(m, x) == CountOf(env, m.log, Receives(x));
      }
    }
  }

  lemma TrueLater(env: Env, h: History, n: nat, past: seq<Input>, op: Op, input: Input)
    requires n <= |h| && TrueAnswer(env, h[..n], past, op, input)
    ensures TrueAnswer(env, h, past, op, input)
  {
    hide CountOf, CommandsOf, Ended, EndedWith, Delivered, IsId;
    match op
    case Get(x) => EndedGrows(h, n, x, input.outcome);
    case Receive(name) => DeliveredGrows(h, n, name);
    case _ =>
  }

  /** What was true stays true. */
  lemma TruthfulLater(env: Env, h: History, n: nat, log: seq<Input>)
    requires n <= |h| && Truthful(env, h[..n], log)
    ensures Truthful(env, h, log)
  {
    hide TrueAnswer;
    forall i | 0 <= i < |log|
      ensures TrueAt(env, h, log, i)
    {
      assert TrueAt(env, h[..n], log, i);
      if !log[i].Updated? {
        TrueLater(env, h, n, log[..i], Asked(env, log[..i]), log[i]);
      }
    }
  }

  lemma StepTruthful(env: Env, h: History, m: Machine)
    requires Plausible(h) && Consistent(env, m) && Reads(env, m) && Truthful(env, h, m.log) && !Settled(Know(h), m)
    ensures var m' := Step(env, Know(h), m);
            Reads(env, m') && Truthful(env, h, m'.log)
  {
    StepReadsPhase(env, Know(h), m);
    StepReadsCounters(env, Know(h), m);
    StepReadsCursors(env, Know(h), m);
    StepReadsHandlers(env, Know(h), m);
    StepTells(env, Know(h), m);
    hide Step, Consistent, Truthful, CountersRead, CursorsRead, HandlersRead, Plausible, Know, TrueAnswer, Asked, TellsNow,
         CommandsOf;
    if !m.phase.op.Close? {
      TellsTruth(env, h, m);
      TruthfulLast(env, h, m.log, TellsNow(env, Know(h), m));
    }
  }

  lemma {:induction false} IterateTells(env: Env, h: History, m: Machine, n: nat)
    requires Plausible(h) && Consistent(env, m) && Reads(env, m) && Truthful(env, h, m.log)
    ensures var end := Iterate(env, Know(h), m, n);
            Reads(env, end) && Truthful(env, h, end.log)
    decreases n
  {
    hide Settled, Step, Reads, Truthful, Consistent, Plausible, Know;
    if n > 0 && !Settled(Know(h), m) {
      StepConsistent(env, Know(h), m);
      StepTruthful(env, h, m);
      IterateTells(env, h, Step(env, Know(h), m), n - 1);
    }
  }

  /** Wherever a history leads: the body's commands, its numbering, its registered handlers and its signal
      cursors are those of the operations it has been answered, and every answer is the true one. */
  lemma {:induction false} ToldTruth(env: Env, h: History, m: Machine)
    requires Plausible(h) && Reaches(env, h, m)
    ensures Reads(env, m) && Truthful(env, h, m.log)
    decreases |h|
  {
    hide Reads, Truthful, Consistent, Plausible, Settled, Iterate, Know;
    if h == [] {
      InitReads(env);
      InitConsistent(env);
      NothingKnown();
      var n := SettledAt(env, NOTHING, Init(env), m);
      IterateTells(env, [], Init(env), n);
    } else {
      var past := h[..|h| - 1];
      var m0 := Before(env, h, m);
      PlausiblePrefix(h, |h| - 1);
      ToldTruth(env, past, m0);
      TruthfulLater(env, h, |h| - 1, m0.log);
      ReachesKeeps(env, past, m0);
      if h[|h| - 1].attributes.UpdateAccepted? {
        UpdateReads(env, h, m0, h[|h| - 1].attributes.name, h[|h| - 1].attributes.args);
      } else {
        var n := SettledAt(env, Know(h), m0, m);
        IterateTells(env, h, m0, n);
      }
    }
  }

  lemma InitReads(env: Env)
    ensures Reads(env, Init(env)) && Truthful(env, [], Init(env).log)
  {
  }

  lemma NothingKnown()
    ensures Know([]) == NOTHING
  {
  }

  // ---- Waiting -------------------------------------------------------------------------------------

  /** The body that has been told `log` rightly waits: for a future it does not hold, for an operation that
      has not ended, or for a signal beyond those delivered. */
  ghost predicate WaitsRightly(env: Env, h: History, log: seq<Input>) {
    match Asked(env, log)
    case Get(x) =>
      !Holds(CommandsOf(env, log), x) || (!Ended(h, x) && (x.kind.Timer? ==> CancelTimer(x.id) !in CommandsOf(env, log)))
    case Receive(name) => CountOf(env, log, Receives(name)) >= |Delivered(h, name)|
    case _ => false
  }

  ghost predicate Holds(commands: seq<Command>, x: Handle) {
    exists i :: 0 <= i < |commands| && commands[i].Begin? && commands[i].Future() == x
  }

  lemma {:induction false} HandlesHeld(trace: seq<Command>, x: Handle)
    ensures x in Handles(trace) <==> Holds(trace, x)
  {
    if trace != [] {
      var n := |trace| - 1;
      HandlesHeld(trace[..n], x);
      if i :| 0 <= i < n && trace[i].Begin? && trace[i].Future() == x {
        assert trace[..n][i] == trace[i];
      }
      if i :| 0 <= i < n && trace[..n][i].Begin? && trace[..n][i].Future() == x {
        assert trace[..n][i] == trace[i];
      }
    }
  }

  /** A body that has not ended waits only where it must. */
  lemma WaitsOnlyRightly(env: Env, h: History, m: Machine)
    requires Plausible(h) && Reaches(env, h, m) && m.phase.Running?
    ensures WaitsRightly(env, h, m.log)
  {
    hide Reaches, Truthful, Plausible, Know, CountOf, Registered, Asked, Delivered, CommandsOf, Ended, EndedWith,
         AllMinted, WellNumbered, EndsOnce, CancelsHeld, CountersRead, HandlersRead, Holds;
    ToldTruth(env, h, m);
    ReachesKeeps(env, h, m);
    match m.phase.op
    case Get(x) =>
      KnownExactly(h, x);
      HandlesHeld(m.trace, x);
      HoldsTimers(m.trace, x.id);
    case Receive(name) =>
      DeliveredIsPending(h, name);
      assert Cursor(m, name) == CountOf(env, m.log, Receives(name));
    case _ =>
  }
}
