/** The reference meaning of a workflow body: a machine that answers the body's operations from a
    fixed body of knowledge (resolutions and signals) and parks when the knowledge runs out. It has
    no history, no replay and no cache; the engine is measured against it. */
module Machine {
  import opened Basics
  import opened Workflow

  /** What is known to have happened outside the body. */
  datatype Knowledge = Knowledge(resolved: map<Handle, Outcome>, signals: map<string, seq<Payloads>>)

  const NOTHING := Knowledge(map[], map[])

  datatype Counters = Counters(activity: nat, timer: nat, child: nat, nexus: nat,
                               signals: nat, upserts: nat, sideEffects: nat, locals: nat)

  const ZERO := Counters(0, 0, 0, 0, 0, 0, 0, 0)

  datatype Phase = Running(op: Op) | Finished(how: Closing)

  datatype Machine = Machine(
    log: seq<Input>,             // everything the body has been told
    phase: Phase,
    counters: Counters,
    futures: set<Handle>,        // futures the body holds
    cancelled: set<string>,      // timers it has cancelled
    cursors: map<string, nat>,   // signals consumed, by name
    handlers: set<string>,       // registered update handlers
    trace: seq<Command>)         // every command so far, in order

  function Init(env: Env): Machine {
    Machine([], Running(env.body([])), ZERO, {}, {}, map[], {}, [])
  }

  function CounterOf(c: Counters, kind: FutureKind): nat {
    match kind
    case Activity => c.activity
    case Timer => c.timer
    case Child => c.child
    case Nexus => c.nexus
  }

  function Bump(c: Counters, kind: FutureKind): Counters {
    match kind
    case Activity => c.(activity := c.activity + 1)
    case Timer => c.(timer := c.timer + 1)
    case Child => c.(child := c.child + 1)
    case Nexus => c.(nexus := c.nexus + 1)
  }

  function NextHandle(env: Env, m: Machine, kind: FutureKind): Handle {
    HandleOf(env.workflowId, kind, CounterOf(m.counters, kind))
  }

  function Pending(k: Knowledge, name: string): seq<Payloads> {
    GetOr(k.signals, name, [])
  }

  function Cursor(m: Machine, name: string): nat {
    GetOr(m.cursors, name, 0)
  }

  predicate Ready(k: Knowledge, m: Machine, h: Handle) {
    h in m.futures && (h in k.resolved || (h.kind == Timer && h.id in m.cancelled))
  }

  /** A timer carries no value, whether it fired or was cancelled. */
  function OutcomeAt(k: Knowledge, m: Machine, h: Handle): Outcome
    requires Ready(k, m, h)
  {
    if h.kind == Timer then QUIET else k.resolved[h]
  }

  predicate Parked(k: Knowledge, m: Machine) {
    m.phase.Running? &&
    ((m.phase.op.Get? && !Ready(k, m, m.phase.op.future)) ||
     (m.phase.op.Receive? && Cursor(m, m.phase.op.name) >= |Pending(k, m.phase.op.name)|))
  }

  /** Nothing more happens under `k`: the body waits or has ended. */
  predicate Settled(k: Knowledge, m: Machine) {
    m.phase.Finished? || Parked(k, m)
  }

  function Tell(env: Env, m: Machine, input: Input): Machine {
    m.(log := m.log + [input], phase := Running(env.body(m.log + [input])))
  }

  function Emit(m: Machine, c: Command): Machine {
    m.(trace := m.trace + [c])
  }

  function End(m: Machine, how: Closing): Machine {
    Emit(m, CloseWorkflow(how)).(phase := Finished(how))
  }

  function Step(env: Env, k: Knowledge, m: Machine): Machine
    requires !Settled(k, m)
  {
    match m.phase.op
    case Schedule(call) =>
      var h := NextHandle(env, m, KindOf(call));
      var m1 := Emit(m, Begin(h.id, call));
      Tell(env, m1.(counters := Bump(m.counters, KindOf(call)), futures := m.futures + {h}), Started(h))
    case Cancel(timer) =>
      if Handle(Timer, timer) !in m.futures || timer in m.cancelled then Tell(env, m, Acknowledged)
      else Tell(env, Emit(m, CancelTimer(timer)).(cancelled := m.cancelled + {timer}), Acknowledged)
    case Signal(workflowId, name, input) =>
      var m1 := Emit(m, SignalExternalWorkflow(workflowId, name, input));
      Tell(env, m1.(counters := m.counters.(signals := m.counters.signals + 1)), Acknowledged)
    case Upsert(attributes) =>
      var m1 := Emit(m, UpsertSearchAttributes(attributes));
      Tell(env, m1.(counters := m.counters.(upserts := m.counters.upserts + 1)), Acknowledged)
    case SideEffect =>
      var v := env.world.side(m.counters.sideEffects);
      var m1 := Emit(m, RecordMarker(SideEffectMarker(v)));
      Tell(env, m1.(counters := m.counters.(sideEffects := m.counters.sideEffects + 1)), Value(v))
    case LocalActivity(_, _) =>
      var o := env.world.local(m.counters.locals);
      var m1 := Emit(m, RecordMarker(LocalActivityMarker(o)));
      Tell(env, m1.(counters := m.counters.(locals := m.counters.locals + 1)), Resolved(o))
    case SetUpdateHandler(name) => Tell(env, m.(handlers := m.handlers + {name}), Acknowledged)
    case Get(h) => Tell(env, m, Resolved(OutcomeAt(k, m, h)))
    case Receive(name) =>
      var c := Cursor(m, name);
      Tell(env, m.(cursors := m.cursors[name := c + 1]), Received(Pending(k, name)[c]))
    case Close(how) => End(m, how)
  }

  /** An update handler runs against the parked body: it changes the body's state but not the
      operation the body is waiting in. */
  function RunUpdate(m: Machine, name: string, args: Payloads): Machine {
    if m.phase.Running? && name in m.handlers then m.(log := m.log + [Updated(name, args)]) else m
  }

  /** At most `n` steps, stopping where the knowledge runs out. */
  function Iterate(env: Env, k: Knowledge, m: Machine, n: nat): Machine
    decreases n
  {
    if n == 0 || Settled(k, m) then m else Iterate(env, k, Step(env, k, m), n - 1)
  }

  /** Resumed under `k`, the body of `m` comes to rest in `end`. */
  ghost predicate Settles(env: Env, k: Knowledge, m: Machine, end: Machine) {
    Settled(k, end) && exists n: nat :: Iterate(env, k, m, n) == end
  }

  /** Resumed under `k`, the body of `m` comes to rest within `budget` operations. */
  predicate Fits(env: Env, k: Knowledge, m: Machine, budget: nat) {
    Settled(k, Iterate(env, k, m, budget))
  }

  lemma FitsSettles(env: Env, k: Knowledge, m: Machine, budget: nat)
    requires Fits(env, k, m, budget)
    ensures Settles(env, k, m, Iterate(env, k, m, budget))
  {
  }

  // ---- Knowledge only grows ------------------------------------------------------------------

  /** `k2` knows everything `k1` knows: same outcomes, and signal queues that only gained entries. */
  ghost predicate Extends(k1: Knowledge, k2: Knowledge) {
    (forall h :: h in k1.resolved ==> h in k2.resolved && k2.resolved[h] == k1.resolved[h]) &&
    (forall name :: Pending(k1, name) <= Pending(k2, name))
  }

  lemma StepMonotone(env: Env, k1: Knowledge, k2: Knowledge, m: Machine)
    requires Extends(k1, k2) && !Settled(k1, m)
    ensures !Settled(k2, m) && Step(env, k2, m) == Step(env, k1, m)
  {
    if m.phase.op.Receive? {
      assert Pending(k1, m.phase.op.name) <= Pending(k2, m.phase.op.name);
    }
  }

  lemma {:induction false} IterateSplit(env: Env, k: Knowledge, m: Machine, a: nat, b: nat)
    ensures Iterate(env, k, m, a + b) == Iterate(env, k, Iterate(env, k, m, a), b)
    decreases a
  {
    hide Step, Settled;
    if a > 0 && !Settled(k, m) {
      IterateSplit(env, k, Step(env, k, m), a - 1, b);
    }
  }

  /** A run under less knowledge is also a run under more. */
  lemma {:induction false} IterateMonotone(env: Env, k1: Knowledge, k2: Knowledge, m: Machine, n: nat) returns (t: nat)
    requires Extends(k1, k2)
    ensures t <= n && Iterate(env, k2, m, t) == Iterate(env, k1, m, n)
    decreases n
  {
    hide Step, Settled, Extends;
    if n == 0 || Settled(k1, m) {
      t := 0;
    } else {
      StepMonotone(env, k1, k2, m);
      t := IterateMonotone(env, k1, k2, Step(env, k1, m), n - 1);
      t := t + 1;
    }
  }

  lemma {:induction false} SettledIsFinal(env: Env, k: Knowledge, m: Machine, n: nat, more: nat)
    requires Settled(k, Iterate(env, k, m, n)) && n <= more
    ensures Iterate(env, k, m, more) == Iterate(env, k, m, n)
  {
    IterateSplit(env, k, m, n, more - n);
  }

  lemma SettlesUnique(env: Env, k: Knowledge, m: Machine, a: Machine, b: Machine)
    requires Settles(env, k, m, a) && Settles(env, k, m, b)
    ensures a == b
  {
    var i: nat :| Iterate(env, k, m, i) == a;
    var j: nat :| Iterate(env, k, m, j) == b;
    if i <= j {
      SettledIsFinal(env, k, m, i, j);
    } else {
      SettledIsFinal(env, k, m, j, i);
    }
  }

  /** If the body comes to rest with more knowledge then it comes to rest with less, no later. */
  lemma {:induction false} SettlesSooner(env: Env, k1: Knowledge, k2: Knowledge, m: Machine, n: nat) returns (t: nat)
    requires Extends(k1, k2) && Settled(k2, Iterate(env, k2, m, n))
    ensures t <= n && Settled(k1, Iterate(env, k1, m, t))
    decreases n
  {
    hide Step, Settled, Extends;
    if Settled(k1, m) {
      t := 0;
    } else {
      StepMonotone(env, k1, k2, m);
      t := SettlesSooner(env, k1, k2, Step(env, k1, m), n - 1);
      t := t + 1;
    }
  }

  /** Stopping on the way does not matter: resuming under `k1` and then under `k2` rests exactly
      where resuming under `k2` at once does. */
  lemma Absorption(env: Env, k1: Knowledge, k2: Knowledge, m: Machine, mid: Machine, end: Machine)
    requires Extends(k1, k2) && Settles(env, k1, m, mid)
    ensures Settles(env, k2, mid, end) <==> Settles(env, k2, m, end)
  {
    var n: nat :| Iterate(env, k1, m, n) == mid;
    var t := IterateMonotone(env, k1, k2, m, n);
    if Settles(env, k2, mid, end) {
      var i: nat :| Iterate(env, k2, mid, i) == end;
      IterateSplit(env, k2, m, t, i);
    }
    if Settles(env, k2, m, end) {
      var j: nat :| Iterate(env, k2, m, j) == end;
      SettledIsFinal(env, k2, m, j, t + j);
      IterateSplit(env, k2, m, t, j);
    }
  }

  /** With less knowledge there is a resting place too. */
  lemma RestsOnTheWay(env: Env, k1: Knowledge, k2: Knowledge, m: Machine, end: Machine) returns (mid: Machine)
    requires Extends(k1, k2) && Settles(env, k2, m, end)
    ensures Settles(env, k1, m, mid) && Settles(env, k2, mid, end)
  {
    var n: nat :| Iterate(env, k2, m, n) == end;
    var t := SettlesSooner(env, k1, k2, m, n);
    mid := Iterate(env, k1, m, t);
    Absorption(env, k1, k2, m, mid, end);
  }

  lemma {:induction false} IterateExtendsTrace(env: Env, k: Knowledge, m: Machine, n: nat)
    ensures m.trace <= Iterate(env, k, m, n).trace
    decreases n
  {
    hide Settled;
    if n > 0 && !Settled(k, m) {
      StepTrace(env, k, m);
      IterateExtendsTrace(env, k, Step(env, k, m), n - 1);
    }
  }

  /** Confluence: what is produced with less knowledge is a prefix of what is produced with more,
      and the order in which two independent pieces of knowledge arrive does not matter. */
  lemma Confluence(env: Env, k: Knowledge, ka: Knowledge, kb: Knowledge, kab: Knowledge,
                   m: Machine, a: Machine, b: Machine, end: Machine)
    requires Extends(k, ka) && Extends(k, kb) && Extends(ka, kab) && Extends(kb, kab)
    requires Settles(env, ka, m, a) && Settles(env, kb, m, b) && Settles(env, kab, m, end)
    ensures a.trace <= end.trace && b.trace <= end.trace
    ensures Settles(env, kab, a, end) && Settles(env, kab, b, end)
  {
    Absorption(env, ka, kab, m, a, end);
    Absorption(env, kb, kab, m, b, end);
    var i: nat :| Iterate(env, kab, a, i) == end;
    IterateExtendsTrace(env, kab, a, i);
    var j: nat :| Iterate(env, kab, b, j) == end;
    IterateExtendsTrace(env, kab, b, j);
  }

  // ---- What every run keeps ------------------------------------------------------------------

  datatype Tally = Signals | Upserts | SideEffects | Locals | Nexuses

  predicate Counted(tally: Tally, c: Command) {
    match tally
    case Signals => c.SignalExternalWorkflow?
    case Upserts => c.UpsertSearchAttributes?
    case SideEffects => c.IsSideEffect()
    case Locals => c.IsLocalActivity()
    case Nexuses => c.Begin? && c.call.NexusCall?
  }

  function Count(tally: Tally, trace: seq<Command>): nat {
    if trace == [] then 0
    else Count(tally, trace[..|trace| - 1]) + if Counted(tally, trace[|trace| - 1]) then 1 else 0
  }

  /** The futures the commands of a trace created. */
  function Handles(trace: seq<Command>): set<Handle> {
    if trace == [] then {}
    else Handles(trace[..|trace| - 1]) +
         if trace[|trace| - 1].Begin? then {trace[|trace| - 1].Future()} else {}
  }

  /** The timers the commands of a trace cancelled. */
  function Cancels(trace: seq<Command>): set<string> {
    if trace == [] then {}
    else Cancels(trace[..|trace| - 1]) +
         if trace[|trace| - 1].CancelTimer? then {trace[|trace| - 1].id} else {}
  }

  lemma AppendCommand(trace: seq<Command>, c: Command)
    ensures Handles(trace + [c]) == Handles(trace) + if c.Begin? then {c.Future()} else {}
    ensures Cancels(trace + [c]) == Cancels(trace) + if c.CancelTimer? then {c.id} else {}
    ensures forall tally :: Count(tally, trace + [c]) == Count(tally, trace) + if Counted(tally, c) then 1 else 0
  {
    assert (trace + [c])[..|trace|] == trace;
  }

  lemma {:induction false} PrefixMonotone(a: seq<Command>, b: seq<Command>)
    requires a <= b
    ensures Handles(a) <= Handles(b) && Cancels(a) <= Cancels(b)
    ensures forall tally :: Count(tally, a) <= Count(tally, b)
  {
    if |a| < |b| {
      PrefixMonotone(a, b[..|b| - 1]);
    } else {
      assert a == b;
    }
  }

  /** Count-keyed commands carry their ordinal, and values come from the world at that ordinal. */
  ghost predicate WellNumbered(env: Env, trace: seq<Command>) {
    forall i :: 0 <= i < |trace| ==> WellNumberedAt(env, trace, i)
  }

  ghost predicate WellNumberedAt(env: Env, trace: seq<Command>, i: nat)
    requires i < |trace|
  {
    (trace[i].Begin? && trace[i].call.NexusCall? ==> trace[i].id == Decimal(Count(Nexuses, trace[..i]))) &&
    (trace[i].IsSideEffect() ==> trace[i].marker.data == env.world.side(Count(SideEffects, trace[..i]))) &&
    (trace[i].IsLocalActivity() ==> trace[i].marker.outcome == env.world.local(Count(Locals, trace[..i])))
  }

  ghost predicate Minted(env: Env, c: Counters, h: Handle) {
    exists n: nat :: n < CounterOf(c, h.kind) && h == HandleOf(env.workflowId, h.kind, n)
  }

  /** Sets and counters are determined by the trace. */
  ghost predicate Tallied(m: Machine) {
    m.futures == Handles(m.trace) &&
    m.cancelled == Cancels(m.trace) &&
    m.counters.signals == Count(Signals, m.trace) &&
    m.counters.upserts == Count(Upserts, m.trace) &&
    m.counters.sideEffects == Count(SideEffects, m.trace) &&
    m.counters.locals == Count(Locals, m.trace) &&
    m.counters.nexus == Count(Nexuses, m.trace)
  }

  ghost predicate AllMinted(env: Env, m: Machine) {
    forall h :: h in m.futures ==> Minted(env, m.counters, h)
  }

  /** A terminal command is the last one, and the body has ended exactly when there is one. */
  ghost predicate EndsOnce(m: Machine) {
    (m.phase.Finished? ==> m.trace != [] && m.trace[|m.trace| - 1] == CloseWorkflow(m.phase.how)) &&
    (forall i :: 0 <= i < |m.trace| && m.trace[i].CloseWorkflow? ==> m.phase.Finished? && i == |m.trace| - 1)
  }

  /** Only timers the body holds are cancelled. */
  ghost predicate CancelsHeld(m: Machine) {
    forall id :: id in m.cancelled ==> Handle(Timer, id) in m.futures
  }

  /** The bookkeeping invariant of every run. */
  ghost predicate Consistent(env: Env, m: Machine) {
    Tallied(m) && AllMinted(env, m) && WellNumbered(env, m.trace) && EndsOnce(m) && CancelsHeld(m)
  }

  lemma WellNumberedAppend(env: Env, trace: seq<Command>, c: Command)
    requires WellNumbered(env, trace)
    requires WellNumberedAt(env, trace + [c], |trace|)
    ensures WellNumbered(env, trace + [c])
  {
    forall i | 0 <= i < |trace + [c]|
      ensures WellNumberedAt(env, trace + [c], i)
    {
      if i < |trace| {
        assert WellNumberedAt(env, trace, i);
        assert (trace + [c])[..i] == trace[..i];
      }
    }
  }

  lemma WellNumberedPrefix(env: Env, a: seq<Command>, b: seq<Command>)
    requires a <= b && WellNumbered(env, b)
    ensures WellNumbered(env, a)
  {
    forall i | 0 <= i < |a|
      ensures WellNumberedAt(env, a, i)
    {
      assert WellNumberedAt(env, b, i);
      assert a[..i] == b[..i];
    }
  }

  lemma InitConsistent(env: Env)
    ensures Consistent(env, Init(env))
  {
  }

  /** The next handle of a kind is new: no future of the body has it yet. */
  lemma NextHandleIsNew(env: Env, m: Machine, kind: FutureKind)
    requires Consistent(env, m)
    ensures NextHandle(env, m, kind) !in m.futures
  {
    var h := NextHandle(env, m, kind);
    if h in m.futures {
      assert Minted(env, m.counters, h);
      var n: nat :| n < CounterOf(m.counters, h.kind) && h == HandleOf(env.workflowId, h.kind, n);
      IdsDistinct(env.workflowId, kind, n, CounterOf(m.counters, kind));
    }
  }

  /** The command a step appends to the trace, if any. */
  function StepCommand(env: Env, k: Knowledge, m: Machine): Option<Command>
    requires !Settled(k, m)
  {
    match m.phase.op
    case Schedule(call) => Some(Begin(NextHandle(env, m, KindOf(call)).id, call))
    case Cancel(timer) =>
      if Handle(Timer, timer) !in m.futures || timer in m.cancelled then None else Some(CancelTimer(timer))
    case Signal(workflowId, name, input) => Some(SignalExternalWorkflow(workflowId, name, input))
    case Upsert(attributes) => Some(UpsertSearchAttributes(attributes))
    case SideEffect => Some(RecordMarker(SideEffectMarker(env.world.side(m.counters.sideEffects))))
    case LocalActivity(_, _) => Some(RecordMarker(LocalActivityMarker(env.world.local(m.counters.locals))))
    case Close(how) => Some(CloseWorkflow(how))
    case _ => None
  }

  lemma StepTrace(env: Env, k: Knowledge, m: Machine)
    requires !Settled(k, m)
    ensures Step(env, k, m).trace ==
              m.trace + match StepCommand(env, k, m) case Some(c) => [c] case None => []
  {
  }

  lemma MintedMonotone(env: Env, c: Counters, d: Counters, h: Handle)
    requires Minted(env, c, h)
    requires CounterOf(c, h.kind) <= CounterOf(d, h.kind)
    ensures Minted(env, d, h)
  {
  }

  /** `m'` has booked the command `c` on top of `m`. */
  ghost predicate Booked(m: Machine, c: Command, m': Machine) {
    m'.trace == m.trace + [c] &&
    m'.futures == m.futures + (if c.Begin? then {c.Future()} else {}) &&
    m'.cancelled == m.cancelled + (if c.CancelTimer? then {c.id} else {}) &&
    m'.counters.signals == m.counters.signals + (if Counted(Signals, c) then 1 else 0) &&
    m'.counters.upserts == m.counters.upserts + (if Counted(Upserts, c) then 1 else 0) &&
    m'.counters.sideEffects == m.counters.sideEffects + (if Counted(SideEffects, c) then 1 else 0) &&
    m'.counters.locals == m.counters.locals + (if Counted(Locals, c) then 1 else 0) &&
    m'.counters.nexus == m.counters.nexus + (if Counted(Nexuses, c) then 1 else 0)
  }

  lemma StepBooks(env: Env, k: Knowledge, m: Machine)
    requires !Settled(k, m)
    ensures var m' := Step(env, k, m);
            match StepCommand(env, k, m)
            case Some(c) => Booked(m, c, m')
            case None => m'.trace == m.trace && m'.futures == m.futures && m'.cancelled == m.cancelled &&
                         m'.counters == m.counters
  {
  }

  lemma BookedTallied(m: Machine, c: Command, m': Machine)
    requires Tallied(m) && Booked(m, c, m')
    ensures Tallied(m')
  {
    AppendCommand(m.trace, c);
  }

  lemma StepTallied(env: Env, k: Knowledge, m: Machine)
    requires Tallied(m) && !Settled(k, m)
    ensures Tallied(Step(env, k, m))
  {
    StepBooks(env, k, m);
    var m' := Step(env, k, m);
    match StepCommand(env, k, m)
    case None =>
    case Some(c) => BookedTallied(m, c, m');
  }

  lemma StepMinted(env: Env, k: Knowledge, m: Machine)
    requires AllMinted(env, m) && !Settled(k, m)
    ensures AllMinted(env, Step(env, k, m))
  {
    var m' := Step(env, k, m);
    forall h | h in m'.futures
      ensures Minted(env, m'.counters, h)
    {
      if h in m.futures {
        MintedMonotone(env, m.counters, m'.counters, h);
      } else {
        var kind := KindOf(m.phase.op.call);
        assert h == HandleOf(env.workflowId, kind, CounterOf(m.counters, kind));
      }
    }
  }

  lemma StepNumbered(env: Env, k: Knowledge, m: Machine)
    requires Tallied(m) && WellNumbered(env, m.trace) && !Settled(k, m)
    ensures WellNumbered(env, Step(env, k, m).trace)
  {
    StepTrace(env, k, m);
    match StepCommand(env, k, m)
    case None =>
      assert Step(env, k, m).trace == m.trace;
    case Some(c) =>
      assert (m.trace + [c])[..|m.trace|] == m.trace;
      WellNumberedAppend(env, m.trace, c);
  }

  lemma StepEnds(env: Env, k: Knowledge, m: Machine)
    requires EndsOnce(m) && !Settled(k, m)
    ensures EndsOnce(Step(env, k, m))
  {
    StepTrace(env, k, m);
  }

  lemma StepCancels(env: Env, k: Knowledge, m: Machine)
    requires CancelsHeld(m) && !Settled(k, m)
    ensures CancelsHeld(Step(env, k, m))
  {
  }

  lemma StepConsistent(env: Env, k: Knowledge, m: Machine)
    requires Consistent(env, m) && !Settled(k, m)
    ensures Consistent(env, Step(env, k, m))
  {
    StepTallied(env, k, m);
    StepMinted(env, k, m);
    StepNumbered(env, k, m);
    StepEnds(env, k, m);
    StepCancels(env, k, m);
  }

  lemma {:induction false} IterateConsistent(env: Env, k: Knowledge, m: Machine, n: nat)
    requires Consistent(env, m)
    ensures Consistent(env, Iterate(env, k, m, n))
    decreases n
  {
    if n > 0 && !Settled(k, m) {
      StepConsistent(env, k, m);
      IterateConsistent(env, k, Step(env, k, m), n - 1);
    }
  }

  lemma SettlesKeeps(env: Env, k: Knowledge, m: Machine, end: Machine)
    requires Consistent(env, m) && Settles(env, k, m, end)
    ensures Consistent(env, end) && m.trace <= end.trace
  {
    var n: nat :| Iterate(env, k, m, n) == end;
    IterateConsistent(env, k, m, n);
    IterateExtendsTrace(env, k, m, n);
  }
}
