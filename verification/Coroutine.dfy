/** The turn handshake of `Coroutine` (src/internal/coroutine.cpp) as interleaved steps of its two
    threads. A step is one critical section, up to the unlock or the wait; a thread that waits is
    asleep until it is notified (or wakes spuriously), and then takes the mutex and looks again. */
module CoroutineProtocol {

  datatype Turn = Controller | Coroutine

  /** Where the body's thread is. */
  datatype BodyAt =
    | Starting                    // about to lock in RunBody
    | AwaitFirst(asleep: bool)    // waiting for the first Resume
    | CheckAbort                  // has the turn, reads abort_ before running the body
    | Running                     // user code
    | Yielding                    // about to lock in Yield
    | AwaitTurn(asleep: bool)     // waiting in Yield
    | Unwinding                   // CoroutineAbort is travelling through user code
    | Finishing                   // about to lock at the end of RunBody
    | Exited

  /** Where the controlling thread is. */
  datatype ControllerAt =
    | Outside                     // its own code, between calls
    | Resuming                    // about to lock in Resume
    | AwaitBack(asleep: bool)     // waiting in Resume
    | Destroying                  // about to lock in the destructor
    | AwaitUnwound(asleep: bool)  // waiting in the destructor
    | Joining
    | Gone

  /** `resumes` counts the Resume calls that found the coroutine not done, `bursts` the times the body
      was let run. */
  datatype State = State(turn: Turn, done: bool, abort: bool, body: BodyAt, controller: ControllerAt,
                         resumes: nat, bursts: nat)

  const START := State(Controller, false, false, Starting, Outside, 0, 0)

  datatype Move =
    | BodyGoes          // the body's thread takes its next step, if it has only one
    | BodyYields        // user code calls Yield, in the course of unwinding too
    | BodyEnds          // user code returns or throws
    | BodySwallows      // user code catches CoroutineAbort and carries on
    | ControllerGoes
    | CallResume
    | CallDestroy
    | WakeBody          // spurious
    | WakeController    // spurious

  // ---- Steps -------------------------------------------------------------------------------------

  function NotifyBody(b: BodyAt): BodyAt {
    match b
    case AwaitFirst(_) => AwaitFirst(false)
    case AwaitTurn(_) => AwaitTurn(false)
    case _ => b
  }

  function NotifyController(c: ControllerAt): ControllerAt {
    match c
    case AwaitBack(_) => AwaitBack(false)
    case AwaitUnwound(_) => AwaitUnwound(false)
    case _ => c
  }

  predicate BodyEnabled(s: State) {
    match s.body
    case AwaitFirst(asleep) => !asleep
    case AwaitTurn(asleep) => !asleep
    case Running | Exited => false
    case _ => true
  }

  function BodyStep(s: State): State
    requires BodyEnabled(s)
  {
    match s.body
    case Starting | AwaitFirst(_) =>
      if s.turn == Coroutine then s.(body := CheckAbort) else s.(body := AwaitFirst(true))
    case CheckAbort =>
      if s.abort then s.(body := Finishing) else s.(body := Running, bursts := s.bursts + 1)
    case Yielding =>
      s.(turn := Controller, controller := NotifyController(s.controller), body := AwaitTurn(true))
    case AwaitTurn(_) =>
      if s.turn != Coroutine then s.(body := AwaitTurn(true))
      else if s.abort then s.(body := Unwinding)
      else s.(body := Running, bursts := s.bursts + 1)
    case Unwinding => s.(body := Finishing)
    case Finishing =>
      s.(done := true, turn := Controller, controller := NotifyController(s.controller), body := Exited)
  }

  predicate ControllerEnabled(s: State) {
    match s.controller
    case AwaitBack(asleep) => !asleep
    case AwaitUnwound(asleep) => !asleep
    case Resuming | Destroying => true
    case Joining => s.body.Exited?
    case Outside | Gone => false
  }

  function ControllerStep(s: State): State
    requires ControllerEnabled(s)
  {
    match s.controller
    case Resuming =>
      if s.done then s.(controller := Outside)
      else s.(turn := Coroutine, body := NotifyBody(s.body), controller := AwaitBack(true), resumes := s.resumes + 1)
    case AwaitBack(_) => s.(controller := if s.turn == Controller then Outside else AwaitBack(true))
    case Destroying =>
      if s.done then s.(controller := Joining)
      else s.(abort := true, turn := Coroutine, body := NotifyBody(s.body), controller := AwaitUnwound(true))
    case AwaitUnwound(_) => s.(controller := if s.turn == Controller then Joining else AwaitUnwound(true))
    case Joining => s.(controller := Gone)
  }

  predicate Enabled(s: State, move: Move) {
    match move
    case BodyGoes => BodyEnabled(s)
    case BodyYields => s.body.Running? || s.body.Unwinding?
    case BodyEnds => s.body.Running?
    case BodySwallows => s.body.Unwinding?
    case ControllerGoes => ControllerEnabled(s)
    case CallResume | CallDestroy => s.controller.Outside?
    case WakeBody => s.body.AwaitFirst? || s.body.AwaitTurn?
    case WakeController => s.controller.AwaitBack? || s.controller.AwaitUnwound?
  }

  function Step(s: State, move: Move): State
    requires Enabled(s, move)
  {
    match move
    case BodyGoes => BodyStep(s)
    case BodyYields => s.(body := Yielding)
    case BodyEnds => s.(body := Finishing)
    case BodySwallows => s.(body := Running)
    case ControllerGoes => ControllerStep(s)
    case CallResume => s.(controller := Resuming)
    case CallDestroy => s.(controller := Destroying)
    case WakeBody => s.(body := NotifyBody(s.body))
    case WakeController => s.(controller := NotifyController(s.controller))
  }

  /** `moves` leads from the start to `s`, whatever the body does. */
  ghost predicate Reaches(moves: seq<Move>, s: State)
    decreases |moves|
  {
    if moves == [] then s == START
    else exists before :: LastMove(moves, before, s) && Reaches(moves[..|moves| - 1], before)
  }

  ghost predicate LastMove(moves: seq<Move>, before: State, after: State)
    requires moves != []
  {
    Enabled(before, moves[|moves| - 1]) && after == Step(before, moves[|moves| - 1])
  }

  // ---- The invariant -----------------------------------------------------------------------------

  /** The body's thread is in, or on its way into or out of, user code. */
  predicate HasTurn(b: BodyAt) {
    b.CheckAbort? || b.Running? || b.Yielding? || b.Unwinding? || b.Finishing?
  }

  predicate InUserCode(b: BodyAt) {
    b.Running? || b.Unwinding?
  }

  /** A Resume is under way whose burst has not begun. */
  predicate BurstDue(s: State) {
    s.controller.AwaitBack? && s.turn == Coroutine && !s.body.Running? && !s.body.Yielding? && !s.body.Finishing?
  }

  predicate Invariant(s: State) {
    (s.done <==> s.body.Exited?) &&
    (s.turn == Coroutine ==> (s.controller.AwaitBack? || s.controller.AwaitUnwound?) && !s.done) &&
    (HasTurn(s.body) ==> s.turn == Coroutine) &&
    (s.abort ==> s.controller.AwaitUnwound? || s.controller.Joining? || s.controller.Gone?) &&
    (s.controller.AwaitUnwound? ==> s.abort) &&
    (s.body.Unwinding? ==> s.abort) &&
    // no wake-up is lost: a thread whose turn it is does not sleep
    (s.turn == Coroutine ==> s.body != AwaitFirst(true) && s.body != AwaitTurn(true)) &&
    (s.turn == Controller ==> s.controller != AwaitBack(true) && s.controller != AwaitUnwound(true)) &&
    s.resumes == s.bursts + (if BurstDue(s) then 1 else 0)
  }

  /** The abort, if it is under way, finds a body that gives the turn back only by ending. */
  predicate Unwound(s: State) {
    (s.abort && !s.body.Exited? ==> s.turn == Coroutine && !s.body.Yielding?) &&
    (s.controller.Joining? || s.controller.Gone? ==> s.body.Exited?)
  }

  /** The body has yielded although the abort had reached it: nobody will give it the turn again. */
  predicate Doomed(s: State) {
    s.abort &&
    ((s.body.Yielding? && s.turn == Coroutine && s.controller.AwaitUnwound?) ||
     (s.body.AwaitTurn? && s.turn == Controller && (s.controller.AwaitUnwound? || s.controller.Joining?)))
  }

  lemma StepKeeps(s: State, move: Move)
    requires Invariant(s) && Enabled(s, move)
    ensures Invariant(Step(s, move))
    ensures Unwound(s) && !(move.BodyYields? && s.abort) ==> Unwound(Step(s, move))
    ensures Unwound(s) && move.BodyYields? && s.abort ==> Doomed(Step(s, move))
    ensures Doomed(s) ==> Doomed(Step(s, move))
  {
  }

  lemma {:induction false} Always(moves: seq<Move>, s: State)
    requires Reaches(moves, s)
    ensures Invariant(s) && (Unwound(s) || Doomed(s))
  {
    if moves != [] {
      var before :| LastMove(moves, before, s) && Reaches(moves[..|moves| - 1], before);
      Always(moves[..|moves| - 1], before);
      StepKeeps(before, moves[|moves| - 1]);
    }
  }

  // ---- What the engine relies on -----------------------------------------------------------------

  /** In every interleaving the two threads are never both in user code; when the controller has
      control back, each of its resumes has given exactly one burst; and a coroutine that is done
      stays done, the turn with the controller. */
  lemma Exclusion(moves: seq<Move>, s: State)
    requires Reaches(moves, s)
    ensures !(InUserCode(s.body) && (s.controller.Outside? || s.controller.Resuming? || s.controller.Destroying?))
    ensures s.controller.Outside? ==> s.bursts == s.resumes
    ensures s.done ==> s.turn == Controller &&
                       forall move :: Enabled(s, move) ==> Step(s, move).done && Step(s, move).turn == Controller
  {
    Always(moves, s);
    forall move | s.done && Enabled(s, move)
      ensures Step(s, move).done && Step(s, move).turn == Controller
    {
      StepKeeps(s, move);
    }
  }

  // ---- Progress and teardown ---------------------------------------------------------------------

  /** A step that is more than a thread looking once too often. */
  predicate Useful(s: State, move: Move)
    requires Enabled(s, move)
  {
    match move
    case WakeBody | WakeController => false
    case BodyGoes => (s.body.AwaitFirst? || s.body.AwaitTurn?) ==> s.turn == Coroutine
    case ControllerGoes => (s.controller.AwaitBack? || s.controller.AwaitUnwound?) ==> s.turn == Controller
    case _ => true
  }

  /** The step that brings a pending Resume or destructor on. */
  function Onward(s: State): Move {
    if s.controller.Resuming? || s.controller.Destroying? || s.controller.Joining? then ControllerGoes
    else if s.turn == Controller then ControllerGoes
    else if s.body.Running? then BodyEnds
    else BodyGoes
  }

  /** No deadlock: while a Resume or the destructor is pending some useful step is possible, so the
      threads never both wait, unless the body has yielded to its own abort. */
  lemma NeverStuck(moves: seq<Move>, s: State)
    requires Reaches(moves, s) && !Doomed(s) && !s.controller.Outside? && !s.controller.Gone?
    ensures Enabled(s, Onward(s)) && Useful(s, Onward(s)) && !Onward(s).BodyYields?
  {
    Always(moves, s);
  }

  /** How far the destructor is from its end. */
  function Distance(s: State): nat {
    (match s.controller
     case Destroying => 20
     case AwaitUnwound(_) => 10
     case Joining => 1
     case _ => 0) +
    (match s.body
     case Starting => 7
     case AwaitFirst(_) => 6
     case AwaitTurn(_) => 6
     case CheckAbort => 5
     case Unwinding => 5
     case Finishing => 3
     case Exited => 0
     case _ => 4)
  }

  predicate TearingDown(s: State) {
    s.controller.Destroying? || s.controller.AwaitUnwound? || s.controller.Joining?
  }

  /** From every state the destructor can find (never started, suspended, done, and after that whether
      the abort is unwinding or was caught), every useful step but a yield brings its end closer and no
      other moves it away. */
  lemma TeardownEnds(moves: seq<Move>, s: State, move: Move)
    requires Reaches(moves, s) && TearingDown(s) && !Doomed(s) && Enabled(s, move) && !move.BodyYields?
    ensures (TearingDown(Step(s, move)) || Step(s, move).controller.Gone?) && !Doomed(Step(s, move))
    ensures Distance(Step(s, move)) <= Distance(s)
    ensures Useful(s, move) ==> Distance(Step(s, move)) < Distance(s)
  {
    Always(moves, s);
  }

  lemma ReachesMore(moves: seq<Move>, before: State, move: Move)
    requires Reaches(moves, before) && Enabled(before, move)
    ensures Reaches(moves + [move], Step(before, move))
  {
    assert (moves + [move])[..|moves|] == moves;
    assert LastMove(moves + [move], before, Step(before, move));
  }

  // ---- Which teardowns end -----------------------------------------------------------------------

  /** `more` leads on from `s` to `end`. */
  ghost predicate Leads(s: State, more: seq<Move>, end: State)
    decreases |more|
  {
    if more == [] then s == end else Enabled(s, more[0]) && Leads(Step(s, more[0]), more[1..], end)
  }

  function UsefulSteps(s: State, more: seq<Move>): nat
    decreases |more|
  {
    if more == [] || !Enabled(s, more[0]) then 0
    else UsefulSteps(Step(s, more[0]), more[1..]) + if Useful(s, more[0]) then 1 else 0
  }

  /** The destructor can still come to its end. */
  ghost predicate CanEnd(s: State) {
    exists more, end :: Leads(s, more, end) && end.controller.Gone?
  }

  /** Without a yield a teardown takes at most as many useful steps as its distance says, and since
      until its end one is always possible, it ends. */
  lemma {:induction false} TeardownBounded(moves: seq<Move>, s: State, more: seq<Move>, end: State)
    requires Reaches(moves, s) && TearingDown(s) && !Doomed(s) && Leads(s, more, end) && BodyYields !in more
    ensures UsefulSteps(s, more) + Distance(end) <= Distance(s)
    ensures Reaches(moves + more, end) && !Doomed(end)
    ensures end.controller.Gone? || (TearingDown(end) && Enabled(end, Onward(end)) && Useful(end, Onward(end)))
    decreases |more|
  {
    hide Reaches, Step, Enabled, Useful, Distance, Doomed, Onward, TearingDown;
    if more == [] {
      assert moves + more == moves;
      PendingTeardown(s);
      NeverStuck(moves, s);
    } else {
      TeardownEnds(moves, s, more[0]);
      ReachesMore(moves, s, more[0]);
      var s1 := Step(s, more[0]);
      assert moves + [more[0]] + more[1..] == moves + more;
      if s1.controller.Gone? {
        Always(moves + [more[0]], s1);
        GoneStays(s1, more[1..], end);
        assert more == [more[0]];
      } else {
        TeardownBounded(moves + [more[0]], s1, more[1..], end);
      }
    }
  }

  lemma PendingTeardown(s: State)
    requires TearingDown(s)
    ensures !s.controller.Outside? && !s.controller.Gone?
  {
  }

  /** Once the controller is gone nothing of a torn-down coroutine is left to move. */
  lemma {:induction false} GoneStays(s: State, more: seq<Move>, end: State)
    requires Invariant(s) && Unwound(s) && s.controller.Gone? && Leads(s, more, end)
    ensures end == s && more == []
    decreases |more|
  {
  }

  /** Torn down by useful steps, the coroutine is gone after as many of them as the distance. */
  lemma {:induction false} TeardownReachesEnd(moves: seq<Move>, s: State) returns (more: seq<Move>, end: State)
    requires Reaches(moves, s) && TearingDown(s) && !Doomed(s)
    ensures |more| <= Distance(s) && BodyYields !in more && Leads(s, more, end) && end.controller.Gone?
    decreases Distance(s)
  {
    hide Reaches, Step, Enabled, Useful, Distance, Doomed, Onward, TearingDown;
    PendingTeardown(s);
    NeverStuck(moves, s);
    TeardownEnds(moves, s, Onward(s));
    ReachesMore(moves, s, Onward(s));
    var s1 := Step(s, Onward(s));
    if s1.controller.Gone? {
      more, end := [Onward(s)], s1;
      assert more[1..] == [];
    } else {
      var rest: seq<Move>;
      rest, end := TeardownReachesEnd(moves + [Onward(s)], s1);
      more := [Onward(s)] + rest;
      assert more[1..] == rest;
    }
  }

  /** A body that has yielded to its abort keeps the destructor waiting: nothing leads to its end. */
  lemma {:induction false} DoomedForever(s: State, more: seq<Move>, end: State)
    requires Invariant(s) && Doomed(s) && Leads(s, more, end)
    ensures Doomed(end) && !end.controller.Gone?
    decreases |more|
  {
    if more != [] {
      StepKeeps(s, more[0]);
      DoomedForever(Step(s, more[0]), more[1..], end);
    }
  }

  /** A yield during a teardown is always a yield to the abort. */
  lemma {:induction false} YieldDooms(moves: seq<Move>, s: State, more: seq<Move>, end: State)
    requires Reaches(moves, s) && TearingDown(s) && !Doomed(s) && Leads(s, more, end) && BodyYields in more
    ensures Invariant(end) && Doomed(end)
    decreases |more|
  {
    Always(moves, s);
    StepKeeps(s, more[0]);
    var s1 := Step(s, more[0]);
    if more[0].BodyYields? {
      DoomedForever(s1, more[1..], end);
      LeadsKeeps(s1, more[1..], end);
    } else {
      TeardownEnds(moves, s, more[0]);
      ReachesMore(moves, s, more[0]);
      hide Reaches, Step, Doomed, Distance;
      assert more == [more[0]] + more[1..];
      if s1.controller.Gone? {
        Always(moves + [more[0]], s1);
        GoneStays(s1, more[1..], end);
      } else {
        YieldDooms(moves + [more[0]], s1, more[1..], end);
      }
    }
  }

  lemma {:induction false} LeadsKeeps(s: State, more: seq<Move>, end: State)
    requires Invariant(s) && Leads(s, more, end)
    ensures Invariant(end)
    decreases |more|
  {
    if more != [] {
      StepKeeps(s, more[0]);
      LeadsKeeps(Step(s, more[0]), more[1..], end);
    }
  }

  /** The exact condition, from any moment of a teardown on and however the body behaves: the destructor
      can still end if and only if the body has not yielded since the abort was on its way to it.
      Catching the abort is harmless in itself. */
  lemma TeardownExact(moves: seq<Move>, s: State, more: seq<Move>, end: State)
    requires Reaches(moves, s) && TearingDown(s) && !Doomed(s) && Leads(s, more, end)
    ensures CanEnd(end) <==> BodyYields !in more
  {
    hide Reaches, Step, Enabled, Useful, Distance, Doomed, Onward, TearingDown, Invariant;
    if BodyYields in more {
      YieldDooms(moves, s, more, end);
      if CanEnd(end) {
        var rest, gone :| Leads(end, rest, gone) && gone.controller.Gone?;
        DoomedForever(end, rest, gone);
      }
    } else {
      TeardownBounded(moves, s, more, end);
      if end.controller.Gone? {
        assert Leads(end, [], end);
      } else {
        var rest, gone := TeardownReachesEnd(moves + more, end);
      }
    }
  }

  /** The destructor itself never starts out doomed. */
  lemma DestructorFindsNoneDoomed(moves: seq<Move>, s: State)
    requires Reaches(moves, s) && s.controller.Destroying?
    ensures !Doomed(s) && TearingDown(s)
  {
    Always(moves, s);
  }

  // ---- A body that yields to its abort -------------------------------------------------------------

  /** The destructor waits in `join` for a body that waits for a turn it will never get. */
  predicate Hung(s: State) {
    s.controller.Joining? && s.body.AwaitTurn? && s.turn == Controller
  }

  /** Once hung, nothing but futile wake-ups ever happens. */
  lemma HungForever(s: State, move: Move)
    requires Hung(s) && Enabled(s, move)
    ensures Hung(Step(s, move)) && !Useful(s, move)
  {
  }

  const SWALLOWING: seq<Move> := [CallResume, ControllerGoes, BodyGoes, BodyGoes, BodyYields, BodyGoes, ControllerGoes,
                                  CallDestroy, ControllerGoes, BodyGoes, BodySwallows, BodyYields, BodyGoes, ControllerGoes]

  /** Where those moves lead. */
  const STATES: seq<State> := [
    START,
    START.(controller := Resuming),
    State(Coroutine, false, false, Starting, AwaitBack(true), 1, 0),
    State(Coroutine, false, false, CheckAbort, AwaitBack(true), 1, 0),
    State(Coroutine, false, false, Running, AwaitBack(true), 1, 1),
    State(Coroutine, false, false, Yielding, AwaitBack(true), 1, 1),
    State(Controller, false, false, AwaitTurn(true), AwaitBack(false), 1, 1),
    State(Controller, false, false, AwaitTurn(true), Outside, 1, 1),
    State(Controller, false, false, AwaitTurn(true), Destroying, 1, 1),
    State(Coroutine, false, true, AwaitTurn(false), AwaitUnwound(true), 1, 1),
    State(Coroutine, false, true, Unwinding, AwaitUnwound(true), 1, 1),
    State(Coroutine, false, true, Running, AwaitUnwound(true), 1, 1),
    State(Coroutine, false, true, Yielding, AwaitUnwound(true), 1, 1),
    State(Controller, false, true, AwaitTurn(true), AwaitUnwound(false), 1, 1),
    State(Controller, false, true, AwaitTurn(true), Joining, 1, 1)]

  lemma Leg(i: nat)
    requires i < |SWALLOWING|
    ensures |STATES| == |SWALLOWING| + 1 && Enabled(STATES[i], SWALLOWING[i]) && STATES[i + 1] == Step(STATES[i], SWALLOWING[i])
  {
    if i < 7 {
      assert i == 0 || i == 1 || i == 2 || i == 3 || i == 4 || i == 5 || i == 6;
    } else {
      assert i == 7 || i == 8 || i == 9 || i == 10 || i == 11 || i == 12 || i == 13;
    }
  }

  lemma ReachesStart()
    ensures Reaches([], START)
  {
  }

  lemma {:induction false} Legs(i: nat)
    requires i <= |SWALLOWING|
    ensures |STATES| == |SWALLOWING| + 1 && Reaches(SWALLOWING[..i], STATES[i])
  {
    ReachesStart();
    hide Step, Enabled, Reaches;
    if i == 0 {
      assert SWALLOWING[..i] == [];
    } else {
      Legs(i - 1);
      Leg(i - 1);
      ReachesMore(SWALLOWING[..i - 1], STATES[i - 1], SWALLOWING[i - 1]);
      assert SWALLOWING[..i - 1] + [SWALLOWING[i - 1]] == SWALLOWING[..i];
    }
  }

  /** There are such bodies: one that catches the abort and goes on to wait for something else. */
  lemma SwallowingHangs() returns (s: State)
    ensures Reaches(SWALLOWING, s) && Hung(s)
  {
    hide Reaches;
    Legs(|SWALLOWING|);
    assert SWALLOWING[..|SWALLOWING|] == SWALLOWING;
    s := STATES[|SWALLOWING|];
  }
}
