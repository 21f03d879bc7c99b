/** Which endings of a child workflow reach the body. The engine has cases for a child that completes,
    fails or is cancelled (src/internal/workflow_task_handler.cpp:337-378 and 1318-1347); a child that
    times out, is terminated or cannot be started resolves nothing. */
module ChildEndings {
  import opened Basics
  import opened Workflow
  import opened Machine
  import opened HistoryScan
  import opened ScanFacts
  import opened Engine
  import opened Simulation
  import opened Progress
  import opened Feeding
  import opened Replay
  import opened Continuation
  import opened Guarantees
  import opened Answers
  import opened Cluster

  /** The event says that the child ended in a way the engine has a case for. */
  predicate EndsChild(e: Event, id: string) {
    e.attributes.FutureResolved? && e.attributes.how.ChildResolved? && e.attributes.how.id == id &&
    ChildEndingHandled(e.attributes.how.ending)
  }

  ghost predicate HeardOf(h: History, id: string) {
    exists i :: 0 <= i < |h| && EndsChild(h[i], id)
  }

  lemma HeardLast(h: History, id: string)
    requires h != []
    ensures HeardOf(h, id) <==> HeardOf(h[..|h| - 1], id) || EndsChild(h[|h| - 1], id)
  {
    var past := h[..|h| - 1];
    if HeardOf(past, id) {
      var i :| 0 <= i < |past| && EndsChild(past[i], id);
      assert EndsChild(h[i], id);
    }
    if HeardOf(h, id) && !EndsChild(h[|h| - 1], id) {
      var i :| 0 <= i < |h| && EndsChild(h[i], id);
      assert EndsChild(past[i], id);
    }
  }

  /** Over whole histories: a child's future is known to be resolved exactly if the history holds an
      ending that the engine has a case for. */
  lemma {:induction false} ChildKnown(h: History, id: string)
    ensures Handle(Child, id) in Know(h).resolved <==> HeardOf(h, id)
  {
    if h != [] {
      ChildKnown(h[..|h| - 1], id);
      HeardLast(h, id);
      LearnOne(Know(h[..|h| - 1]), h[..|h| - 1], h[|h| - 1].attributes, Handle(Child, id));
      hide Know, HeardOf, Learn;
      ResolvesChild(h[..|h| - 1], h[|h| - 1], id);
      KnowStep(h, |h| - 1);
      assert h[..|h|] == h;
    }
  }

  /** Only a handled ending names the child's future. */
  lemma ResolvesChild(past: History, e: Event, id: string)
    ensures EndsChild(e, id) <==>
              e.attributes.FutureResolved? && Resolves(past, e.attributes.how).Some? &&
              Resolves(past, e.attributes.how).value.0 == Handle(Child, id)
  {
  }

  /** One event: in every resident runner that holds the child's future unresolved, the ending makes it
      ready if and only if the engine has a case for it. */
  lemma ChildArrives(env: Env, h: History, q: nat, past: seq<Command>, start: nat, r: RunnerState, m: Machine)
    requires Lawful(env, h) && Resident(env, h, q, past, start, r, m) && Writes(m, Recorded(h)) && m.phase.Running?
    requires q < |h| && h[q].attributes.FutureResolved? && h[q].attributes.how.ChildResolved?
    requires Handle(Child, h[q].attributes.how.id) in m.futures && !HeardOf(h[..q], h[q].attributes.how.id)
    ensures var x := Handle(Child, h[q].attributes.how.id);
            x in r.futures && !r.futures[x].ready && x in ApplyEvent(r, h[q]).futures &&
            (ApplyEvent(r, h[q]).futures[x].ready <==> ChildEndingHandled(h[q].attributes.how.ending))
  {
    hide Foreseen, GuardsFutures, GuardsCancels, GuardsCounts, SameWorld, Emitted, Created, Writes, Recorded, Consistent,
         Know, HeardOf, Indexes, Authored, Plausible;
    var how := h[q].attributes.how;
    var x := Handle(Child, how.id);
    ChildKnown(h[..q], how.id);
    assert r.futures[x] == View(Know(h[..q]), m.cancelled, x);
    if ChildEndingHandled(how.ending) {
      ResolutionArrives(env, h, q, past, start, r, m);
    }
  }

  // ---- Waiting for a child -----------------------------------------------------------------------

  ghost predicate WaitsFor(m: Machine, id: string) {
    m.phase == Running(Get(Handle(Child, id)))
  }

  /** A body at rest in `Get` of a child has heard of no ending of it. */
  lemma WaitingHasNotHeard(env: Env, h: History, m: Machine, id: string)
    requires Reaches(env, h, m) && WaitsFor(m, id) && Handle(Child, id) in m.futures
    ensures !HeardOf(h, id)
  {
    hide Reaches, HeardOf, Consistent;
    ReachesKeeps(env, h, m);
    ChildKnown(h, id);
  }

  /** An event that is not a handled ending of the child leaves the body waiting. */
  lemma KeepsWaiting(env: Env, h: History, q: nat, m: Machine, id: string) returns (m': Machine)
    requires q < |h| && Reaches(env, h[..q], m) && WaitsFor(m, id) && Handle(Child, id) in m.futures
    requires !HeardOf(h[..q + 1], id)
    ensures Reaches(env, h[..q + 1], m') && WaitsFor(m', id) && Handle(Child, id) in m'.futures
  {
    hide Reaches, HeardOf;
    var next := h[..q + 1];
    assert next[..|next| - 1] == h[..q];
    ChildKnown(next, id);
    if h[q].attributes.UpdateAccepted? {
      m' := RunUpdate(m, h[q].attributes.name, h[q].attributes.args);
      ReachesNext(env, next, m, m');
    } else {
      m' := m;
      StaysPut(env, h, q, m);
    }
  }

  /** The child's future never resolves for want of a handled ending: the body waits on, whatever else
      happens. */
  lemma {:induction false} WaitsOn(env: Env, h: History, n: nat, m: Machine, id: string, q: nat) returns (m': Machine)
    requires n <= q <= |h| && Reaches(env, h[..n], m) && WaitsFor(m, id) && Handle(Child, id) in m.futures
    requires !HeardOf(h[..q], id)
    ensures Reaches(env, h[..q], m') && WaitsFor(m', id) && Handle(Child, id) in m'.futures
    decreases q
  {
    hide Reaches, HeardOf, WaitsFor;
    if q == n {
      m' := m;
    } else {
      HeardGrows(h, q - 1, q, id);
      var m1 := WaitsOn(env, h, n, m, id, q - 1);
      m' := KeepsWaiting(env, h, q - 1, m1, id);
    }
  }

  lemma HeardGrows(h: History, a: nat, b: nat, id: string)
    requires a <= b <= |h|
    ensures HeardOf(h[..a], id) ==> HeardOf(h[..b], id)
  {
    if HeardOf(h[..a], id) {
      var i :| 0 <= i < |h[..a]| && EndsChild(h[..a][i], id);
      assert EndsChild(h[..b][i], id);
    }
  }

  /** Exactly when a body that waits for a child goes on: in every continuation of its history it still
      waits there if and only if the continuation brings no ending that the engine has a case for. */
  lemma WaitsExactlyUntilHeard(env: Env, h: History, n: nat, m: Machine, id: string)
    requires n <= |h| && Reaches(env, h[..n], m) && WaitsFor(m, id) && Handle(Child, id) in m.futures
    ensures WaitsAfter(env, h, id) <==> !HeardOf(h, id)
  {
    hide Reaches, HeardOf, WaitsFor;
    assert h[..|h|] == h;
    if !HeardOf(h, id) {
      var m' := WaitsOn(env, h, n, m, id, |h|);
      assert Reaches(env, h, m') && WaitsFor(m', id);
    } else if WaitsAfter(env, h, id) {
      var m' :| Reaches(env, h, m') && WaitsFor(m', id);
      StillHeld(env, h, n, m, m', Handle(Child, id));
      WaitingHasNotHeard(env, h, m', id);
    }
  }

  /** Futures are never dropped. */
  lemma StillHeld(env: Env, h: History, n: nat, m: Machine, m': Machine, x: Handle)
    requires n <= |h| && Reaches(env, h[..n], m) && Reaches(env, h, m') && x in m.futures
    ensures x in m'.futures
  {
    hide Reaches, AllMinted, WellNumbered, EndsOnce, CancelsHeld;
    var mid := ReachesPrefix(env, h, m', n);
    ReachesUnique(env, h[..n], m, mid);
    ReachesKeeps(env, h[..n], m);
    ReachesKeeps(env, h, m');
    PrefixMonotone(m.trace, m'.trace);
  }

  /** The server ends a child once. */
  ghost predicate EndsOnceOnly(h: History, id: string) {
    forall i, j :: 0 <= i < |h| && 0 <= j < |h| && Ends(h[i], id) && Ends(h[j], id) ==> i == j
  }

  predicate Ends(e: Event, id: string) {
    e.attributes.FutureResolved? && e.attributes.how.ChildResolved? && e.attributes.how.id == id
  }

  /** A child that has ended in a way the engine has no case for is waited for for ever. */
  lemma LostForever(env: Env, h: History, n: nat, m: Machine, id: string, i: nat) returns (m': Machine)
    requires i < n <= |h| && Reaches(env, h[..n], m) && WaitsFor(m, id) && Handle(Child, id) in m.futures
    requires Ends(h[i], id) && !ChildEndingHandled(h[i].attributes.how.ending) && EndsOnceOnly(h, id)
    ensures Reaches(env, h, m') && WaitsFor(m', id)
  {
    hide Reaches, WaitsFor;
    forall j | 0 <= j < |h|
      ensures !EndsChild(h[j], id)
    {
      assert Ends(h[j], id) ==> i == j;
    }
    assert h[..|h|] == h;
    m' := WaitsOn(env, h, n, m, id, |h|);
  }

  // ---- A child that is lost ----------------------------------------------------------------------

  const LOST := "wf_c0"

  /** Start a child, then wait for it. */
  function WaitingBody(log: seq<Input>): Op {
    if log == [] then Op.Schedule(ChildCall("child", [])) else Get(Handle(Child, LOST))
  }

  function WaitingEnv(): Env {
    Env("wf", WaitingBody, World((i: nat) => "", (i: nat) => QUIET))
  }

  function Waiting(): Machine {
    Machine([Started(Handle(Child, LOST))], Running(Get(Handle(Child, LOST))), ZERO.(child := 1), {Handle(Child, LOST)}, {},
            map[], {}, [Begin(LOST, ChildCall("child", []))])
  }

  lemma WaitingIsReached()
    ensures Reaches(WaitingEnv(), [], Waiting()) && Written(WaitingEnv(), [], Waiting(), 0)
  {
    var env, m := WaitingEnv(), Waiting();
    assert IdOf("wf", Child, 0) == LOST;
    assert Step(env, NOTHING, Init(env)) == m;
    assert Iterate(env, NOTHING, Init(env), 1) == m;
  }

  /** The history of a child that was started and then ended so. */
  function LostHistory(ending: ChildEnding): History {
    Next(Next(Next([], OtherEvent), CommandRecorded(ChildInitiated(LOST, "child"))), FutureResolved(ChildResolved(LOST, ending)))
  }

  lemma StartedHistory()
    ensures var h := Next(Next([], OtherEvent), CommandRecorded(ChildInitiated(LOST, "child")));
            Written(WaitingEnv(), h, Waiting(), 1)
  {
    hide Written;
    var env, m := WaitingEnv(), Waiting();
    WaitingIsReached();
    WrittenNext(env, [], OtherEvent, m, 0);
    assert RecordingOf(m.trace[0]) == ChildInitiated(LOST, "child");
    WrittenNext(env, Next([], OtherEvent), CommandRecorded(ChildInitiated(LOST, "child")), m, 0);
  }

  lemma EndedHistory(env: Env, h: History, m: Machine, n: nat, ending: ChildEnding)
    requires Written(env, h, m, n) && !ChildEndingHandled(ending)
    ensures var h' := Next(h, FutureResolved(ChildResolved(LOST, ending)));
            Lawful(env, h') && Reaches(env, h', m)
  {
    hide Reaches, Lawful, Recorded, Writes, Know;
    var a := FutureResolved(ChildResolved(LOST, ending));
    NextFacts(h, a);
    LawfulArrival(env, h, a);
    ReachesKeeps(env, h, m);
    assert h[..|h|] == h;
    StaysPut(env, Next(h, a), |h|, m);
  }

  /** For each ending without a case: a lawful history after which the body waits for a child that is
      gone, and will in every continuation of that history, as the server ends a child once. */
  lemma LostChild(ending: ChildEnding)
    requires !ChildEndingHandled(ending)
    ensures Lawful(WaitingEnv(), LostHistory(ending)) && Reaches(WaitingEnv(), LostHistory(ending), Waiting())
    ensures WaitsFor(Waiting(), LOST)
    ensures forall h :: LostHistory(ending) <= h && EndsOnceOnly(h, LOST) ==> WaitsAfter(WaitingEnv(), h, LOST)
  {
    hide Lawful, Reaches, Written;
    StartedHistory();
    EndedHistory(WaitingEnv(), Next(Next([], OtherEvent), CommandRecorded(ChildInitiated(LOST, "child"))), Waiting(), 1, ending);
    var h3 := LostHistory(ending);
    assert |h3| == 3 && h3[2] == Event(3, FutureResolved(ChildResolved(LOST, ending)));
    hide LostHistory;
    forall h | h3 <= h && EndsOnceOnly(h, LOST)
      ensures WaitsAfter(WaitingEnv(), h, LOST)
    {
      assert h[..3] == h3 && h[2] == h3[2];
      var m' := LostForever(WaitingEnv(), h, 3, Waiting(), LOST, 2);
    }
  }

  /** The history leads to a body that waits for the child. */
  ghost predicate WaitsAfter(env: Env, h: History, id: string) {
    exists m :: Reaches(env, h, m) && WaitsFor(m, id)
  }
}
