/** Full replay: for every history that the server and the workflow can build together, running the
    prescanned history from scratch rebuilds exactly where the live workflow stood. */
module Replay {
  import opened Basics
  import opened Workflow
  import opened Machine
  import opened HistoryScan
  import opened ScanFacts
  import opened Engine
  import opened Simulation
  import opened Progress
  import opened Feeding
  import D = Determinism

  // ---- Facts about a history -------------------------------------------------------------------

  lemma CreatedLast(h: History)
    requires h != []
    ensures Created(h[..|h| - 1]) <= Created(h)
  {
  }

  lemma {:induction false} CreatedGrows(h: History, n: nat)
    requires n <= |h|
    ensures Created(h[..n]) <= Created(h)
    decreases |h|
  {
    hide Created;
    if n == |h| {
      assert h[..n] == h;
    } else {
      CreatedGrows(h[..|h| - 1], n);
      assert h[..|h| - 1][..n] == h[..n];
      CreatedLast(h);
    }
  }

  /** Only futures that history created are ever resolved. */
  lemma {:induction false} KnownAreCreated(h: History)
    requires Plausible(h)
    ensures Know(h).resolved.Keys <= Created(h)
  {
    if h != [] {
      hide Resolves, CreatedBy;
      PlausiblePrefix(h, |h| - 1);
      KnownAreCreated(h[..|h| - 1]);
      assert PlausibleAt(h, |h| - 1);
    }
  }

  lemma {:induction false} RecordedGrows(h: History, n: nat)
    requires n <= |h|
    ensures Recorded(h[..n]) <= Recorded(h)
    decreases |h|
  {
    if n == |h| {
      assert h[..n] == h;
    } else {
      RecordedGrows(h[..|h| - 1], n);
      assert h[..|h| - 1][..n] == h[..n];
    }
  }

  lemma {:induction false} NoUpdatesYet(h: History)
    requires !SawUpdate(h)
    ensures Updateless(h, 0) && TimelineOf(h) == []
  {
    if h != [] {
      NoUpdatesYet(h[..|h| - 1]);
      forall i | 0 <= i < |h|
        ensures !h[i].attributes.UpdateAccepted?
      {
        assert i < |h| - 1 ==> h[..|h| - 1][i] == h[i];
      }
    }
  }

  lemma {:induction false} BeforeUpdatesIsFirst(h: History)
    ensures !SawUpdate(BeforeUpdates(h))
    ensures forall q :: |BeforeUpdates(h)| < q <= |h| ==> SawUpdate(h[..q])
  {
    if SawUpdate(h) {
      var past := h[..|h| - 1];
      BeforeUpdatesIsFirst(past);
      forall q | |BeforeUpdates(h)| < q <= |h|
        ensures SawUpdate(h[..q])
      {
        if q == |h| {
          assert h[..q] == h;
        } else {
          assert h[..q] == past[..q];
        }
      }
    }
  }

  /** Events that are neither updates nor deferred say nothing that replay waits for. */
  lemma InertEvent(h: History)
    requires h != [] && PlausibleAt(h, |h| - 1)
    requires !h[|h| - 1].attributes.UpdateAccepted? && !IsDeferredOnReplay(h[|h| - 1].attributes)
    ensures Know(h) == Know(h[..|h| - 1])
  {
  }

  lemma UpdateTeachesNothing(h: History)
    requires h != [] && h[|h| - 1].attributes.UpdateAccepted?
    ensures Know(h) == Know(h[..|h| - 1])
  {
  }

  // ---- The recorded commands -------------------------------------------------------------------

  /** The commands behind the recordings of `h`. */
  function RecordedBy(m: Machine, h: History): seq<Command>
    requires Writes(m, Recorded(h))
  {
    m.trace[..|Recorded(h)|]
  }

  lemma WritesExactly(env: Env, m: Machine, h: History)
    requires Writes(m, Recorded(h)) && Consistent(env, m)
    ensures RecordsExactly(h, RecordedBy(m, h)) && WellNumbered(env, RecordedBy(m, h)) && RecordedBy(m, h) <= m.trace
    ensures Created(h) <= m.futures && CanceledTimers(h) <= m.cancelled
  {
    hide Created, Handles, CanceledTimers, Cancels, Recorded, Minted;
    var past := RecordedBy(m, h);
    WellNumberedPrefix(env, past, m.trace);
    RecordedCreates(env, h, past);
    PrefixMonotone(past, m.trace);
  }

  lemma WritesMore(a: Machine, b: Machine, recorded: seq<Recording>)
    requires Writes(a, recorded) && a.trace <= b.trace
    ensures Writes(b, recorded)
  {
  }

  /** A workflow that came through `h` holds the futures `h` created, and wrote what `h` recorded. */
  lemma CameThrough(env: Env, h: History, m: Machine)
    requires Reaches(env, h, m) && Authored(env, h)
    ensures Writes(m, Recorded(h)) && Created(h) <= m.futures && CanceledTimers(h) <= m.cancelled
  {
    hide Reaches, Created, Recorded, CanceledTimers;
    if Recorded(h) != [] {
      var s: nat, author :| AuthoredAt(env, h, s, author);
      var mid := ReachesPrefix(env, h, m, s);
      ReachesUnique(env, h[..s], mid, author);
      WritesMore(author, m, Recorded(h));
    }
    ReachesKeeps(env, h, m);
    WritesExactly(env, m, h);
  }

  // ---- Staying in line with what is recorded ---------------------------------------------------

  lemma IterateBelow(env: Env, k: Knowledge, m: Machine, n: nat, end: Machine)
    requires Settles(env, k, m, end)
    ensures Iterate(env, k, m, n).trace <= end.trace
  {
    hide Step, Settled;
    var i: nat :| Iterate(env, k, m, i) == end;
    if n <= i {
      IterateSplit(env, k, m, n, i - n);
      IterateExtendsTrace(env, k, Iterate(env, k, m, n), i - n);
    } else {
      SettledIsFinal(env, k, m, i, n);
    }
  }

  /** The body has not reached what was recorded, and will stop before it or exactly on its way. */
  lemma TrackBelow(env: Env, k: Knowledge, past: seq<Command>, m: Machine, end: Machine, author: Machine)
    requires Settles(env, k, m, end) && end.trace <= author.trace && past <= author.trace
    ensures OnTrack(env, k, past, m)
  {
    hide Settles, Iterate;
    forall n: nat
      ensures Comparable(past, Iterate(env, k, m, n).trace)
    {
      IterateBelow(env, k, m, n, end);
      PrefixesComparable(past, Iterate(env, k, m, n).trace, author.trace);
    }
  }

  /** The body has gone past everything that was recorded. */
  lemma TrackBeyond(env: Env, k: Knowledge, past: seq<Command>, m: Machine)
    requires past <= m.trace
    ensures OnTrack(env, k, past, m)
  {
    forall n: nat
      ensures Comparable(past, Iterate(env, k, m, n).trace)
    {
      IterateExtendsTrace(env, k, m, n);
    }
  }

  /** The body starts over, and will pass through the position where the recorded commands came from. */
  lemma TrackThrough(env: Env, k: Knowledge, past: seq<Command>, m: Machine, i: nat)
    requires past <= Iterate(env, k, m, i).trace
    ensures OnTrack(env, k, past, m)
  {
    hide Step, Settled;
    forall n: nat
      ensures Comparable(past, Iterate(env, k, m, n).trace)
    {
      var a, b := Min(n, i), Max(n, i);
      IterateSplit(env, k, m, a, b - a);
      IterateExtendsTrace(env, k, Iterate(env, k, m, a), b - a);
      if n < i {
        PrefixesComparable(past, Iterate(env, k, m, n).trace, Iterate(env, k, m, i).trace);
      }
    }
  }

  /** `past` was written by the body at rest on the first `s` events, if it is anything at all. */
  ghost predicate WrittenAt(env: Env, h: History, s: nat, author: Machine, past: seq<Command>) {
    past == [] || (s <= |h| && Reaches(env, h[..s], author) && past <= author.trace)
  }

  /** Where the author of the recorded commands stood, seen from any other moment of its history. */
  lemma TrackNext(env: Env, h: History, s: nat, author: Machine, q: nat, m: Machine, past: seq<Command>)
    requires Plausible(h) && WrittenAt(env, h, s, author, past)
    requires q < |h| && Reaches(env, h[..q], m)
    ensures OnTrack(env, Know(h[..q + 1]), past, m)
  {
    hide Reaches, Plausible, OnTrack;
    var next := h[..q + 1];
    assert next[..|next| - 1] == h[..q];
    if past == [] {
      TrackBeyond(env, Know(next), past, m);
    } else if s <= q {
      var mid := ReachesPrefix(env, h[..q], m, s);
      assert h[..q][..s] == h[..s];
      ReachesUnique(env, h[..s], mid, author);
      TrackBeyond(env, Know(next), past, m);
    } else {
      var end := ReachesPrefix(env, h[..s], author, q + 1);
      assert h[..s][..q + 1] == next;
      var m0 := Before(env, next, end);
      ReachesUnique(env, h[..q], m0, m);
      if h[q].attributes.UpdateAccepted? {
        UpdateTeachesNothing(next);
        ReachesKeeps(env, h[..q], m);
        assert Iterate(env, Know(next), m, 0) == m;
        TrackBelow(env, Know(next), past, m, m, author);
      } else {
        TrackBelow(env, Know(next), past, m, end, author);
      }
    }
  }

  lemma TrackStart(env: Env, h: History, s: nat, author: Machine, past: seq<Command>)
    requires Plausible(h) && WrittenAt(env, h, s, author, past)
    ensures OnTrack(env, Know(BeforeUpdates(h)), past, Init(env))
  {
    hide Reaches, Plausible, OnTrack, Settles;
    var first := BeforeUpdates(h);
    var u := |first|;
    assert first == h[..u];
    PlausiblePrefix(h, u);
    BeforeUpdatesIsFirst(h);
    NoUpdatesYet(first);
    if past == [] {
      TrackBeyond(env, Know(first), past, Init(env));
    } else if u <= s {
      var end := ReachesPrefix(env, h[..s], author, u);
      assert h[..s][..u] == first;
      ReachesFromStart(env, first, end);
      TrackBelow(env, Know(first), past, Init(env), end, author);
    } else {
      assert first[..s] == h[..s];
      PlausiblePrefix(h, s);
      assert Updateless(h[..s], 0) by {
        assert forall i :: 0 <= i < s ==> h[..s][i] == first[i];
      }
      ReachesFromStart(env, h[..s], author);
      PlausiblePrefix(first, s);
      KnowExtends(first, s);
      var i := SettledAt(env, Know(h[..s]), Init(env), author);
      var t := IterateMonotone(env, Know(h[..s]), Know(first), Init(env), i);
      TrackThrough(env, Know(first), past, Init(env), t);
    }
  }

  lemma SettledAt(env: Env, k: Knowledge, m: Machine, end: Machine) returns (n: nat)
    requires Settles(env, k, m, end)
    ensures Iterate(env, k, m, n) == end && Settled(k, end)
  {
    n :| Iterate(env, k, m, n) == end;
  }

  // ---- The start of a replay -------------------------------------------------------------------

  lemma ScanForesees(h: History)
    requires Numbered(h) && Plausible(h)
    ensures Foreseen(Know(BeforeUpdates(h)), OperationsOf(h), {})
  {
    hide Know, Created, OperationsOf, BeforeUpdates, Resolves;
    var u := |BeforeUpdates(h)|;
    assert BeforeUpdates(h) == h[..u];
    PlausiblePrefix(h, |h|);
    assert h[..|h|] == h;
    PlausiblePrefix(h, u);
    KnownAreCreated(h[..u]);
    CreatedGrows(h, u);
    forall x
      ensures ForeseenAt(Know(h[..u]), OperationAt(OperationsOf(h), x), x)
    {
      ScanFaithful(h, x);
    }
  }

  lemma ScanGuards(env: Env, h: History, past: seq<Command>)
    requires Numbered(h) && Plausible(h) && RecordsExactly(h, past) && WellNumbered(env, past)
    ensures GuardsFutures(past, OperationsOf(h), {}) && GuardsCancels(past, OperationsOf(h), {}) && GuardsCounts(past, RecordsOf(h))
  {
    hide Know, Created, OperationsOf, BeforeUpdates, Handles, Cancels, RecordsExactly, RecordsOf;
    PlausiblePrefix(h, |h|);
    assert h[..|h|] == h;
    RecordedCreates(env, h, past);
    ScanRepeats(env, h, past);
    forall x
      ensures OperationAt(OperationsOf(h), x).scheduled == (x in Handles(past))
    {
      ScanFaithful(h, x);
    }
    forall id
      ensures CanceledIn(OperationsOf(h), id) == (id in Cancels(past))
    {
      ScanCanceled(h, id);
    }
  }

  /** A new runner over the prescan stands where the machine starts, and foresees what history says
      up to the first update. */
  lemma FreshStart(env: Env, h: History, past: seq<Command>, live: World)
    requires Numbered(h) && Plausible(h) && RecordsExactly(h, past) && WellNumbered(env, past)
    requires SameWorld(env.world, RecordsOf(h), live)
    ensures Simulates(env, Know(BeforeUpdates(h)), past, 0, NewRunner(env.workflowId, env.body, live, Scan(h)), Init(env))
  {
    hide Know, OperationsOf, RecordsOf, BeforeUpdates, Foreseen, GuardsFutures, GuardsCancels, GuardsCounts,
         SameWorld, SignalsOf;
    InitConsistent(env);
    ScanForesees(h);
    ScanGuards(env, h, past);
    ScanSignals(h);
  }

  // ---- Replaying -------------------------------------------------------------------------------

  /** What a partial replay, over the timeline of `h[..q]`, has rebuilt. */
  ghost predicate Rebuilt(env: Env, h: History, q: nat, past: seq<Command>, r: RunnerState, m: Machine)
    requires q <= |h|
  {
    Reaches(env, h[..q], m) && Simulates(env, Know(h[..q]), past, 0, r, m)
  }

  lemma ReplayStart(env: Env, h: History, s: nat, author: Machine, past: seq<Command>, live: World, budget: nat)
    returns (r: RunnerState, m: Machine)
    requires Numbered(h) && Plausible(h) && WrittenAt(env, h, s, author, past)
    requires RecordsExactly(h, past) && WellNumbered(env, past)
    requires SameWorld(env.world, RecordsOf(h), live)
    ensures r == Resume(NewRunner(env.workflowId, env.body, live, Scan(h)), budget) && r.scan == Scan(h)
    ensures r.deadlocked <==> !Fits(env, Know(BeforeUpdates(h)), Init(env), budget)
    ensures r.deadlocked || Rebuilt(env, h, |BeforeUpdates(h)|, past, r, m)
  {
    hide Simulates, Reaches, Plausible, RecordsExactly, Resume, Settles, Fits, NewRunner, Scan;
    var first := BeforeUpdates(h);
    FreshStart(env, h, past, live);
    TrackStart(env, h, s, author, past);
    var r0 := NewRunner(env.workflowId, env.body, live, Scan(h));
    assert r0.scan == Scan(h) by { NewRunnerScan(env, live, Scan(h)); }
    r, m := ResumeFollows(env, Know(first), past, 0, r0, Init(env), budget);
    if !r.deadlocked {
      assert first == h[..|first|];
      PlausiblePrefix(h, |first|);
      BeforeUpdatesIsFirst(h);
      NoUpdatesYet(first);
      FitsSettles(env, Know(first), Init(env), budget);
      ReachesFromStart(env, first, m);
    }
  }

  lemma NewRunnerScan(env: Env, live: World, scan: Prescan)
    ensures NewRunner(env.workflowId, env.body, live, scan).scan == scan
  {
  }

  /** Replay only adds to the signals of the prescan; the rest of the index stays. */
  ghost predicate SameIndex(a: Prescan, b: Prescan) {
    a.index == b.index && a.records == b.records && a.timeline == b.timeline && a.lastEventId == b.lastEventId
  }

  lemma DeferredKeepsIndex(r: RunnerState, ev: Event)
    requires IsDeferredOnReplay(ev.attributes)
    ensures SameIndex(ApplyEvent(r, ev).scan, r.scan)
  {
    if ev.attributes.FutureResolved? {
      ResolutionUndisturbed(r, ev.attributes.how);
    }
  }

  lemma TimelineStep(base: RunnerState, h: History, q: nat, budget: nat)
    requires q < |h|
    ensures var steps := StepsOf(SawUpdate(h[..q]), h[q]);
            var sofar := Reapply(base, TimelineOf(h[..q]), budget);
            Reapply(base, TimelineOf(h[..q + 1]), budget) ==
              if steps == [] then sofar else ReplayStepOn(sofar, steps[0], budget)
  {
    hide ReplayStepOn;
    var next := h[..q + 1];
    assert next[..|next| - 1] == h[..q];
    var steps := StepsOf(SawUpdate(h[..q]), h[q]);
    assert TimelineOf(next) == TimelineOf(h[..q]) + steps;
    if steps == [] {
      assert TimelineOf(next) == TimelineOf(h[..q]);
    } else {
      assert TimelineOf(next)[..|TimelineOf(next)| - 1] == TimelineOf(h[..q]);
    }
  }

  /** Nothing more happens to a body at rest. */
  lemma StaysPut(env: Env, h: History, q: nat, m: Machine)
    requires q < |h| && Reaches(env, h[..q], m) && Settled(Know(h[..q + 1]), m) && !h[q].attributes.UpdateAccepted?
    ensures Reaches(env, h[..q + 1], m)
  {
    hide Reaches;
    var next := h[..q + 1];
    assert next[..|next| - 1] == h[..q];
    assert Iterate(env, Know(next), m, 0) == m;
    ReachesNext(env, next, m, m);
  }

  lemma ReplayFinished(env: Env, h: History, q: nat, past: seq<Command>, r: RunnerState, m: Machine)
    requires q < |h| && Rebuilt(env, h, q, past, r, m) && m.phase.Finished?
    ensures r.phase.Finished? && Rebuilt(env, h, q + 1, past, r, m)
  {
    hide Consistent, Reaches, Know;
    if h[q].attributes.UpdateAccepted? {
      var next := h[..q + 1];
      assert next[..|next| - 1] == h[..q];
      ReachesNext(env, next, m, m);
    } else {
      StaysPut(env, h, q, m);
    }
  }

  /** Nothing that replay waits for: history moves on, the body does not. */
  lemma ReplayInert(env: Env, h: History, q: nat, past: seq<Command>, r: RunnerState, m: Machine)
    requires q < |h| && Plausible(h) && Rebuilt(env, h, q, past, r, m)
    requires !h[q].attributes.UpdateAccepted? && !IsDeferredOnReplay(h[q].attributes)
    ensures Rebuilt(env, h, q + 1, past, r, m)
  {
    hide Simulates, Reaches, Resolves;
    var next := h[..q + 1];
    assert next[..|next| - 1] == h[..q];
    assert PlausibleAt(h, q) && next[..q] == h[..q];
    InertEvent(next);
    ReachesKeeps(env, h[..q], m);
    StaysPut(env, h, q, m);
  }

  lemma ReplayUpdated(env: Env, h: History, q: nat, past: seq<Command>, r: RunnerState, m: Machine, budget: nat)
    returns (r1: RunnerState, m1: Machine)
    requires q < |h| && Rebuilt(env, h, q, past, r, m) && Comparable(past, m.trace) && h[q].attributes.UpdateAccepted?
    ensures r1 == Resume(RunUpdateHandler(r, h[q].attributes.name, h[q].attributes.args), budget) && r1.scan == r.scan
    ensures !r1.deadlocked && Rebuilt(env, h, q + 1, past, r1, m1)
  {
    hide Simulates, Reaches, Resume, Comparable;
    var next := h[..q + 1];
    assert next[..|next| - 1] == h[..q];
    var a := h[q].attributes;
    var k := Know(next);
    UpdateTeachesNothing(next);
    ReachesKeeps(env, h[..q], m);
    UpdateFollows(env, k, past, 0, r, m, a.name, a.args);
    UpdateKeeps(env, k, m, a.name, a.args);
    m1 := RunUpdate(m, a.name, a.args);
    assert OnTrack(env, k, past, m1);
    var end: Machine;
    r1, end := ResumeFollows(env, k, past, 0, RunUpdateHandler(r, a.name, a.args), m1, budget);
    assert Iterate(env, k, m1, budget) == m1;
    ReachesNext(env, next, m, m1);
  }

  lemma ReplayDeferred(env: Env, h: History, q: nat, past: seq<Command>, r: RunnerState, m: Machine, budget: nat)
    returns (r1: RunnerState, m1: Machine)
    requires q < |h| && Plausible(h) && Rebuilt(env, h, q, past, r, m) && IsDeferredOnReplay(h[q].attributes)
    requires OnTrack(env, Know(h[..q + 1]), past, m) && Created(h[..q]) <= m.futures && Indexes(h, r.scan.index)
    ensures r1 == Resume(ApplyEvent(r, h[q]), budget) && SameIndex(r1.scan, r.scan)
    ensures r1.deadlocked <==> !Fits(env, Know(h[..q + 1]), m, budget)
    ensures r1.deadlocked || Rebuilt(env, h, q + 1, past, r1, m1)
  {
    hide Simulates, Reaches, Resume, OnTrack, Indexes, Created, ApplyEvent, Settles, Fits;
    var next := h[..q + 1];
    assert next[..|next| - 1] == h[..q];
    assert PlausibleAt(h, q);
    IndexLocates(h, q, r.scan.index);
    Feed(env, h, q, past, 0, r, m);
    DeferredKeepsIndex(r, h[q]);
    r1, m1 := ResumeFollows(env, Know(next), past, 0, ApplyEvent(r, h[q]), m, budget);
    if !r1.deadlocked {
      FitsSettles(env, Know(next), m, budget);
      ReachesNext(env, next, m, m1);
    }
  }

  lemma AtRestFits(env: Env, k: Knowledge, m: Machine, budget: nat)
    requires Settled(k, m)
    ensures Fits(env, k, m, budget)
  {
  }

  /** One more event of history, through the timeline. */
  lemma ReplayNext(env: Env, h: History, s: nat, author: Machine, q: nat, past: seq<Command>,
                   r: RunnerState, m: Machine, budget: nat) returns (r1: RunnerState, m1: Machine)
    requires Lawful(env, h) && WrittenAt(env, h, s, author, past)
    requires q < |h| && Rebuilt(env, h, q, past, r, m) && Indexes(h, r.scan.index)
    requires !r.deadlocked && (SawUpdate(h[..q]) || h[q].attributes.UpdateAccepted?)
    ensures var steps := StepsOf(SawUpdate(h[..q]), h[q]);
            r1 == if steps == [] then r else ReplayStepOn(r, steps[0], budget)
    ensures SameIndex(r1.scan, r.scan)
    ensures r1.deadlocked <==> !Fits(env, Know(h[..q + 1]), m, budget)
    ensures r1.deadlocked || Rebuilt(env, h, q + 1, past, r1, m1)
  {
    hide Simulates, Reaches, Resume, Plausible, Comparable, Indexes, Created, ApplyEvent, RunUpdateHandler, Authored,
         Fits;
    TrackNext(env, h, s, author, q, m, past);
    CameThrough(env, h[..q], m);
    if m.phase.Finished? {
      ReplayFinished(env, h, q, past, r, m);
      AtRestFits(env, Know(h[..q + 1]), m, budget);
      r1, m1 := r, m;
    } else {
      assert r.phase.Running? by { PhaseAgrees(env, h, q, past, r, m); }
      if h[q].attributes.UpdateAccepted? {
        assert Iterate(env, Know(h[..q + 1]), m, 0) == m;
        UpdateTeachesNothing(h[..q + 1]);
        assert h[..q + 1][..q] == h[..q];
        ReachesKeeps(env, h[..q], m);
        AtRestFits(env, Know(h[..q + 1]), m, budget);
        r1, m1 := ReplayUpdated(env, h, q, past, r, m, budget);
      } else if IsDeferredOnReplay(h[q].attributes) {
        r1, m1 := ReplayDeferred(env, h, q, past, r, m, budget);
      } else {
        ReplayInert(env, h, q, past, r, m);
        ReachesKeeps(env, h[..q + 1], m);
        AtRestFits(env, Know(h[..q + 1]), m, budget);
        r1, m1 := r, m;
      }
    }
  }

  lemma PhaseAgrees(env: Env, h: History, q: nat, past: seq<Command>, r: RunnerState, m: Machine)
    requires q <= |h| && Rebuilt(env, h, q, past, r, m)
    ensures r.phase == m.phase && !r.deadlocked
  {
  }

  /** Every burst of the replay of `h[..q]` is short enough for the deadlock timeout. */
  ghost predicate BurstsFit(env: Env, h: History, q: nat, budget: nat)
    requires |BeforeUpdates(h)| <= q <= |h|
  {
    if q == |BeforeUpdates(h)| then Fits(env, Know(BeforeUpdates(h)), Init(env), budget)
    else BurstsFit(env, h, q - 1, budget) && NextFits(env, h, q - 1, budget)
  }

  ghost predicate NextFits(env: Env, h: History, q: nat, budget: nat)
    requires q < |h|
  {
    exists m :: Reaches(env, h[..q], m) && Fits(env, Know(h[..q + 1]), m, budget)
  }

  lemma NextFitsHere(env: Env, h: History, q: nat, budget: nat, m: Machine)
    requires q < |h| && Reaches(env, h[..q], m)
    ensures NextFits(env, h, q, budget) <==> Fits(env, Know(h[..q + 1]), m, budget)
  {
    hide Reaches, Fits;
    if NextFits(env, h, q, budget) {
      var other :| Reaches(env, h[..q], other) && Fits(env, Know(h[..q + 1]), other, budget);
      ReachesUnique(env, h[..q], m, other);
    }
  }

  /** The whole timeline, one event of history after the other. */
  lemma {:induction false} ReplayTimeline(env: Env, h: History, s: nat, author: Machine, past: seq<Command>, live: World,
                                          q: nat, budget: nat) returns (r: RunnerState, m: Machine)
    requires Lawful(env, h) && WrittenAt(env, h, s, author, past)
    requires RecordsExactly(h, past) && WellNumbered(env, past) && SameWorld(env.world, RecordsOf(h), live)
    requires |BeforeUpdates(h)| <= q <= |h|
    ensures r == Reapply(Resume(NewRunner(env.workflowId, env.body, live, Scan(h)), budget), TimelineOf(h[..q]), budget)
    ensures SameIndex(r.scan, Scan(h))
    ensures r.deadlocked <==> !BurstsFit(env, h, q, budget)
    ensures r.deadlocked || Rebuilt(env, h, q, past, r, m)
    decreases q
  {
    hide Lawful, Reaches, Fits, WrittenAt, RecordsExactly, WellNumbered, SameWorld, Resume, Rebuilt, NewRunner,
         StepsOf, ReplayStepOn, Scan;
    var u := |BeforeUpdates(h)|;
    BeforeUpdatesIsFirst(h);
    if q == u {
      LawfulParts(env, h);
      r, m := ReplayStart(env, h, s, author, past, live, budget);
      assert BeforeUpdates(h) == h[..u];
      NoUpdatesYet(h[..u]);
    } else {
      var r0, m0 := ReplayTimeline(env, h, s, author, past, live, q - 1, budget);
      TimelineStep(Resume(NewRunner(env.workflowId, env.body, live, Scan(h)), budget), h, q - 1, budget);
      if r0.deadlocked {
        r, m := Reapply(Resume(NewRunner(env.workflowId, env.body, live, Scan(h)), budget), TimelineOf(h[..q]), budget), m0;
        DeadlockStops(r0, StepsOf(SawUpdate(h[..q - 1]), h[q - 1]), budget);
      } else {
        FirstIsUpdate(h, q);
        ScanFactsHold(env, h, r0.scan);
        RebuiltReaches(env, h, q - 1, past, r0, m0);
        NextFitsHere(env, h, q - 1, budget, m0);
        r, m := ReplayNext(env, h, s, author, q - 1, past, r0, m0, budget);
      }
    }
  }

  lemma RebuiltReaches(env: Env, h: History, q: nat, past: seq<Command>, r: RunnerState, m: Machine)
    requires q <= |h| && Rebuilt(env, h, q, past, r, m)
    ensures Reaches(env, h[..q], m)
  {
  }

  lemma LawfulParts(env: Env, h: History)
    requires Lawful(env, h)
    ensures Numbered(h) && Plausible(h) && Authored(env, h)
  {
    assert h[..|h|] == h;
  }

  lemma ScanFactsHold(env: Env, h: History, scan: Prescan)
    requires Lawful(env, h) && SameIndex(scan, Scan(h))
    ensures Indexes(h, scan.index)
  {
    ScanIndexes(h);
  }

  lemma DeadlockStops(r: RunnerState, steps: seq<ReplayStep>, budget: nat)
    requires r.deadlocked
    ensures steps != [] ==> ReplayStepOn(r, steps[0], budget) == r
  {
  }

  lemma FirstIsUpdate(h: History, q: nat)
    requires |BeforeUpdates(h)| < q <= |h|
    ensures SawUpdate(h[..q - 1]) || h[q - 1].attributes.UpdateAccepted?
  {
    BeforeUpdatesIsFirst(h);
    assert SawUpdate(h[..q]);
    assert h[..q][..q - 1] == h[..q - 1];
  }

  // ---- The theorem -----------------------------------------------------------------------------

  /** The runner is where the workflow stands after `h`, has gone through all its commands, and has
      emitted those that `h` does not have. */
  ghost predicate Rebuilds(env: Env, h: History, r: RunnerState, m: Machine) {
    Reaches(env, h, m) && Writes(m, Recorded(h)) &&
    Simulates(env, Know(h), RecordedBy(m, h), 0, r, m) && SameIndex(r.scan, Scan(h))
  }

  /** Full replay rebuilds the live workflow, for any lawful history and any values that side
      effects and local activities beyond the recorded ones might produce. */
  lemma FullReplay(env: Env, h: History, live: World, budget: nat) returns (r: RunnerState, m: Machine)
    requires Lawful(env, h) && SameWorld(env.world, RecordsOf(h), live)
    ensures r == Run(NewRunner(env.workflowId, env.body, live, Scan(h)), budget)
    ensures r.deadlocked <==> !BurstsFit(env, h, |h|, budget)
    ensures r.deadlocked || Rebuilds(env, h, r, m)
  {
    hide Numbered, Plausible, Reaches, Writes, Simulates, RecordsExactly, WellNumbered, SameWorld, Resume, Reapply,
         SameIndex, BurstsFit;
    LawfulParts(env, h);
    assert h[..|h|] == h;
    var s: nat, author, past := 0, Init(env), [];
    if Recorded(h) != [] {
      s, author, past := RecordAuthor(env, h);
    } else {
      NothingRecorded(env, h);
    }
    r, m := ReplayTimeline(env, h, s, author, past, live, |h|, budget);
    if !r.deadlocked {
      CameThrough(env, h, m);
      if Recorded(h) != [] {
        var mid := ReachesPrefix(env, h, m, s);
        ReachesUnique(env, h[..s], mid, author);
        SameRecord(author, m, h);
      }
    }
  }

  lemma RecordAuthor(env: Env, h: History) returns (s: nat, author: Machine, past: seq<Command>)
    requires Authored(env, h) && Recorded(h) != []
    ensures AuthoredAt(env, h, s, author) && past == RecordedBy(author, h) && WrittenAt(env, h, s, author, past)
    ensures RecordsExactly(h, past) && WellNumbered(env, past)
  {
    hide Reaches, RecordsExactly, WellNumbered, Recorded;
    s, author :| AuthoredAt(env, h, s, author);
    ReachesKeeps(env, h[..s], author);
    WritesExactly(env, author, h);
    past := RecordedBy(author, h);
  }

  lemma NothingRecorded(env: Env, h: History)
    requires Recorded(h) == []
    ensures RecordsExactly(h, []) && WellNumbered(env, [])
  {
  }

  /** A workflow that came through its history lives: with a long enough deadlock timeout its replay
      is never taken for a deadlock. */
  lemma {:induction false} LongEnough(env: Env, h: History, q: nat, m: Machine) returns (least: nat)
    requires Plausible(h) && |BeforeUpdates(h)| <= q <= |h| && Reaches(env, h[..q], m)
    ensures forall budget: nat :: budget >= least ==> BurstsFit(env, h, q, budget)
    decreases q
  {
    hide Reaches, Settles, Plausible, Fits, NextFits;
    var u := |BeforeUpdates(h)|;
    BeforeUpdatesIsFirst(h);
    if q == u {
      assert BeforeUpdates(h) == h[..u];
      PlausiblePrefix(h, u);
      NoUpdatesYet(h[..u]);
      ReachesFromStart(env, h[..u], m);
      least := FitsLater(env, Know(h[..u]), Init(env), m);
    } else {
      assert h[..q][..q - 1] == h[..q - 1];
      var m0 := Before(env, h[..q], m);
      var before := LongEnough(env, h, q - 1, m0);
      var next := MoveFits(env, h, q - 1, m0, m);
      least := Max(before, next);
    }
  }

  lemma FitsLater(env: Env, k: Knowledge, m: Machine, end: Machine) returns (least: nat)
    requires Settles(env, k, m, end)
    ensures forall budget: nat :: budget >= least ==> Fits(env, k, m, budget)
  {
    hide Step, Settled;
    least := SettledAt(env, k, m, end);
    forall budget: nat | budget >= least
      ensures Fits(env, k, m, budget)
    {
      SettledIsFinal(env, k, m, least, budget);
    }
  }

  lemma MoveFits(env: Env, h: History, q: nat, m0: Machine, m: Machine) returns (least: nat)
    requires q < |h| && Reaches(env, h[..q], m0) && LastMoves(env, h[..q + 1], m0, m)
    ensures forall budget: nat :: budget >= least ==> NextFits(env, h, q, budget)
  {
    hide Reaches, Settles, Fits;
    var next := h[..q + 1];
    if h[q].attributes.UpdateAccepted? {
      UpdateTeachesNothing(next);
      assert next[..q] == h[..q];
      ReachesKeeps(env, h[..q], m0);
      least := 0;
      forall budget: nat
        ensures Fits(env, Know(next), m0, budget)
      {
        AtRestFits(env, Know(next), m0, budget);
      }
    } else {
      least := FitsLater(env, Know(next), m0, m);
    }
  }

  lemma SameRecord(a: Machine, b: Machine, h: History)
    requires Writes(a, Recorded(h)) && Writes(b, Recorded(h)) && Comparable(a.trace, b.trace)
    ensures RecordedBy(a, h) == RecordedBy(b, h)
  {
  }
}
