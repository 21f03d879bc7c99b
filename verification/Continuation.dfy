/** Sticky continuation: a parked runner that is given only the new events gets to where a full
    replay of the whole history gets. */
module Continuation {
  import opened Basics
  import opened Workflow
  import opened Machine
  import opened HistoryScan
  import opened ScanFacts
  import opened Engine
  import opened Simulation
  import opened Progress
  import opened Feeding
  import opened Replay
  import D = Determinism

  /** A parked runner that has taken in exactly the first `seen` events of `h`, each once, and whose
      body stands at `m`. `past` is what history had recorded when the runner was built. */
  ghost predicate Resident(env: Env, h: History, seen: nat, past: seq<Command>, start: nat, r: RunnerState, m: Machine) {
    seen <= |h| && Simulates(env, Know(h[..seen]), past, start, r, m) && past <= m.trace &&
    Indexes(h[..seen], r.scan.index) && r.scan.lastEventId == seen
  }

  lemma RebuiltIsResident(env: Env, h: History, r: RunnerState, m: Machine)
    requires Numbered(h) && Rebuilds(env, h, r, m)
    ensures Resident(env, h, |h|, RecordedBy(m, h), 0, r, m)
  {
    hide Reaches, Simulates, Indexes;
    assert h[..|h|] == h;
    ScanIndexes(h);
  }

  lemma ClearStarts(env: Env, k: Knowledge, past: seq<Command>, start: nat, r: RunnerState, m: Machine)
    requires Simulates(env, k, past, start, r, m)
    ensures Simulates(env, k, past, |m.trace|, Clear(r), m)
  {
    hide Consistent, Aware;
  }

  lemma MoveCheckpoint(env: Env, k: Knowledge, past: seq<Command>, start: nat, r: RunnerState, m: Machine, id: int)
    requires Simulates(env, k, past, start, r, m)
    ensures Simulates(env, k, past, start, r.(scan := r.scan.(lastEventId := id)), m)
  {
    hide Consistent, SameFutures, Foreseen, GuardsFutures, GuardsCancels, GuardsCounts, SameWorld;
  }

  /** The index follows every event that is applied. */
  lemma IndexFollows(r: RunnerState, ev: Event)
    ensures ApplyEvent(r, ev).scan.index == IndexNext(r.scan.index, ev)
  {
    if ev.attributes.FutureResolved? {
      ResolutionUndisturbed(r, ev.attributes.how);
    }
  }

  lemma WritesPrefix(m: Machine, h: History, n: nat)
    requires n <= |h| && Writes(m, Recorded(h))
    ensures Writes(m, Recorded(h[..n]))
  {
    RecordedGrows(h, n);
  }

  lemma CreatedStep(h: History, q: nat)
    requires q < |h|
    ensures Created(h[..q + 1]) == Created(h[..q]) + CreatedBy(h[..q], h[q].attributes)
    ensures CanceledTimers(h[..q + 1]) == CanceledTimers(h[..q]) + CanceledBy(h[q].attributes)
  {
    assert h[..q + 1][..q] == h[..q];
  }

  /** What history recorded by now is known to the body that wrote it. */
  lemma RecordedIsKnown(env: Env, h: History, q: nat, m: Machine)
    requires q < |h| && Consistent(env, m) && Writes(m, Recorded(h)) && h[q].attributes.CommandRecorded?
    ensures Known(h[..q], h[q].attributes.record, m)
  {
    hide Consistent, Writes, Recorded, Created, CanceledTimers, NexusCount;
    WritesPrefix(m, h, q + 1);
    WritesExactly(env, m, h[..q + 1]);
    CreatedStep(h, q);
  }

  lemma FeedNext(env: Env, h: History, q: nat, past: seq<Command>, start: nat, r: RunnerState, m: Machine)
    requires q < |h| && Plausible(h) && Writes(m, Recorded(h))
    requires Simulates(env, Know(h[..q]), past, start, r, m) && Indexes(h[..q], r.scan.index)
    ensures Simulates(env, Know(h[..q + 1]), past, start, ApplyEvent(r, h[q]), m)
  {
    hide Simulates, Indexes, Recorded, Created, Writes, Known, Locates, CanceledTimers;
    KeepsConsistent(env, Know(h[..q]), past, start, r, m);
    assert PlausibleAt(h, q);
    IndexLocates(h[..q], q, r.scan.index);
    assert h[..q][..q] == h[..q];
    WritesPrefix(m, h, q);
    WritesExactly(env, m, h[..q]);
    if h[q].attributes.CommandRecorded? {
      RecordedIsKnown(env, h, q, m);
    }
    Feed(env, h, q, past, start, r, m);
  }

  /** One event of `ApplyEvents`: past the checkpoint, so it is taken in. */
  lemma ConsumeNext(env: Env, h: History, q: nat, past: seq<Command>, start: nat, r: RunnerState, m: Machine)
    requires q < |h| && Lawful(env, h) && Writes(m, Recorded(h)) && Resident(env, h, q, past, start, r, m)
    ensures Resident(env, h, q + 1, past, start, ConsumeEvent(r, h[q]), m)
  {
    hide Simulates, Indexes, Writes, Plausible, Authored, IndexNext, ApplyEvent;
    FeedNext(env, h, q, past, start, r, m);
    MoveCheckpoint(env, Know(h[..q + 1]), past, start, ApplyEvent(r, h[q]), m, h[q].id);
    IndexFollows(r, h[q]);
    IndexesAppend(h[..q], h[q], r.scan.index);
    assert h[..q] + [h[q]] == h[..q + 1];
  }

  lemma KeepsConsistent(env: Env, k: Knowledge, past: seq<Command>, start: nat, r: RunnerState, m: Machine)
    requires Simulates(env, k, past, start, r, m)
    ensures Consistent(env, m)
  {
  }

  lemma {:induction false} ConsumeAll(env: Env, h: History, seen: nat, q: nat, past: seq<Command>, start: nat,
                                      r: RunnerState, m: Machine)
    requires seen <= q <= |h| && Lawful(env, h) && Writes(m, Recorded(h)) && Resident(env, h, seen, past, start, r, m)
    ensures Resident(env, h, q, past, start, ApplyEvents(r, h[seen..q]), m)
    decreases q
  {
    hide Lawful, Writes, Recorded, Resident, ConsumeEvent;
    if seen < q {
      ConsumeAll(env, h, seen, q - 1, past, start, r, m);
      assert h[seen..q][..|h[seen..q]| - 1] == h[seen..q - 1];
      ConsumeNext(env, h, q - 1, past, start, ApplyEvents(r, h[seen..q - 1]), m);
    }
  }

  /** The sticky continuation theorem. `c` is where the history stood when the previous task was
      accepted: its commands and updates are in `h[seen..c]`, everything after it is news. */
  lemma Continue(env: Env, h: History, seen: nat, c: nat, past: seq<Command>, start: nat,
                 r: RunnerState, m: Machine, budget: nat) returns (r': RunnerState, m': Machine)
    requires Lawful(env, h) && seen <= c <= |h| && Updateless(h, c)
    requires Resident(env, h, seen, past, start, r, m) && Reaches(env, h[..c], m) && Writes(m, Recorded(h))
    ensures r' == ApplyAndResume(r, h[seen..], budget)
    ensures r'.deadlocked <==> !Fits(env, Know(h), m, budget)
    ensures r'.deadlocked || (Reaches(env, h, m') && Resident(env, h, |h|, past, |m.trace|, r', m') && m.trace <= m'.trace)
  {
    hide Simulates, Indexes, Writes, Reaches, ApplyEvents, Resume, OnTrack, Authored, Settles, Fits;
    ClearStarts(env, Know(h[..seen]), past, start, r, m);
    ConsumeAll(env, h, seen, |h|, past, |m.trace|, Clear(r), m);
    assert h[seen..|h|] == h[seen..] && h[..|h|] == h;
    var fed := ApplyEvents(Clear(r), h[seen..]);
    TrackBeyond(env, Know(h), past, m);
    r', m' := ResumeFollows(env, Know(h), past, |m.trace|, fed, m, budget);
    if !r'.deadlocked {
      FitsSettles(env, Know(h), m, budget);
      ReachesBatch(env, h, c, m, m');
      IterateExtendsTrace(env, Know(h), m, budget);
    }
  }

  // ---- Delivered again -----------------------------------------------------------------------------

  lemma {:induction false} OldEventsSkipped(r: RunnerState, events: History)
    requires forall i :: 0 <= i < |events| ==> events[i].id <= r.scan.lastEventId
    ensures ApplyEvents(r, events) == r
  {
    hide ApplyEvent;
    if events != [] {
      OldEventsSkipped(r, events[..|events| - 1]);
    }
  }

  lemma {:induction false} ApplyEventsConcat(r: RunnerState, a: History, b: History)
    ensures ApplyEvents(r, a + b) == ApplyEvents(ApplyEvents(r, a), b)
  {
    hide ConsumeEvent;
    if b == [] {
      assert a + b == a;
    } else {
      ApplyEventsConcat(r, a, b[..|b| - 1]);
      assert (a + b)[..|a + b| - 1] == a + b[..|b| - 1];
    }
  }

  /** Events the runner has had already change nothing when they are delivered again: a continuation that
      starts further back does what one that starts at the checkpoint does. */
  lemma RedeliveryIgnored(h: History, from: nat, r: RunnerState, budget: nat)
    requires Numbered(h) && from <= r.scan.lastEventId <= |h|
    ensures ApplyAndResume(r, h[from..], budget) == ApplyAndResume(r, h[r.scan.lastEventId..], budget)
  {
    hide ApplyEvents, Resume;
    var seen := r.scan.lastEventId;
    assert h[from..] == h[from..seen] + h[seen..];
    ApplyEventsConcat(Clear(r), h[from..seen], h[seen..]);
    OldEventsSkipped(Clear(r), h[from..seen]);
  }

  // ---- Update handlers run live ----------------------------------------------------------------

  datatype Update = Update(name: string, args: Payloads)

  function RunUpdates(m: Machine, updates: seq<Update>): Machine {
    if updates == [] then m
    else
      var last := updates[|updates| - 1];
      RunUpdate(RunUpdates(m, updates[..|updates| - 1]), last.name, last.args)
  }

  function RunUpdateHandlers(r: RunnerState, updates: seq<Update>): RunnerState {
    if updates == [] then r
    else
      var last := updates[|updates| - 1];
      RunUpdateHandler(RunUpdateHandlers(r, updates[..|updates| - 1]), last.name, last.args)
  }

  lemma {:induction false} UpdatesFollow(env: Env, k: Knowledge, past: seq<Command>, start: nat, r: RunnerState, m: Machine,
                                         updates: seq<Update>)
    requires Simulates(env, k, past, start, r, m)
    ensures Simulates(env, k, past, start, RunUpdateHandlers(r, updates), RunUpdates(m, updates))
    ensures RunUpdateHandlers(r, updates).scan == r.scan && RunUpdates(m, updates).trace == m.trace
  {
    if updates != [] {
      hide Simulates;
      var n := |updates| - 1;
      UpdatesFollow(env, k, past, start, r, m, updates[..n]);
      UpdateFollows(env, k, past, start, RunUpdateHandlers(r, updates[..n]), RunUpdates(m, updates[..n]),
                    updates[n].name, updates[n].args);
    }
  }

  lemma UpdatesStayResident(env: Env, h: History, seen: nat, past: seq<Command>, start: nat, r: RunnerState, m: Machine,
                            updates: seq<Update>)
    requires Resident(env, h, seen, past, start, r, m)
    ensures Resident(env, h, seen, past, start, RunUpdateHandlers(r, updates), RunUpdates(m, updates))
  {
    hide Simulates, Indexes;
    UpdatesFollow(env, Know(h[..seen]), past, start, r, m, updates);
  }

  // ---- Sticky and fresh agree ------------------------------------------------------------------

  /** Two runners a query, an update or the next task cannot tell apart. */
  ghost predicate SameState(a: RunnerState, b: RunnerState) {
    a.log == b.log && a.phase == b.phase && a.counters == b.counters && a.handlers == b.handlers &&
    SameCursors(a.cursors, b.cursors) && (a.phase.Running? ==> a.futures == b.futures)
  }

  lemma SimulatesSame(env: Env, k: Knowledge, pastA: seq<Command>, startA: nat, a: RunnerState,
                      pastB: seq<Command>, startB: nat, b: RunnerState, m: Machine)
    requires Simulates(env, k, pastA, startA, a, m) && Simulates(env, k, pastB, startB, b, m)
    ensures SameState(a, b)
  {
    hide Consistent, Foreseen, GuardsFutures, GuardsCancels, GuardsCounts, SameWorld;
    if m.phase.Running? {
      assert a.futures == b.futures by {
        forall h | h in m.futures
          ensures a.futures[h] == b.futures[h]
        {
          assert a.futures[h] == View(k, m.cancelled, h);
        }
      }
    }
    forall name
      ensures GetOr(a.cursors, name, 0) == GetOr(b.cursors, name, 0)
    {
      assert GetOr(a.cursors, name, 0) == GetOr(m.cursors, name, 0);
    }
  }

  lemma IdentitiesConcat(a: seq<Command>, b: seq<Command>)
    ensures Identities(a + b) == Identities(a) + Identities(b)
  {
  }

  // ---- The record of an answer -------------------------------------------------------------------

  /** What the server appends for the answer of one task: bookkeeping, commands and updates. */
  ghost predicate AnswerRecord(h: History, from: nat, to: nat)
    requires from <= to <= |h|
  {
    forall i :: from <= i < to ==>
      h[i].attributes.CommandRecorded? || h[i].attributes.UpdateAccepted? || h[i].attributes.OtherEvent?
  }

  /** The updates accepted in a stretch of history. */
  function UpdatesIn(h: History): seq<Update> {
    if h == [] then []
    else
      var a := h[|h| - 1].attributes;
      UpdatesIn(h[..|h| - 1]) + if a.UpdateAccepted? then [Update(a.name, a.args)] else []
  }

  lemma RecordStep(env: Env, h: History, q: nat, m: Machine)
    requires q < |h| && Plausible(h) && Reaches(env, h[..q], m)
    requires h[q].attributes.CommandRecorded? || h[q].attributes.UpdateAccepted? || h[q].attributes.OtherEvent?
    ensures var m' := if h[q].attributes.UpdateAccepted? then RunUpdate(m, h[q].attributes.name, h[q].attributes.args) else m;
            Reaches(env, h[..q + 1], m') && m'.trace == m.trace
    ensures Know(h[..q + 1]) == Know(h[..q])
  {
    hide Reaches, Plausible, Resolves;
    var next := h[..q + 1];
    assert next[..|next| - 1] == h[..q];
    ReachesKeeps(env, h[..q], m);
    if h[q].attributes.UpdateAccepted? {
      ReachesNext(env, next, m, RunUpdate(m, h[q].attributes.name, h[q].attributes.args));
    } else {
      StaysPut(env, h, q, m);
    }
  }

  lemma UpdatesInStep(h: History, n: nat, q: nat)
    requires n <= q < |h|
    ensures UpdatesIn(h[n..q + 1]) ==
              if h[q].attributes.UpdateAccepted? then UpdatesIn(h[n..q]) + [Update(h[q].attributes.name, h[q].attributes.args)]
              else UpdatesIn(h[n..q])
  {
    assert h[n..q + 1][..|h[n..q + 1]| - 1] == h[n..q];
  }

  lemma RunUpdatesOneMore(m: Machine, updates: seq<Update>, u: Update)
    ensures RunUpdates(m, updates + [u]) == RunUpdate(RunUpdates(m, updates), u.name, u.args)
  {
    assert (updates + [u])[..|updates|] == updates;
  }

  lemma NoUpdatesIn(m: Machine, h: History, n: nat)
    requires n <= |h|
    ensures UpdatesIn(h[n..n]) == [] && RunUpdates(m, UpdatesIn(h[n..n])) == m
  {
    assert h[n..n] == [];
  }

  lemma AnswerRecordLast(h: History, n: nat, c: nat)
    requires n < c <= |h| && AnswerRecord(h, n, c)
    ensures AnswerRecord(h, n, c - 1)
    ensures var a := h[c - 1].attributes; a.CommandRecorded? || a.UpdateAccepted? || a.OtherEvent?
  {
  }

  /** Such a record moves the body by its updates alone, and teaches nothing. */
  lemma {:induction false} RecordLeads(env: Env, h: History, n: nat, c: nat, m: Machine)
    requires n <= c <= |h| && Plausible(h) && Reaches(env, h[..n], m) && AnswerRecord(h, n, c)
    ensures Reaches(env, h[..c], RunUpdates(m, UpdatesIn(h[n..c]))) && Know(h[..c]) == Know(h[..n])
    ensures RunUpdates(m, UpdatesIn(h[n..c])).trace == m.trace
    decreases c
  {
    hide Reaches, Plausible, Know, UpdatesIn, RunUpdates, RunUpdate, AnswerRecord;
    if c == n {
      NoUpdatesIn(m, h, n);
    } else {
      AnswerRecordLast(h, n, c);
      RecordLeads(env, h, n, c - 1, m);
      var updates, a := UpdatesIn(h[n..c - 1]), h[c - 1].attributes;
      RecordStep(env, h, c - 1, RunUpdates(m, updates));
      UpdatesInStep(h, n, c - 1);
      if a.UpdateAccepted? {
        RunUpdatesOneMore(m, updates, Update(a.name, a.args));
      }
    }
  }

  lemma LawfulPrefix(env: Env, h: History, n: nat)
    requires Lawful(env, h) && n <= |h|
    ensures Lawful(env, h[..n])
  {
    hide Authored, PlausibleAt;
    PlausiblePrefix(h, n);
    forall q | 0 <= q <= n
      ensures Authored(env, h[..n][..q])
    {
      assert h[..n][..q] == h[..q];
    }
  }

  lemma Longer(env: Env, h: History, h': History, seen: nat, past: seq<Command>, start: nat, r: RunnerState, m: Machine)
    requires Resident(env, h, seen, past, start, r, m) && h <= h'
    ensures Resident(env, h', seen, past, start, r, m)
  {
    hide Simulates, Indexes;
    assert h'[..seen] == h[..seen];
  }

  lemma CommandsParts(env: Env, k: Knowledge, past1: seq<Command>, past: seq<Command>, start: nat,
                      r2: RunnerState, r3: RunnerState, m: Machine)
    requires Simulates(env, k, past1, start, r2, m) && Simulates(env, k, past, 0, r3, m)
    requires |past1| <= start == |past|
    ensures r2.commands == r3.commands
  {
    hide Consistent, Aware, SameBody, Identity;
  }

  // ---- Chains of continuations -------------------------------------------------------------------

  /** One task of a sticky chain: it has taken in the first `seen` events, its body rests at `machine`,
      and the record of its answer ends at `done`. */
  datatype Link = Link(seen: nat, done: nat, runner: RunnerState, machine: Machine, budget: nat)

  ghost predicate LinkAt(env: Env, h: History, l: Link) {
    l.seen <= l.done <= |h| && AnswerRecord(h, l.seen, l.done) && !l.runner.deadlocked && Reaches(env, h[..l.seen], l.machine)
  }

  /** The runner once the updates that its task accepted have run against it. */
  function Left(h: History, l: Link): RunnerState
    requires l.seen <= l.done <= |h|
  {
    RunUpdateHandlers(l.runner, UpdatesIn(h[l.seen..l.done]))
  }

  /** The next task continues on the runner as the last one left it; until then history has recorded
      nobody else's commands or updates. */
  ghost predicate Follows(h: History, prev: Link, l: Link)
    requires prev.seen <= prev.done <= |h|
  {
    prev.done <= l.seen <= |h| && Updateless(h[..l.seen], prev.done) &&
    l.runner == ApplyAndResume(Left(h, prev), h[prev.seen..l.seen], l.budget) &&
    Writes(prev.machine, Recorded(h[..l.seen]))
  }

  /** A full replay of some first part of the history, then any number of continuations. */
  ghost predicate Chain(env: Env, h: History, links: seq<Link>, live: World) {
    links != [] && (forall i :: 0 <= i < |links| ==> LinkAt(env, h, links[i])) &&
    links[0].runner == Run(NewRunner(env.workflowId, env.body, live, Scan(h[..links[0].seen])), links[0].budget) &&
    SameWorld(env.world, RecordsOf(h[..links[0].seen]), live) &&
    (forall i {:trigger links[i]} :: 1 <= i < |links| ==> Follows(h, links[i - 1], links[i]))
  }

  /** What the runners went through, one task after the other. */
  function Stream(links: seq<Link>): seq<D.CommandEvent> {
    if links == [] then [] else Stream(links[..|links| - 1]) + links[|links| - 1].runner.produced
  }

  lemma ProducedSince(env: Env, k: Knowledge, past: seq<Command>, start: nat, r: RunnerState, m: Machine)
    requires Simulates(env, k, past, start, r, m)
    ensures start <= |m.trace| && r.produced == Identities(m.trace[start..])
  {
    hide Consistent, Aware, Identity;
  }

  lemma FirstLink(env: Env, h: History, l: Link, live: World) returns (past: seq<Command>)
    requires Lawful(env, h) && LinkAt(env, h, l) && SameWorld(env.world, RecordsOf(h[..l.seen]), live)
    requires l.runner == Run(NewRunner(env.workflowId, env.body, live, Scan(h[..l.seen])), l.budget)
    ensures Resident(env, h, l.seen, past, 0, l.runner, l.machine) && l.runner.produced == Identities(l.machine.trace)
  {
    hide Simulates, Indexes, Reaches, Run, SameWorld, Writes, Lawful;
    var now := h[..l.seen];
    LawfulPrefix(env, h, l.seen);
    LawfulParts(env, now);
    var r, m := FullReplay(env, now, live, l.budget);
    ReachesUnique(env, now, m, l.machine);
    RebuiltIsResident(env, now, r, m);
    past := RecordedBy(m, now);
    assert now[..l.seen] == now;
    ProducedSince(env, Know(now), past, 0, r, m);
    assert m.trace[0..] == m.trace;
    Longer(env, now, h, l.seen, past, 0, r, m);
  }

  lemma NextLink(env: Env, h: History, prev: Link, l: Link, past: seq<Command>, start: nat)
    requires Lawful(env, h) && LinkAt(env, h, prev) && LinkAt(env, h, l) && Follows(h, prev, l)
    requires Resident(env, h, prev.seen, past, start, prev.runner, prev.machine)
    ensures Resident(env, h, l.seen, past, |prev.machine.trace|, l.runner, l.machine)
    ensures Identities(prev.machine.trace) + l.runner.produced == Identities(l.machine.trace)
  {
    hide Simulates, Indexes, Reaches, ApplyAndResume, Writes, Lawful, RunUpdates, RunUpdateHandlers, UpdatesIn;
    var now, m := h[..l.seen], RunUpdates(prev.machine, UpdatesIn(h[prev.seen..prev.done]));
    LawfulParts(env, h);
    LawfulPrefix(env, h, l.seen);
    RecordLeads(env, h, prev.seen, prev.done, prev.machine);
    assert now[..prev.seen] == h[..prev.seen] && now[..prev.done] == h[..prev.done];
    assert now[prev.seen..] == h[prev.seen..l.seen] && now[..|now|] == now;
    UpdatesStayResident(env, h, prev.seen, past, start, prev.runner, prev.machine, UpdatesIn(h[prev.seen..prev.done]));
    Shorter(env, now, h, prev.seen, past, start, Left(h, prev), m);
    WritesMore(prev.machine, m, Recorded(now));
    var r', m' := Continue(env, now, prev.seen, prev.done, past, start, Left(h, prev), m, l.budget);
    ReachesUnique(env, now, m', l.machine);
    ProducedSince(env, Know(now), past, |m.trace|, l.runner, l.machine);
    assert l.machine.trace == prev.machine.trace + l.machine.trace[|m.trace|..];
    IdentitiesConcat(prev.machine.trace, l.machine.trace[|m.trace|..]);
    Longer(env, now, h, l.seen, past, |m.trace|, l.runner, l.machine);
  }

  lemma Shorter(env: Env, h: History, h': History, seen: nat, past: seq<Command>, start: nat, r: RunnerState, m: Machine)
    requires h <= h' && seen <= |h| && Resident(env, h', seen, past, start, r, m)
    ensures Resident(env, h, seen, past, start, r, m)
  {
    hide Simulates, Indexes;
    assert h'[..seen] == h[..seen];
  }

  /** The runner that the last task leaves, when its answer ends the history. */
  lemma LastLeft(env: Env, h: History, l: Link, past: seq<Command>, start: nat) returns (m: Machine)
    requires Lawful(env, h) && LinkAt(env, h, l) && l.done == |h|
    requires Resident(env, h, l.seen, past, start, l.runner, l.machine)
    ensures Reaches(env, h, m) && m.trace == l.machine.trace && Simulates(env, Know(h), past, start, Left(h, l), m)
  {
    hide Simulates, Indexes, Reaches, Lawful, RunUpdates, RunUpdateHandlers, UpdatesIn;
    assert h[..|h|] == h;
    LawfulParts(env, h);
    RecordLeads(env, h, l.seen, l.done, l.machine);
    var updates := UpdatesIn(h[l.seen..l.done]);
    UpdatesStayResident(env, h, l.seen, past, start, l.runner, l.machine, updates);
    m := RunUpdates(l.machine, updates);
  }

  /** The runner that goes through the whole history at once. */
  lemma WholeRun(env: Env, h: History, live: World, budget: nat, whole: RunnerState) returns (m: Machine)
    requires Lawful(env, h) && SameWorld(env.world, RecordsOf(h), live)
    requires whole == Run(NewRunner(env.workflowId, env.body, live, Scan(h)), budget) && !whole.deadlocked
    ensures Reaches(env, h, m) && Writes(m, Recorded(h)) && Simulates(env, Know(h), RecordedBy(m, h), 0, whole, m)
    ensures whole.produced == Identities(m.trace) && |RecordedBy(m, h)| == |Recorded(h)|
  {
    hide Simulates, Reaches, Run, SameWorld, Writes, Lawful, SameIndex;
    var r: RunnerState;
    r, m := FullReplay(env, h, live, budget);
    ProducedSince(env, Know(h), RecordedBy(m, h), 0, whole, m);
    assert m.trace[0..] == m.trace;
    RecordedLength(m, h);
  }

  lemma RecordedLength(m: Machine, h: History)
    requires Writes(m, Recorded(h))
    ensures |RecordedBy(m, h)| == |Recorded(h)|
  {
  }

  /** The first two tasks of a chain. */
  lemma TwoLinks(env: Env, h: History, l1: Link, l2: Link, live: World) returns (past: seq<Command>)
    requires Lawful(env, h) && LinkAt(env, h, l1) && LinkAt(env, h, l2) && Follows(h, l1, l2)
    requires SameWorld(env.world, RecordsOf(h[..l1.seen]), live)
    requires l1.runner == Run(NewRunner(env.workflowId, env.body, live, Scan(h[..l1.seen])), l1.budget)
    ensures Resident(env, h, l2.seen, past, |l1.machine.trace|, l2.runner, l2.machine) && |past| <= |l1.machine.trace|
    ensures l1.runner.produced + l2.runner.produced == Identities(l2.machine.trace)
  {
    hide Simulates, Indexes, Run, SameWorld, Lawful, LinkAt, Follows, Identities;
    past := FirstLink(env, h, l1, live);
    NextLink(env, h, l1, l2, past, 0);
  }

  lemma {:induction false} UpdatesKeepCommands(r: RunnerState, updates: seq<Update>)
    ensures RunUpdateHandlers(r, updates).commands == r.commands
  {
    if updates != [] {
      UpdatesKeepCommands(r, updates[..|updates| - 1]);
    }
  }

  /** History split at a task boundary, each part ending with the record of its task's answer and of the
      updates it accepted: running the first part, its handlers, continuing with what is new and running
      the second task's handlers ends in the same state as running the whole; the produced streams
      concatenate; and if exactly the first task's commands are recorded then the second task answers
      with the same commands as the run on the whole. */
  lemma StickyEqualsFresh(env: Env, h: History, first: Link, second: Link, live: World, wholeLive: World, budget: nat,
                          whole: RunnerState)
    requires Lawful(env, h) && LinkAt(env, h, first) && LinkAt(env, h, second) && Follows(h, first, second)
    requires first.runner == Run(NewRunner(env.workflowId, env.body, live, Scan(h[..first.seen])), first.budget)
    requires whole == Run(NewRunner(env.workflowId, env.body, wholeLive, Scan(h)), budget) && !whole.deadlocked
    requires SameWorld(env.world, RecordsOf(h[..first.seen]), live) && SameWorld(env.world, RecordsOf(h), wholeLive)
    requires second.done == |h|
    ensures SameState(Left(h, second), whole)
    ensures first.runner.produced + second.runner.produced == whole.produced
    ensures |Recorded(h)| == |first.machine.trace| ==> second.runner.commands == whole.commands
  {
    hide Simulates, Reaches, Run, SameWorld, Writes, Lawful, RunUpdateHandlers, UpdatesIn, SameState, Identities,
         AnswerRecord, Resident, Follows;
    var m := WholeRun(env, h, wholeLive, budget, whole);
    var past := TwoLinks(env, h, first, second, live);
    var end := LastLeft(env, h, second, past, |first.machine.trace|);
    ReachesUnique(env, h, m, end);
    SimulatesSame(env, Know(h), past, |first.machine.trace|, Left(h, second), RecordedBy(m, h), 0, whole, m);
    if |Recorded(h)| == |first.machine.trace| {
      UpdatesKeepCommands(second.runner, UpdatesIn(h[second.seen..second.done]));
      CommandsParts(env, Know(h), past, RecordedBy(m, h), |first.machine.trace|, Left(h, second), whole, m);
    }
  }

  lemma {:induction false} ChainTo(env: Env, h: History, links: seq<Link>, live: World, i: nat)
    returns (past: seq<Command>, start: nat)
    requires Lawful(env, h) && Chain(env, h, links, live) && i < |links|
    ensures Resident(env, h, links[i].seen, past, start, links[i].runner, links[i].machine)
    ensures Stream(links[..i + 1]) == Identities(links[i].machine.trace)
    decreases i
  {
    hide Resident, Lawful, Run, SameWorld, LinkAt, Follows, Identities;
    assert links[..i + 1][..i] == links[..i];
    if i == 0 {
      start := 0;
      past := FirstLink(env, h, links[0], live);
      assert Stream(links[..0]) == [];
    } else {
      past, start := ChainTo(env, h, links, live, i - 1);
      NextLink(env, h, links[i - 1], links[i], past, start);
      start := |links[i - 1].machine.trace|;
    }
  }

  /** However many tasks the history was cut into, and whatever updates each of them accepted, the runner
      that the last one leaves stands where a full replay of the whole history stands, and the streams of
      all tasks concatenate to what that replay produces. */
  lemma ManyContinuations(env: Env, h: History, links: seq<Link>, live: World, wholeLive: World, budget: nat, whole: RunnerState)
    requires Lawful(env, h) && Chain(env, h, links, live) && links[|links| - 1].done == |h|
    requires SameWorld(env.world, RecordsOf(h), wholeLive)
    requires whole == Run(NewRunner(env.workflowId, env.body, wholeLive, Scan(h)), budget) && !whole.deadlocked
    ensures LinkAt(env, h, links[|links| - 1]) && SameState(Left(h, links[|links| - 1]), whole)
    ensures Stream(links) == whole.produced
  {
    hide Simulates, Resident, Reaches, Run, SameWorld, Writes, Lawful, RunUpdates, RunUpdateHandlers, UpdatesIn, Follows, SameState;
    var last := links[|links| - 1];
    assert LinkAt(env, h, last);
    var past, start := ChainTo(env, h, links, live, |links| - 1);
    assert links[..|links|] == links;
    var end := LastLeft(env, h, last, past, start);
    var m := WholeRun(env, h, wholeLive, budget, whole);
    ReachesUnique(env, h, m, end);
    SimulatesSame(env, Know(h), past, start, Left(h, last), RecordedBy(m, h), 0, whole, m);
  }
}
