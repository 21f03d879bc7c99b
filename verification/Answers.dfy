/** What the server's record gains when a task is answered, and what stays true of it. */
module Answers {
  import opened Basics
  import opened Workflow
  import opened Machine
  import opened HistoryScan
  import opened ScanFacts
  import opened Engine
  import opened Simulation
  import opened Progress
  import opened Replay
  import opened Continuation
  import opened Guarantees
  import opened TaskHandling
  import opened Cluster

  lemma NextFacts(h: History, a: Attributes)
    ensures var h' := Next(h, a);
            |h'| == |h| + 1 && h'[..|h|] == h && h'[|h|] == Event(|h| + 1, a) && h'[..|h'| - 1] == h && h'[..|h'|] == h'
    ensures forall n :: 0 <= n <= |h| ==> Next(h, a)[..n] == h[..n]
    ensures Recorded(Next(h, a)) == Recorded(h) + if a.CommandRecorded? then [a.record] else []
    ensures Know(Next(h, a)) == Learn(Know(h), h, a)
  {
    assert Next(h, a)[..|h|] == h;
  }

  // ---- Lawful histories grow lawfully ----------------------------------------------------------

  lemma PlausibleNext(h: History, a: Attributes)
    requires Plausible(h) && PlausibleAt(Next(h, a), |h|)
    ensures Plausible(Next(h, a))
  {
    var h' := Next(h, a);
    forall i | 0 <= i < |h'|
      ensures PlausibleAt(h', i)
    {
      if i < |h| {
        assert h'[..i] == h[..i];
        assert PlausibleAt(h, i);
      }
    }
  }

  lemma LawfulNext(env: Env, h: History, a: Attributes)
    requires Lawful(env, h) && PlausibleAt(Next(h, a), |h|) && Authored(env, Next(h, a))
    ensures Lawful(env, Next(h, a))
  {
    hide PlausibleAt, Authored;
    NextFacts(h, a);
    PlausibleNext(h, a);
    var h' := Next(h, a);
    forall q | 0 <= q <= |h'|
      ensures Authored(env, h'[..q])
    {
      if q <= |h| {
        assert h'[..q] == h[..q];
      } else {
        assert h'[..q] == h';
      }
    }
  }

  /** Events that are not commands leave the authorship as it is. */
  lemma AuthoredNext(env: Env, h: History, a: Attributes)
    requires Authored(env, h) && !a.CommandRecorded?
    ensures Authored(env, Next(h, a))
  {
    hide Reaches, Writes, Recorded;
    NextFacts(h, a);
    if Recorded(h) != [] {
      var s: nat, m :| AuthoredAt(env, h, s, m);
      assert Recorded(Next(h, a)) == Recorded(h) && Next(h, a)[..s] == h[..s];
      assert AuthoredAt(env, Next(h, a), s, m);
    }
  }

  lemma LawfulArrival(env: Env, h: History, a: Attributes)
    requires Lawful(env, h) && !a.CommandRecorded? && PlausibleAt(Next(h, a), |h|)
    ensures Lawful(env, Next(h, a))
  {
    hide PlausibleAt, Authored;
    LawfulParts(env, h);
    AuthoredNext(env, h, a);
    LawfulNext(env, h, a);
  }

  // ---- The answer of a task --------------------------------------------------------------------

  /** The history recorded the first `n` commands of `m`, and that is where it leads. */
  ghost predicate Written(env: Env, h: History, m: Machine, n: nat) {
    Lawful(env, h) && Reaches(env, h, m) && Writes(m, Recorded(h)) && |Recorded(h)| == n
  }

  /** Bookkeeping events and recorded commands move nothing. */
  lemma StaysNext(env: Env, h: History, a: Attributes, m: Machine)
    requires Reaches(env, h, m) && (a.OtherEvent? || a.CommandRecorded?)
    ensures Reaches(env, Next(h, a), m) && PlausibleAt(Next(h, a), |h|)
  {
    hide Reaches, Recorded;
    NextFacts(h, a);
    ReachesKeeps(env, h, m);
    StaysPut(env, Next(h, a), |h|, m);
  }

  lemma AuthoredHere(env: Env, h: History, m: Machine)
    requires Reaches(env, h, m) && Writes(m, Recorded(h))
    ensures Authored(env, h)
  {
    assert h[..|h|] == h;
    assert AuthoredAt(env, h, |h|, m);
  }

  lemma WrittenNext(env: Env, h: History, a: Attributes, m: Machine, n: nat)
    requires Written(env, h, m, n)
    requires a.OtherEvent? || (n < |m.trace| && a == CommandRecorded(RecordingOf(m.trace[n])))
    ensures Written(env, Next(h, a), m, if a.OtherEvent? then n else n + 1)
  {
    hide Reaches, Lawful, Recorded, PlausibleAt, Authored;
    NextFacts(h, a);
    StaysNext(env, h, a, m);
    AuthoredHere(env, Next(h, a), m);
    LawfulNext(env, h, a);
  }

  lemma {:induction false} WrittenCommands(env: Env, h: History, m: Machine, n: nat, commands: seq<Command>)
    requires Written(env, h, m, n) && n + |commands| <= |m.trace| && commands == m.trace[n..n + |commands|]
    ensures Written(env, WithCommands(h, commands), m, n + |commands|)
  {
    if commands != [] {
      hide Written, RecordingOf;
      var i := |commands| - 1;
      WrittenCommands(env, h, m, n, commands[..i]);
      assert commands[i] == m.trace[n + i];
      WrittenNext(env, WithCommands(h, commands[..i]), CommandRecorded(RecordingOf(commands[i])), m, n + i);
    }
  }

  lemma WrittenUpdate(env: Env, h: History, m: Machine, n: nat, u: Update)
    requires Written(env, h, m, n)
    ensures Written(env, Next(h, UpdateAccepted(u.name, u.args)), RunUpdate(m, u.name, u.args), n)
  {
    var a := UpdateAccepted(u.name, u.args);
    var m' := RunUpdate(m, u.name, u.args);
    hide Reaches, Recorded, Authored, Plausible, Numbered, RunUpdate;
    NextFacts(h, a);
    assert h[..|h|] == h;
    RunUpdateTrace(m, u);
    AuthoredNext(env, h, a);
    LawfulNext(env, h, a);
    ReachesNext(env, Next(h, a), m, m');
  }

  lemma RunUpdateTrace(m: Machine, u: Update)
    ensures RunUpdate(m, u.name, u.args).trace == m.trace
  {
  }

  lemma {:induction false} WrittenUpdates(env: Env, h: History, m: Machine, n: nat, updates: seq<Update>)
    requires Written(env, h, m, n)
    ensures Written(env, WithUpdates(h, updates), RunUpdates(m, updates), n) && RunUpdates(m, updates).trace == m.trace
  {
    if updates != [] {
      hide Written;
      var i := |updates| - 1;
      WrittenUpdates(env, h, m, n, updates[..i]);
      RunUpdateTrace(RunUpdates(m, updates[..i]), updates[i]);
      WrittenUpdate(env, WithUpdates(h, updates[..i]), RunUpdates(m, updates[..i]), n, updates[i]);
    }
  }

  /** The answer to a task, once recorded, is everything the body has done. */
  lemma AnswerRecorded(env: Env, h: History, m: Machine, n: nat, commands: seq<Command>, updates: seq<Update>, closing: Option<Closing>)
    requires Written(env, h, m, n)
    requires m.trace[n..] == commands + match closing case Some(how) => [CloseWorkflow(how)] case None => []
    requires n <= |m.trace|
    ensures Written(env, Accepted(h, Response.Completed(commands, updates, closing)), RunUpdates(m, updates), |m.trace|)
  {
    hide Written, WithCommands, WithUpdates, RunUpdates;
    WrittenNext(env, h, OtherEvent, m, n);
    var h1 := Next(h, OtherEvent);
    assert m.trace[n..][..|commands|] == m.trace[n..n + |commands|];
    WrittenCommands(env, h1, m, n, commands);
    var h2 := WithCommands(h1, commands);
    WrittenUpdates(env, h2, m, n + |commands|, updates);
    var h3 := WithUpdates(h2, updates);
    if closing.Some? {
      assert m.trace[n..][|commands|] == m.trace[n + |commands|];
      WrittenNext(env, h3, CommandRecorded(WorkflowClosed(closing.value)), RunUpdates(m, updates), n + |commands|);
    }
  }

  lemma {:induction false} CommandsExtend(h: History, commands: seq<Command>)
    ensures h <= WithCommands(h, commands)
  {
    if commands != [] {
      CommandsExtend(h, commands[..|commands| - 1]);
    }
  }

  lemma {:induction false} UpdatesExtend(h: History, updates: seq<Update>)
    ensures h <= WithUpdates(h, updates)
  {
    if updates != [] {
      UpdatesExtend(h, updates[..|updates| - 1]);
    }
  }

  lemma AcceptedExtends(h: History, response: Response)
    ensures h <= Accepted(h, response)
  {
    if response.Completed? {
      CommandsExtend(Next(h, OtherEvent), response.commands);
      UpdatesExtend(WithCommands(Next(h, OtherEvent), response.commands), response.updates);
    }
  }

  /** A body that has ended while its history is open has not recorded its end. */
  lemma EndNotRecorded(env: Env, h: History, m: Machine)
    requires Consistent(env, m) && Writes(m, Recorded(h)) && m.phase.Finished? && !Closed(h)
    ensures |Recorded(h)| < |m.trace|
  {
    hide Tallied, AllMinted, WellNumbered, CancelsHeld, Recorded;
  }

  // ---- A replay in another world ---------------------------------------------------------------

  /** The recorded values, and `live` ones after them. */
  function Onward(records: Records, live: World): World {
    World((i: nat) => if i < |records.sideEffects| then records.sideEffects[i] else live.side(i),
          (i: nat) => if i < |records.localActivities| then records.localActivities[i] else live.local(i))
  }

  lemma OnwardIsSame(records: Records, live: World)
    ensures SameWorld(Onward(records, live), records, live)
  {
  }

  /** Everything `m` consumed is recorded, so another world with the same records is no different. */
  lemma OnwardAgrees(env: Env, h: History, m: Machine, live: World)
    requires Consistent(env, m) && Writes(m, Recorded(h)) && |Recorded(h)| == |m.trace|
    ensures AgreeUpTo(env.world, Onward(RecordsOf(h), live), m.counters)
  {
    hide RecordsOf, Recorded, AllMinted, WellNumbered, CancelsHeld, EndsOnce, RecordsExactly;
    WritesExactly(env, m, h);
    assert RecordedBy(m, h) == m.trace;
    RecordedMarkers(env, h, m.trace);
  }

  lemma AuthorInWorld(env: Env, world: World, h: History, s: nat, m: Machine)
    requires AuthoredAt(env, h, s, m) && AgreeUpTo(env.world, world, m.counters)
    ensures AuthoredAt(InWorld(env, world), h, s, m)
  {
    hide Reaches, AgreeUpTo, Writes, Recorded;
    ReachesInWorld(env, world, h[..s], m);
  }

  /** The same author serves for every earlier moment that lies behind it. */
  lemma AuthoredInWorld(env: Env, world: World, h: History, c: nat, m: Machine, q: nat)
    requires Lawful(env, h) && q <= |h| && AuthoredAt(env, h, c, m) && AgreeUpTo(env.world, world, m.counters)
    ensures Authored(InWorld(env, world), h[..q])
  {
    hide Reaches, AgreeUpTo, Writes, Recorded, Consistent;
    assert Authored(env, h[..q]);
    if Recorded(h[..q]) != [] {
      var s: nat, author :| AuthoredAt(env, h[..q], s, author);
      assert h[..q][..s] == h[..s];
      if s <= c {
        var mid := ReachesPrefix(env, h[..c], m, s);
        assert h[..c][..s] == h[..s];
        ReachesUnique(env, h[..s], mid, author);
        Fewer(env, world, h[..s], author, h[..c], m);
        AuthorInWorld(env, world, h[..q], s, author);
      } else {
        WritesPrefix(m, h, q);
        assert h[..q][..c] == h[..c];
        AuthorInWorld(env, world, h[..q], c, m);
      }
    }
  }

  lemma Fewer(env: Env, world: World, ha: History, a: Machine, hb: History, b: Machine)
    requires Reaches(env, ha, a) && Reaches(env, hb, b) && a.trace <= b.trace && AgreeUpTo(env.world, world, b.counters)
    ensures AgreeUpTo(env.world, world, a.counters)
  {
    hide Reaches, AgreeUpTo, AllMinted, WellNumbered, CancelsHeld, EndsOnce;
    ReachesKeeps(env, ha, a);
    ReachesKeeps(env, hb, b);
    LongerConsumes(a, b);
    FewerConsumed(env.world, world, a.counters, b.counters);
  }

  lemma LawfulInWorld(env: Env, world: World, h: History, c: nat, m: Machine)
    requires Lawful(env, h) && AuthoredAt(env, h, c, m) && AgreeUpTo(env.world, world, m.counters)
    ensures Lawful(InWorld(env, world), h)
  {
    hide AuthoredAt, AgreeUpTo, Numbered, Plausible, Authored;
    forall q | 0 <= q <= |h|
      ensures Authored(InWorld(env, world), h[..q])
    {
      AuthoredInWorld(env, world, h, c, m, q);
    }
  }

  lemma LawfulUnrecorded(env: Env, world: World, h: History)
    requires Lawful(env, h) && Recorded(h) == []
    ensures Lawful(InWorld(env, world), h)
  {
    hide Numbered, Plausible;
    forall q | 0 <= q <= |h|
      ensures Authored(InWorld(env, world), h[..q])
    {
      RecordedGrows(h, q);
    }
  }
}
