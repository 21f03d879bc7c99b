/** Where a workflow stands after a history: each event is taken in and the body resumed until it
    rests; each accepted update runs its handler against the parked body. This is how the live
    workflow went through its history, and what every replay has to rebuild. */
module Progress {
  import opened Basics
  import opened Workflow
  import opened Machine
  import opened HistoryScan
  import opened ScanFacts

  /** Taking in one more event moves the resting body from `m0` to `m`. */
  ghost predicate Arrives(env: Env, k: Knowledge, m0: Machine, a: Attributes, m: Machine) {
    if a.UpdateAccepted? then m == RunUpdate(m0, a.name, a.args) else Settles(env, k, m0, m)
  }

  /** The last event of `h` moves the resting body from `m0` to `m`. */
  ghost predicate LastMoves(env: Env, h: History, m0: Machine, m: Machine)
    requires h != []
  {
    Arrives(env, Know(h), m0, h[|h| - 1].attributes, m)
  }

  ghost predicate Reaches(env: Env, h: History, m: Machine)
    decreases |h|
  {
    if h == [] then Settles(env, NOTHING, Init(env), m)
    else exists m0 :: LastMoves(env, h, m0, m) && Reaches(env, h[..|h| - 1], m0)
  }

  // ---- What the server guarantees about resolutions --------------------------------------------

  /** A resolution names a future that was created and is not resolved yet; only the child
      resolutions that the engine has no case for name none. */
  ghost predicate PlausibleAt(h: History, i: nat)
    requires i < |h|
  {
    h[i].attributes.FutureResolved? ==>
      match Resolves(h[..i], h[i].attributes.how)
      case Some(r) => r.0 in Created(h[..i]) && r.0 !in Know(h[..i]).resolved
      case None => h[i].attributes.how.ChildResolved?
  }

  ghost predicate Plausible(h: History) {
    forall i :: 0 <= i < |h| ==> PlausibleAt(h, i)
  }

  lemma PlausiblePrefix(h: History, n: nat)
    requires n <= |h| && Plausible(h)
    ensures Plausible(h[..n]) && ResolvedOnce(h[..n])
  {
    forall i | 0 <= i < n
      ensures PlausibleAt(h[..n], i) && ResolvedOnceAt(h[..n], i)
    {
      assert PlausibleAt(h, i);
      assert h[..n][..i] == h[..i];
    }
  }

  lemma KnowExtendsLast(h: History)
    requires h != [] && Plausible(h)
    ensures Extends(Know(h[..|h| - 1]), Know(h))
  {
    assert PlausibleAt(h, |h| - 1);
  }

  lemma {:induction false} KnowExtends(h: History, n: nat)
    requires n <= |h| && Plausible(h)
    ensures Extends(Know(h[..n]), Know(h))
    decreases |h|
  {
    if n < |h| {
      PlausiblePrefix(h, |h| - 1);
      KnowExtends(h[..|h| - 1], n);
      assert h[..|h| - 1][..n] == h[..n];
      KnowExtendsLast(h);
      ExtendsTransitive(Know(h[..n]), Know(h[..|h| - 1]), Know(h));
    } else {
      assert h[..n] == h;
    }
  }

  lemma ExtendsTransitive(a: Knowledge, b: Knowledge, c: Knowledge)
    requires Extends(a, b) && Extends(b, c)
    ensures Extends(a, c)
  {
    forall name
      ensures Pending(a, name) <= Pending(c, name)
    {
      assert Pending(a, name) <= Pending(b, name) && Pending(b, name) <= Pending(c, name);
    }
  }

  // ---- Facts about where a history leads --------------------------------------------------------

  /** Where the history before the last event led. */
  lemma Before(env: Env, h: History, m: Machine) returns (m0: Machine)
    requires h != [] && Reaches(env, h, m)
    ensures Reaches(env, h[..|h| - 1], m0) && Arrives(env, Know(h), m0, h[|h| - 1].attributes, m)
  {
    m0 :| LastMoves(env, h, m0, m) && Reaches(env, h[..|h| - 1], m0);
  }

  lemma ReachesNext(env: Env, h: History, m0: Machine, m: Machine)
    requires h != [] && Reaches(env, h[..|h| - 1], m0) && Arrives(env, Know(h), m0, h[|h| - 1].attributes, m)
    ensures Reaches(env, h, m)
  {
    assert LastMoves(env, h, m0, m);
  }

  lemma {:induction false} ReachesUnique(env: Env, h: History, a: Machine, b: Machine)
    requires Reaches(env, h, a) && Reaches(env, h, b)
    ensures a == b
    decreases |h|
  {
    if h == [] {
      SettlesUnique(env, NOTHING, Init(env), a, b);
    } else {
      var a0 := Before(env, h, a);
      var b0 := Before(env, h, b);
      ReachesUnique(env, h[..|h| - 1], a0, b0);
      if !h[|h| - 1].attributes.UpdateAccepted? {
        SettlesUnique(env, Know(h), a0, a, b);
      }
    }
  }

  lemma UpdateKeeps(env: Env, k: Knowledge, m: Machine, name: string, args: Payloads)
    requires Consistent(env, m) && Settled(k, m)
    ensures var m' := RunUpdate(m, name, args);
            Consistent(env, m') && Settled(k, m') && m'.trace == m.trace
  {
  }

  lemma ArrivesKeeps(env: Env, k0: Knowledge, k: Knowledge, m0: Machine, a: Attributes, m: Machine)
    requires Consistent(env, m0) && Settled(k0, m0) && Arrives(env, k, m0, a, m)
    requires a.UpdateAccepted? ==> k == k0
    ensures Consistent(env, m) && Settled(k, m) && m0.trace <= m.trace
  {
    if a.UpdateAccepted? {
      UpdateKeeps(env, k, m0, a.name, a.args);
    } else {
      SettlesKeeps(env, k, m0, m);
    }
  }

  lemma {:induction false} ReachesKeeps(env: Env, h: History, m: Machine)
    requires Reaches(env, h, m)
    ensures Consistent(env, m) && Settled(Know(h), m)
    decreases |h|
  {
    if h == [] {
      InitConsistent(env);
      SettlesKeeps(env, NOTHING, Init(env), m);
    } else {
      var m0 := Before(env, h, m);
      ReachesKeeps(env, h[..|h| - 1], m0);
      ArrivesKeeps(env, Know(h[..|h| - 1]), Know(h), m0, h[|h| - 1].attributes, m);
    }
  }

  /** The workflow came through every prefix of its history, and its commands only grew. */
  lemma {:induction false} ReachesPrefix(env: Env, h: History, m: Machine, n: nat) returns (mid: Machine)
    requires n <= |h| && Reaches(env, h, m)
    ensures Reaches(env, h[..n], mid) && mid.trace <= m.trace
    decreases |h|
  {
    if n == |h| {
      mid := m;
      assert h[..n] == h;
    } else {
      var m0 := Before(env, h, m);
      ReachesKeeps(env, h[..|h| - 1], m0);
      ArrivesKeeps(env, Know(h[..|h| - 1]), Know(h), m0, h[|h| - 1].attributes, m);
      mid := ReachesPrefix(env, h[..|h| - 1], m0, n);
      assert h[..|h| - 1][..n] == h[..n];
    }
  }

  ghost predicate Updateless(h: History, from: nat) {
    forall i :: from <= i < |h| ==> !h[i].attributes.UpdateAccepted?
  }

  /** Taking in events one by one is taking them in at once: a batch without updates leads from `m0`
      to wherever the body rests under everything the batch says, and nowhere else. */
  lemma {:induction false} ReachesBatch(env: Env, h: History, from: nat, m0: Machine, m: Machine)
    requires from <= |h| && Plausible(h) && Updateless(h, from) && Reaches(env, h[..from], m0)
    ensures Reaches(env, h, m) <==> Settles(env, Know(h), m0, m)
    decreases |h|
  {
    hide Extends, Plausible, PlausibleAt;
    if from == |h| {
      assert h[..from] == h;
      ReachesKeeps(env, h, m0);
      assert Iterate(env, Know(h), m0, 0) == m0;
      if Reaches(env, h, m) {
        ReachesUnique(env, h, m0, m);
      }
      if Settles(env, Know(h), m0, m) {
        SettlesUnique(env, Know(h), m0, m0, m);
      }
    } else {
      var past := h[..|h| - 1];
      assert past[..from] == h[..from];
      PlausiblePrefix(h, |past|);
      KnowExtendsLast(h);
      if Reaches(env, h, m) {
        var mid := Before(env, h, m);
        ReachesBatch(env, past, from, m0, mid);
        Absorption(env, Know(past), Know(h), m0, mid, m);
      }
      if Settles(env, Know(h), m0, m) {
        KnowExtends(past, from);
        var mid := RestsOnTheWay(env, Know(past), Know(h), m0, m);
        ReachesBatch(env, past, from, m0, mid);
        ReachesNext(env, h, mid, m);
      }
    }
  }

  /** Before any update, the whole history can be taken in at the start. */
  lemma ReachesFromStart(env: Env, h: History, m: Machine)
    requires Plausible(h) && Updateless(h, 0)
    ensures Reaches(env, h, m) <==> Settles(env, Know(h), Init(env), m)
  {
    hide Reaches, Settles, Plausible;
    assert Extends(Know([]), Know(h)) by {
      KnowExtends(h, 0);
      assert h[..0] == [];
    }
    if Reaches(env, h, m) {
      var m0 := ReachesPrefix(env, h, m, 0);
      FromStart(env, h, m0, m);
    }
    if Settles(env, Know(h), Init(env), m) {
      var m0 := RestsOnTheWay(env, NOTHING, Know(h), Init(env), m);
      NothingYet(env, m0);
      assert h[..0] == [];
      FromStart(env, h, m0, m);
    }
  }

  lemma NothingYet(env: Env, m: Machine)
    ensures Reaches(env, [], m) <==> Settles(env, NOTHING, Init(env), m)
  {
  }

  lemma FromStart(env: Env, h: History, m0: Machine, m: Machine)
    requires Plausible(h) && Updateless(h, 0) && Reaches(env, h[..0], m0)
    ensures Reaches(env, h, m) <==> Settles(env, Know(h), Init(env), m)
  {
    hide Reaches, Settles, Plausible;
    KnowExtends(h, 0);
    assert h[..0] == [];
    NothingYet(env, m0);
    ReachesBatch(env, h, 0, m0, m);
    Absorption(env, NOTHING, Know(h), Init(env), m0, m);
  }

  /** What history has recorded are the first commands of `m`. */
  ghost predicate Writes(m: Machine, recorded: seq<Recording>) {
    |recorded| <= |m.trace| &&
    forall i :: 0 <= i < |recorded| ==> recorded[i] == RecordingOf(m.trace[i])
  }

  /** The recorded commands of `h` all come from the body at rest on the first `s` events. */
  ghost predicate AuthoredAt(env: Env, h: History, s: nat, m: Machine) {
    s <= |h| && Reaches(env, h[..s], m) && Writes(m, Recorded(h))
  }

  ghost predicate Authored(env: Env, h: History) {
    Recorded(h) == [] || exists s: nat, m :: AuthoredAt(env, h, s, m)
  }

  /** A history that the server and this workflow can build together: numbered events, plausible
      resolutions, and at each moment only commands that some task had answered with by then. */
  ghost predicate Lawful(env: Env, h: History) {
    Numbered(h) && Plausible(h) && forall q :: 0 <= q <= |h| ==> Authored(env, h[..q])
  }
}
