/** The session slots of a worker (src/internal/worker_impl.cpp, RegisterSessionActivities): two
    compare-and-swap loops on one atomic counter, run by any number of threads at once. */
module Sessions {

  /** Where a thread is: `seen` is the counter value it last read, which others may have changed since. */
  datatype Thread = Idle | Creating(seen: int) | Completing(seen: int)

  /** `created` and `completed` count the calls that took a slot or gave one back. */
  datatype State = State(active: int, threads: seq<Thread>, created: nat, completed: nat, refused: nat)

  datatype Move =
    | BeginCreate | BeginComplete
    | TryCreate(spurious: bool)     // one round of the loop; a weak swap may fail for no reason
    | TryComplete(spurious: bool)

  predicate Enabled(s: State, t: nat, move: Move) {
    t < |s.threads| &&
    match move
    case BeginCreate | BeginComplete => s.threads[t].Idle?
    case TryCreate(_) => s.threads[t].Creating?
    case TryComplete(_) => s.threads[t].Completing?
  }

  /** A capacity of 0 is unlimited, and then creation is a plain atomic increment. */
  function Step(cap: int, s: State, t: nat, move: Move): State
    requires Enabled(s, t, move)
  {
    match move
    case BeginCreate =>
      if cap > 0 then s.(threads := s.threads[t := Creating(s.active)])
      else s.(active := s.active + 1, created := s.created + 1)
    case BeginComplete => s.(threads := s.threads[t := Completing(s.active)])
    case TryCreate(spurious) =>
      if s.threads[t].seen >= cap then s.(threads := s.threads[t := Idle], refused := s.refused + 1)
      else if s.active == s.threads[t].seen && !spurious then
        s.(active := s.active + 1, created := s.created + 1, threads := s.threads[t := Idle])
      else s.(threads := s.threads[t := Creating(s.active)])
    case TryComplete(spurious) =>
      if s.threads[t].seen <= 0 then s.(threads := s.threads[t := Idle])
      else if s.active == s.threads[t].seen && !spurious then
        s.(active := s.active - 1, completed := s.completed + 1, threads := s.threads[t := Idle])
      else s.(threads := s.threads[t := Completing(s.active)])
  }

  /** No slot is lost or handed out twice, the capacity holds, and only a thread that saw every slot
      taken is about to be refused. */
  predicate Invariant(cap: int, s: State) {
    s.active == s.created - s.completed && s.active >= 0 && (cap > 0 ==> s.active <= cap) &&
    (cap > 0 && s.refused > 0 ==> s.created >= cap) &&
    (forall t :: 0 <= t < |s.threads| ==> SeenIsOld(cap, s, s.threads[t]))
  }

  /** What a thread saw was once the counter. */
  predicate SeenIsOld(cap: int, s: State, thread: Thread) {
    match thread
    case Idle => true
    case Creating(seen) => cap > 0 && 0 <= seen <= cap && seen <= s.created
    case Completing(seen) => seen >= 0
  }

  ghost predicate Reaches(cap: int, start: State, moves: seq<(nat, Move)>, end: State)
    decreases |moves|
  {
    if moves == [] then start == end
    else Enabled(start, moves[0].0, moves[0].1) && Reaches(cap, Step(cap, start, moves[0].0, moves[0].1), moves[1..], end)
  }

  lemma {:induction false} SlotsConserved(cap: int, start: State, moves: seq<(nat, Move)>, end: State)
    requires Invariant(cap, start) && Reaches(cap, start, moves, end)
    ensures Invariant(cap, end)
    decreases |moves|
  {
    if moves != [] {
      SlotsConserved(cap, Step(cap, start, moves[0].0, moves[0].1), moves[1..], end);
    }
  }

  /** How a thread leaves its loop. A creation takes one slot, or is refused having seen none left; a
      completion gives one slot back, or has seen that there is none to give back. */
  lemma LeavesWithASlot(cap: int, s: State, t: nat, move: Move)
    requires Enabled(s, t, move) && Step(cap, s, t, move).threads[t].Idle?
    ensures var s' := Step(cap, s, t, move);
            if move.BeginCreate? || move.TryCreate? then
              (s'.active == s.active + 1 && s'.created == s.created + 1 && s'.refused == s.refused) ||
              (move.TryCreate? && s.threads[t].seen >= cap && s' == s.(threads := s'.threads, refused := s.refused + 1))
            else
              (s'.active == s.active - 1 && s'.completed == s.completed + 1) ||
              (move.TryComplete? && s.threads[t].seen <= 0 && s' == s.(threads := s'.threads))
  {
  }

  /** A round that has to be repeated was spurious, or another thread has changed the counter in between:
      then some thread got on. The repeated round has seen the counter as it is now. */
  lemma RepeatsOnlyIfBehind(cap: int, s: State, t: nat, move: Move)
    requires Enabled(s, t, move) && (move.TryCreate? || move.TryComplete?) && !Step(cap, s, t, move).threads[t].Idle?
    ensures move.spurious || s.threads[t].seen != s.active
    ensures Step(cap, s, t, move) == s.(threads := s.threads[t := if move.TryCreate? then Creating(s.active) else Completing(s.active)])
  {
  }

  /** Undisturbed, a creation takes the slot that is left and a completion gives back one that is out. */
  lemma Undisturbed(cap: int, s: State, t: nat)
    requires t < |s.threads| && s.threads[t].Idle?
    ensures cap > 0 && s.active < cap ==>
              Reaches(cap, s, [(t, BeginCreate), (t, TryCreate(false))], s.(active := s.active + 1, created := s.created + 1))
    ensures cap <= 0 ==> Reaches(cap, s, [(t, BeginCreate)], s.(active := s.active + 1, created := s.created + 1))
    ensures s.active > 0 ==>
              Reaches(cap, s, [(t, BeginComplete), (t, TryComplete(false))], s.(active := s.active - 1, completed := s.completed + 1))
  {
    assert s.threads[t := Creating(s.active)][t := Idle] == s.threads == s.threads[t := Completing(s.active)][t := Idle];
    TwoMoves(cap, s, (t, BeginCreate), (t, TryCreate(false)));
    TwoMoves(cap, s, (t, BeginComplete), (t, TryComplete(false)));
    if cap <= 0 {
      assert [(t, BeginCreate)][1..] == [];
    }
  }

  lemma TwoMoves(cap: int, s: State, a: (nat, Move), b: (nat, Move))
    ensures Enabled(s, a.0, a.1) && Enabled(Step(cap, s, a.0, a.1), b.0, b.1) ==>
              Reaches(cap, s, [a, b], Step(cap, Step(cap, s, a.0, a.1), b.0, b.1))
  {
    assert [a, b][1..] == [b] && [b][1..] == [];
  }
}
