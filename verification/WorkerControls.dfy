/** The controls a worker's poll loops share (src/internal/worker_impl.h): the concurrency gate and its
    guards, the poller scaler, the rate limiter. Each is used by many threads under its own mutex, so a
    run is a sequence of whole calls; a call that waits happens when its wait is over. */
module WorkerControls {
  import opened Basics

  // ---- ConcurrencyGate and GateGuard -------------------------------------------------------------

  datatype Gate = Gate(limit: int, inFlight: int, released: bool)

  /** The condition `Acquire` waits for; an unlimited gate does not wait. */
  predicate MayAcquire(g: Gate) {
    g.limit <= 0 || g.released || g.inFlight < g.limit
  }

  /** Whether `Acquire` takes a permit. An unlimited gate does not look at `released`. */
  predicate Grants(g: Gate) {
    g.limit <= 0 || !g.released
  }

  function Acquired(g: Gate): Gate {
    if Grants(g) then g.(inFlight := g.inFlight + 1) else g
  }

  function Returned(g: Gate): Gate {
    if g.inFlight > 0 then g.(inFlight := g.inFlight - 1) else g
  }

  class ConcurrencyGate {
    const limit: int
    var inFlight: int
    var released: bool

    ghost function State(): Gate
      reads this
    {
      Gate(limit, inFlight, released)
    }

    constructor (limit: int)
      ensures State() == Gate(limit, 0, false)
    {
      this.limit, inFlight, released := limit, 0, false;
    }

    /** Returns when the awaited condition holds. */
    method Acquire() returns (held: bool)
      requires MayAcquire(State())
      modifies this
      ensures held <==> limit <= 0 || !old(released)
      ensures inFlight == old(inFlight) + (if held then 1 else 0) && released == old(released)
      ensures held == Grants(old(State())) && State() == Acquired(old(State()))
    {
      if limit <= 0 {
        inFlight := inFlight + 1;
        return true;
      }
      if released {
        return false;
      }
      inFlight := inFlight + 1;
      return true;
    }

    method Release()
      modifies this
      ensures State() == Returned(old(State()))
    {
      if inFlight > 0 {
        inFlight := inFlight - 1;
      }
    }

    method ReleaseAll()
      modifies this
      ensures State() == old(State()).(released := true)
    {
      released := true;
    }

    /** What `Drain` reports: whether its condition held before the deadline. */
    method Drained() returns (drained: bool)
      ensures drained == (State().inFlight == 0)
    {
      drained := inFlight == 0;
    }
  }

  /** The permits: a guard releases on destruction exactly if it still holds. */
  class GateGuard {
    const gate: ConcurrencyGate
    var held: bool

    constructor (gate: ConcurrencyGate, held: bool)
      ensures this.gate == gate && this.held == held
    {
      this.gate, this.held := gate, held;
    }

    /** Move construction: the permit changes hands. */
    constructor Move(from: GateGuard)
      modifies from
      ensures gate == from.gate && held == old(from.held) && !from.held
    {
      this.gate, this.held := from.gate, from.held;
      new;
      from.held := false;
    }

    method Destroy()
      modifies gate
      ensures gate.State() == if held then Returned(old(gate.State())) else old(gate.State())
    {
      if held {
        gate.Release();
      }
    }
  }

  /** What threads do to a gate: obtain a guard, let go of a guard that holds, shut the gate. */
  datatype GateUse = Obtain | LetGo | Shut

  /** A gate and how many live guards hold a permit. */
  datatype GateWorld = GateWorld(gate: Gate, guards: nat)

  predicate CanUse(w: GateWorld, use: GateUse) {
    match use
    case Obtain => MayAcquire(w.gate)
    case LetGo => w.guards > 0
    case Shut => true
  }

  function Use(w: GateWorld, use: GateUse): GateWorld
    requires CanUse(w, use)
  {
    match use
    case Obtain => GateWorld(Acquired(w.gate), if Grants(w.gate) then w.guards + 1 else w.guards)
    case LetGo => GateWorld(Returned(w.gate), w.guards - 1)
    case Shut => w.(gate := w.gate.(released := true))
  }

  ghost predicate Uses(w: GateWorld, uses: seq<GateUse>, end: GateWorld)
    decreases |uses|
  {
    if uses == [] then end == w
    else CanUse(w, uses[0]) && Uses(Use(w, uses[0]), uses[1..], end)
  }

  /** Permits are conserved. */
  predicate Balanced(w: GateWorld) {
    w.gate.inFlight == w.guards && (w.gate.limit > 0 ==> w.gate.inFlight <= w.gate.limit)
  }

  /** Whatever the threads do, the count is the number of held guards and never exceeds a positive limit. */
  lemma {:induction false} PermitsConserved(w: GateWorld, uses: seq<GateUse>, end: GateWorld)
    requires Balanced(w) && Uses(w, uses, end)
    ensures Balanced(end) && end.gate.limit == w.gate.limit
    decreases |uses|
  {
    if uses != [] {
      PermitsConserved(Use(w, uses[0]), uses[1..], end);
    }
  }

  /** Obtaining takes one permit, without waiting, from an unlimited gate and from a bounded one that is
      open and has one left; a bounded gate that was shut answers at once and gives none. */
  lemma ObtainGives(w: GateWorld)
    ensures w.gate.limit <= 0 || (!w.gate.released && w.gate.inFlight < w.gate.limit) ==>
              CanUse(w, Obtain) && Use(w, Obtain) == GateWorld(w.gate.(inFlight := w.gate.inFlight + 1), w.guards + 1)
    ensures w.gate.limit > 0 && w.gate.released ==> CanUse(w, Obtain) && Use(w, Obtain) == w
  {
  }

  /** Whoever obtains a permit waits exactly while a bounded, open gate has given out all of them. */
  lemma WaitsExactlyWhenFull(w: GateWorld)
    requires Balanced(w)
    ensures !CanUse(w, Obtain) <==> w.gate.limit > 0 && !w.gate.released && w.guards == w.gate.limit
  {
  }

  lemma {:induction false} UsesMore(w: GateWorld, uses: seq<GateUse>, mid: GateWorld, use: GateUse)
    requires Uses(w, uses, mid) && CanUse(mid, use)
    ensures Uses(w, uses + [use], Use(mid, use))
    decreases |uses|
  {
    if uses == [] {
      assert ([] + [use])[1..] == [];
    } else {
      UsesMore(Use(w, uses[0]), uses[1..], mid, use);
      assert (uses + [use])[1..] == uses[1..] + [use];
    }
  }

  function Obtains(n: nat): seq<GateUse> {
    seq(n, i => Obtain)
  }

  /** A new bounded gate gives out exactly its limit: so many obtain in a row, the next one waits, and
      goes on once a permit is back. */
  lemma {:induction false} FillsUp(limit: nat, n: nat)
    requires n <= limit && limit > 0
    ensures Uses(GateWorld(Gate(limit, 0, false), 0), Obtains(n), GateWorld(Gate(limit, n, false), n))
    ensures var full := GateWorld(Gate(limit, limit, false), limit);
            !CanUse(full, Obtain) && CanUse(full, LetGo) && CanUse(Use(full, LetGo), Obtain)
    decreases n
  {
    if n > 0 {
      FillsUp(limit, n - 1);
      UsesMore(GateWorld(Gate(limit, 0, false), 0), Obtains(n - 1), GateWorld(Gate(limit, n - 1, false), n - 1), Obtain);
      assert Obtains(n) == Obtains(n - 1) + [Obtain];
    }
  }

  /** A bounded gate that was shut and drained stays empty. */
  lemma {:induction false} DrainedForGood(w: GateWorld, uses: seq<GateUse>, end: GateWorld)
    requires Balanced(w) && w.gate.limit > 0 && w.gate.released && w.gate.inFlight == 0 && Uses(w, uses, end)
    ensures end.gate.released && end.gate.inFlight == 0
    decreases |uses|
  {
    if uses != [] {
      DrainedForGood(Use(w, uses[0]), uses[1..], end);
    }
  }

  ghost predicate StaysEmpty(w: GateWorld) {
    forall uses, end :: Uses(w, uses, end) ==> end.gate.inFlight == 0
  }

  /** For which gates a drain is for good: exactly the bounded ones. */
  lemma DrainIsFinalIffBounded(w: GateWorld)
    requires Balanced(w) && w.gate.released && w.gate.inFlight == 0
    ensures w.gate.limit > 0 <==> StaysEmpty(w)
  {
    if w.gate.limit > 0 {
      forall uses, end | Uses(w, uses, end)
        ensures end.gate.inFlight == 0
      {
        DrainedForGood(w, uses, end);
      }
    } else {
      var end := Use(w, Obtain);
      assert Uses(w, [Obtain], end) by {
        assert [Obtain][1..] == [];
      }
      assert end.gate.inFlight == 1;
    }
  }

  // ---- PollerScaler ------------------------------------------------------------------------------

  datatype Scaler = Scaler(alwaysHot: int, maxScalable: int, threshold: int, active: int, target: int, streak: int)

  function Reported(s: Scaler, gotTask: bool): Scaler {
    if gotTask then s.(streak := 0, target := if s.target < s.maxScalable then s.target + 1 else s.target)
    else if s.streak + 1 >= s.threshold then s.(streak := 0, target := if s.target > 0 then s.target - 1 else s.target)
    else s.(streak := s.streak + 1)
  }

  class PollerScaler {
    var alwaysHot: int
    var maxScalable: int
    var threshold: int
    var active: int
    var target: int
    var streak: int

    ghost function State(): Scaler
      reads this
    {
      Scaler(alwaysHot, maxScalable, threshold, active, target, streak)
    }

    constructor ()
      ensures State() == Scaler(0, 0, 1, 0, 0, 0)
    {
      alwaysHot, maxScalable, threshold, active, target, streak := 0, 0, 1, 0, 0, 0;
    }

    method Configure(alwaysHot: int, maxScalable: int, emptyPollsBeforeScaleDown: int)
      modifies this
      ensures State() == Scaler(alwaysHot, maxScalable, Max(emptyPollsBeforeScaleDown, 1), old(active), 0, old(streak))
    {
      this.alwaysHot, this.maxScalable := alwaysHot, maxScalable;
      threshold := if emptyPollsBeforeScaleDown > 0 then emptyPollsBeforeScaleDown else 1;
      target := 0;
    }

    /** Returns when the awaited condition holds; a stopped worker takes no slot. */
    method Acquire(stop: bool) returns (taken: bool)
      requires stop || State().active < State().target
      modifies this`active
      ensures taken == !stop && State() == if stop then old(State()) else old(State()).(active := old(State()).active + 1)
    {
      if stop {
        return false;
      }
      active := active + 1;
      return true;
    }

    method Release()
      modifies this`active
      ensures State() == old(State()).(active := if old(State()).active > 0 then old(State()).active - 1 else old(State()).active)
    {
      if active > 0 {
        active := active - 1;
      }
    }

    method Report(gotTask: bool)
      modifies this`target, this`streak
      ensures State() == Reported(old(State()), gotTask)
    {
      if gotTask {
        streak := 0;
        if target < maxScalable {
          target := target + 1;
        }
      } else {
        streak := streak + 1;
        if streak >= threshold {
          streak := 0;
          if target > 0 {
            target := target - 1;
          }
        }
      }
    }
  }

  datatype ScalerUse = TakeSlot | GiveSlot | Polled(gotTask: bool)

  predicate CanScale(s: Scaler, use: ScalerUse) {
    use.TakeSlot? ==> s.active < s.target
  }

  function Scale(s: Scaler, use: ScalerUse): Scaler {
    match use
    case TakeSlot => s.(active := s.active + 1)
    case GiveSlot => s.(active := if s.active > 0 then s.active - 1 else s.active)
    case Polled(gotTask) => Reported(s, gotTask)
  }

  predicate InBounds(s: Scaler) {
    0 <= s.target <= s.maxScalable && 0 <= s.active <= s.maxScalable && 0 <= s.streak < s.threshold
  }

  function Scaled(s: Scaler, uses: seq<ScalerUse>): Scaler {
    if uses == [] then s else Scale(Scaled(s, uses[..|uses| - 1]), uses[|uses| - 1])
  }

  /** Every slot was taken when the scaler allowed it. */
  ghost predicate Allowed(s: Scaler, uses: seq<ScalerUse>) {
    forall i :: 0 <= i < |uses| ==> CanScale(Scaled(s, uses[..i]), uses[i])
  }

  /** In every reachable state the target and the active pollers stay within the configured maximum. */
  lemma {:induction false} ScalerBounded(s: Scaler, uses: seq<ScalerUse>)
    requires InBounds(s) && Allowed(s, uses)
    ensures InBounds(Scaled(s, uses)) && Scaled(s, uses).maxScalable == s.maxScalable
    ensures Scaled(s, uses).threshold == s.threshold
  {
    if uses != [] {
      var n := |uses| - 1;
      assert Allowed(s, uses[..n]) by {
        forall i | 0 <= i < n
          ensures CanScale(Scaled(s, uses[..n][..i]), uses[..n][i])
        {
          assert uses[..n][..i] == uses[..i];
          assert CanScale(Scaled(s, uses[..i]), uses[i]);
        }
      }
      ScalerBounded(s, uses[..n]);
      assert CanScale(Scaled(s, uses[..n]), uses[n]);
    }
  }

  function Idle(k: nat): seq<ScalerUse> {
    seq(k, i => Polled(false))
  }

  lemma OneMore(a: int, t: int)
    requires t > 0 && a >= 0
    ensures if (a % t) + 1 == t then (a + 1) / t == a / t + 1 && (a + 1) % t == 0
            else (a + 1) / t == a / t && (a + 1) % t == a % t + 1
  {
    var q, r := a / t, a % t;
    assert a == q * t + r;
    if r + 1 == t {
      assert a + 1 == (q + 1) * t + 0;
      DivMod(a + 1, t, q + 1, 0);
    } else {
      assert a + 1 == q * t + (r + 1);
      DivMod(a + 1, t, q, r + 1);
    }
  }

  /** The idling law: `k` empty polls in a row lower the target once per threshold, never below zero. */
  lemma {:induction false} IdleLaw(s: Scaler, k: nat)
    requires 0 <= s.streak < s.threshold && s.target >= 0
    ensures Scaled(s, Idle(k)) ==
              s.(target := Max(0, s.target - (s.streak + k) / s.threshold), streak := (s.streak + k) % s.threshold)
  {
    if k == 0 {
      DivMod(s.streak, s.threshold, 0, s.streak);
    } else {
      IdleLaw(s, k - 1);
      assert Idle(k)[..|Idle(k)| - 1] == Idle(k - 1);
      OneMore(s.streak + (k - 1), s.threshold);
      hide Idle;
      var before := Scaled(s, Idle(k - 1));
      assert 0 <= before.streak < s.threshold;
    }
  }

  function Busy(k: nat): seq<ScalerUse> {
    seq(k, i => Polled(true))
  }

  /** The demand law: `k` polls in a row that return a task raise the target by as many, up to the maximum,
      and the count of empty polls starts over. */
  lemma {:induction false} BusyLaw(s: Scaler, k: nat)
    requires s.target <= s.maxScalable
    ensures Scaled(s, Busy(k)) == s.(target := Min(s.maxScalable, s.target + k), streak := if k == 0 then s.streak else 0)
  {
    if k > 0 {
      BusyLaw(s, k - 1);
      assert Busy(k)[..|Busy(k)| - 1] == Busy(k - 1);
    }
  }

  /** A slot is there for the taking exactly while fewer pollers than the target are active; giving it back
      undoes taking it. */
  lemma SlotsTaken(s: Scaler)
    requires s.active >= 0
    ensures CanScale(s, TakeSlot) <==> s.active < s.target
    ensures Scale(s, TakeSlot) == s.(active := s.active + 1) && Scale(Scale(s, TakeSlot), GiveSlot) == s
  {
  }

  // ---- RateLimiter -------------------------------------------------------------------------------

  const SECOND := 1000000000

  /** The spacing in nanoseconds: `duration_cast` of 1/rate seconds truncates. */
  function Interval(perSecond: real): (r: int)
    requires perSecond > 0.0
    ensures r >= 0
  {
    (SECOND as real / perSecond).Floor
  }

  /** The earliest slot that is free and not in the past. */
  function Granted(nextSlot: int, now: int): int {
    Max(nextSlot, now)
  }

  class RateLimiter {
    const perSecond: real
    var nextSlot: int

    constructor (perSecond: real)
      ensures this.perSecond == perSecond && nextSlot == 0
    {
      this.perSecond, nextSlot := perSecond, 0;
    }

    /** The slot a call has to sleep until, if the rate is limited at all; `now` is read under the mutex. */
    method Acquire(now: int) returns (allowed: Option<int>)
      modifies this
      ensures perSecond <= 0.0 ==> allowed == None && nextSlot == old(nextSlot)
      ensures perSecond > 0.0 ==> allowed == Some(Granted(old(nextSlot), now)) && nextSlot == allowed.value + Interval(perSecond)
    {
      if perSecond <= 0.0 {
        return None;
      }
      var interval := Interval(perSecond);
      var slot := if nextSlot < now then now else nextSlot;
      nextSlot := slot + interval;
      return Some(slot);
    }
  }

  /** The slot granted to the i-th call, in the order in which calls get the mutex. */
  function SlotAt(interval: int, clocks: seq<int>, i: nat): int
    requires i < |clocks|
    decreases i
  {
    Granted(if i == 0 then 0 else SlotAt(interval, clocks, i - 1) + interval, clocks[i])
  }

  /** Slots are at least an interval apart, and each is the earliest that allows this and is not
      before its clock reading. */
  lemma {:induction false} SlotsSpaced(interval: int, clocks: seq<int>, i: nat, j: nat)
    requires interval >= 0 && i < j < |clocks|
    ensures SlotAt(interval, clocks, j) >= SlotAt(interval, clocks, i) + (j - i) * interval
    ensures SlotAt(interval, clocks, j) >= clocks[j]
    ensures SlotAt(interval, clocks, j) == clocks[j] || SlotAt(interval, clocks, j) == SlotAt(interval, clocks, j - 1) + interval
    decreases j
  {
    if i < j - 1 {
      SlotsSpaced(interval, clocks, i, j - 1);
      assert (j - i) * interval == (j - 1 - i) * interval + interval;
    }
  }

  function CeilDiv(a: int, b: int): int
    requires b > 0
  {
    (a + b - 1) / b
  }

  /** Any `n` consecutive slots that fit in a window of length `w` are at most ceil(w / interval). */
  lemma WindowBound(interval: int, clocks: seq<int>, from: int, w: int, i: nat, n: nat)
    requires interval > 0 && w >= 0 && i + n <= |clocks|
    requires forall j :: i <= j < i + n ==> from <= SlotAt(interval, clocks, j) < from + w
    ensures n <= CeilDiv(w, interval)
  {
    if n > 1 {
      SlotsSpaced(interval, clocks, i, i + n - 1);
    }
    if n > 0 {
      assert from <= SlotAt(interval, clocks, i) < from + w;
      AtMostCeil(n, w, interval);
    }
  }

  lemma AtMostCeil(n: int, w: int, t: int)
    requires t > 0 && (n - 1) * t < w
    ensures n <= CeilDiv(w, t)
  {
    var c := CeilDiv(w, t);
    var r := (w + t - 1) % t;
    assert w + t - 1 == c * t + r;
    if c < n {
      MulLe(c, n - 1, t);
    }
  }

  /** No half-open window of one second ever holds more than `n` slots. */
  ghost predicate AtMostPerSecond(n: nat, interval: int) {
    forall clocks, i: nat {:trigger SlotAt(interval, clocks, i)} ::
      i + n < |clocks| ==> SlotAt(interval, clocks, i + n) - SlotAt(interval, clocks, i) >= SECOND
  }

  /** Calls that all come at once get slots exactly one interval apart. */
  lemma {:induction false} Saturated(interval: int, i: nat, k: nat)
    requires i < k && interval >= 0
    ensures SlotAt(interval, seq(k, j => 0), i) == i * interval
    decreases i
  {
    if i > 0 {
      Saturated(interval, i - 1, k);
      assert (i - 1) * interval + interval == i * interval;
    }
  }

  /** The interval of a whole rate is the whole part of its share of a second. */
  lemma WholeInterval(n: nat)
    requires n > 0
    ensures Interval(n as real) == SECOND / n
  {
    var q, r := SECOND / n, SECOND % n;
    assert SECOND == n * q + r;
    var share := SECOND as real / n as real;
    assert share * n as real == SECOND as real;
    assert q as real * n as real == (n * q) as real;
    assert (q as real) * n as real <= share * n as real < (q as real + 1.0) * n as real;
    RealOrder(q as real, share, n as real);
    RealOrder(share, q as real + 1.0, n as real);
  }

  lemma RealMulLt(a: real, b: real, n: real)
    requires n > 0.0 && a < b
    ensures a * n < b * n
  {
    assert (b - a) * n > 0.0;
  }

  lemma RealOrder(a: real, b: real, n: real)
    requires n > 0.0
    ensures a * n <= b * n ==> a <= b
    ensures a * n < b * n ==> a < b
  {
    if b < a {
      RealMulLt(b, a, n);
    }
  }

  /** A limit of `n` whole calls per second is kept exactly if `n` divides the nanoseconds of a second:
      otherwise the truncated interval lets one more slot into some second. */
  lemma RateKept(n: nat)
    requires 0 < n <= SECOND
    ensures AtMostPerSecond(n, Interval(n as real)) <==> SECOND % n == 0
  {
    WholeInterval(n);
    var t, r := SECOND / n, SECOND % n;
    assert SECOND == n * t + r;
    hide Interval;
    if r == 0 {
      forall clocks, i: nat | i + n < |clocks|
        ensures SlotAt(t, clocks, i + n) - SlotAt(t, clocks, i) >= SECOND
      {
        SlotsSpaced(t, clocks, i, i + n);
      }
    } else {
      var clocks := seq(n + 1, j => 0);
      Saturated(t, 0, n + 1);
      Saturated(t, n, n + 1);
      assert SlotAt(t, clocks, 0 + n) - SlotAt(t, clocks, 0) < SECOND;
    }
  }
}
