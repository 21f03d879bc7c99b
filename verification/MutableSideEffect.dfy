/** The record/replay protocol of `Context::MutableSideEffect`
    (include/temporal/workflow/context.h:264-285 and BeginMutableSideEffect/RecordMutableSideEffect in
    src/internal/workflow_task_handler.cpp). Calls are keyed by an id; only a changed value is recorded,
    with the ordinal of the call among those of its id. */
module MutableSideEffects {
  import opened Basics

  type Value = string

  /** A recorded change: which call of the id, and the new value. */
  datatype Change = Change(index: int, value: Value)

  /** What a marker records. */
  datatype Marker = Marker(id: string, change: Change)

  /** The bookkeeping of one id. */
  datatype Track = Track(recorded: seq<Change>, calls: nat, cursor: nat, current: Option<Value>)

  const NEW := Track([], 0, 0, None)

  datatype Kind = ReplayChange | ReplayUnchanged | Live

  /** What a call comes to: its value, how it was obtained, and the marker command it produced. */
  datatype Outcome = Outcome(value: Value, kind: Kind, produced: Option<Change>)

  function ValueOf(t: Track): Value {
    if t.current.Some? then t.current.value else ""
  }

  predicate ChangesHere(t: Track) {
    t.cursor < |t.recorded| && t.recorded[t.cursor].index == t.calls
  }

  /** The first half of a call: what history has for it, or else the value to compare with. */
  function Begin(t: Track): (Track, Kind, Option<Value>) {
    var t1 := t.(calls := t.calls + 1);
    if ChangesHere(t) then
      var v := t.recorded[t.cursor].value;
      (t1.(cursor := t.cursor + 1, current := Some(v)), ReplayChange, Some(v))
    else if t.cursor < |t.recorded| then (t1.(current := Some(ValueOf(t))), ReplayUnchanged, Some(ValueOf(t)))
    else (t1, Live, t.current)
  }

  /** One call on its id: `fn` is what the function would return now, `equals` the comparison. A replayed
      unchanged call without a value yet hands out, and keeps, an empty payload. */
  function Call(t: Track, fn: Value, equals: (Value, Value) -> bool): (Track, Outcome) {
    var (t1, kind, value) := Begin(t);
    if kind.ReplayChange? then (t1, Outcome(value.value, kind, Some(t.recorded[t.cursor])))
    else if kind.ReplayUnchanged? then (t1, Outcome(value.value, kind, None))
    else if value.Some? && equals(value.value, fn) then (t1, Outcome(value.value, kind, None))
    else (t1.(current := Some(fn)), Outcome(fn, kind, Some(Change(t.calls, fn))))
  }

  /** A call of the body: the id, what its function would return, and how it compares. */
  datatype Use = Use(id: string, fn: Value, equals: (Value, Value) -> bool)

  /** The bookkeeping of a run, over what was recorded. */
  function After(recorded: map<string, seq<Change>>, uses: seq<Use>): map<string, Track> {
    if uses == [] then map[]
    else
      var before, last := After(recorded, uses[..|uses| - 1]), uses[|uses| - 1];
      before[last.id := Call(TrackOf(recorded, before, last.id), last.fn, last.equals).0]
  }

  function TrackOf(recorded: map<string, seq<Change>>, tracks: map<string, Track>, id: string): Track {
    GetOr(tracks, id, NEW.(recorded := GetOr(recorded, id, [])))
  }

  /** What the n-th call of a run comes to. */
  function OutcomeAt(recorded: map<string, seq<Change>>, uses: seq<Use>, n: nat): Outcome
    requires n < |uses|
  {
    Call(TrackOf(recorded, After(recorded, uses[..n]), uses[n].id), uses[n].fn, uses[n].equals).1
  }

  /** The changes a run records for an id, in order. */
  function Recorded(recorded: map<string, seq<Change>>, uses: seq<Use>, id: string): seq<Change> {
    if uses == [] then []
    else
      var n := |uses| - 1;
      var o := OutcomeAt(recorded, uses, n);
      Recorded(recorded, uses[..n], id) + if uses[n].id == id && o.produced.Some? then [o.produced.value] else []
  }

  // ---- The runner's part -------------------------------------------------------------------------

  class MutableSideEffectEnv {
    var recorded: map<string, seq<Change>>   // mse_recorded_
    var callCount: map<string, nat>          // mse_call_count_
    var cursor: map<string, nat>             // mse_cursor_
    var current: map<string, Value>          // mse_current_
    var produced: seq<Marker>                // the marker commands gone through
    var emitted: seq<Marker>                 // those sent to the server now

    ghost function TrackAt(id: string): Track
      reads this
    {
      Track(GetOr(recorded, id, []), GetOr(callCount, id, 0), GetOr(cursor, id, 0),
            if id in current then Some(current[id]) else None)
    }

    constructor (recorded: map<string, seq<Change>>)
      ensures forall id :: TrackAt(id) == NEW.(recorded := GetOr(recorded, id, []))
      ensures produced == [] && emitted == []
    {
      this.recorded := recorded;
      callCount, cursor, current, produced, emitted := map[], map[], map[], [], [];
    }

    method BeginMutableSideEffect(id: string) returns (kind: Kind, value: Option<Value>)
      modifies this
      ensures emitted == old(emitted) && recorded == old(recorded)
      ensures forall x :: x != id ==> TrackAt(x) == old(TrackAt(x))
      ensures (TrackAt(id), kind, value) == Begin(old(TrackAt(id)))
      ensures var t := old(TrackAt(id));
              produced == old(produced) + (if ChangesHere(t) then [Marker(id, t.recorded[t.cursor])] else [])
    {
      var idx, cur := GetOr(callCount, id, 0), GetOr(cursor, id, 0);
      callCount := callCount[id := idx + 1];
      value := if id in current then Some(current[id]) else None;
      if id in recorded {
        var list := recorded[id];
        if cur < |list| && list[cur].index == idx {
          produced := produced + [Marker(id, list[cur])];
          current := current[id := list[cur].value];
          cursor := cursor[id := cur + 1];
          return ReplayChange, Some(list[cur].value);
        }
        if cur < |list| {
          current := current[id := GetOr(current, id, "")];
          return ReplayUnchanged, Some(current[id]);
        }
      }
      return Live, value;
    }

    method RecordMutableSideEffect(id: string, changed: bool, value: Value)
      modifies this
      ensures recorded == old(recorded) && (forall x :: x != id ==> TrackAt(x) == old(TrackAt(x)))
      ensures !changed ==> TrackAt(id) == old(TrackAt(id)) && produced == old(produced) && emitted == old(emitted)
      ensures changed ==>
                var m := Marker(id, Change(old(TrackAt(id)).calls - 1, value));
                TrackAt(id) == old(TrackAt(id)).(current := Some(value)) && produced == old(produced) + [m] && emitted == old(emitted) + [m]
    {
      if !changed {
        return;
      }
      var calls: int := GetOr(callCount, id, 0);
      var idx := calls - 1;
      produced := produced + [Marker(id, Change(idx, value))];
      current := current[id := value];
      emitted := emitted + [Marker(id, Change(idx, value))];
    }

    /** `Context::MutableSideEffect`. */
    method MutableSideEffect(id: string, fn: Value, equals: (Value, Value) -> bool) returns (result: Value, ranFn: bool)
      modifies this
      ensures var (t, o) := Call(old(TrackAt(id)), fn, equals);
              TrackAt(id) == t && result == o.value && ranFn == o.kind.Live? &&
              produced == old(produced) + (if o.produced.Some? then [Marker(id, o.produced.value)] else []) &&
              emitted == old(emitted) + (if o.produced.Some? && o.kind.Live? then [Marker(id, o.produced.value)] else [])
      ensures recorded == old(recorded) && (forall x :: x != id ==> TrackAt(x) == old(TrackAt(x)))
    {
      var kind, value := BeginMutableSideEffect(id);
      if !kind.Live? {
        return value.value, false;
      }
      if value.Some? && equals(value.value, fn) {
        RecordMutableSideEffect(id, false, "");
        return value.value, true;
      }
      RecordMutableSideEffect(id, true, fn);
      return fn, true;
    }
  }

  // ---- Recording, then replaying -----------------------------------------------------------------

  /** The markers of a live run, by id, as its history records them. */
  ghost predicate Records(recorded: map<string, seq<Change>>, uses: seq<Use>) {
    forall id :: GetOr(recorded, id, []) == Recorded(map[], uses, id)
  }

  /** The same calls, whatever their functions would return this time. */
  predicate SameCalls(a: seq<Use>, b: seq<Use>) {
    |a| == |b| && forall i :: 0 <= i < |a| ==> a[i].id == b[i].id
  }

  /** The n-th call of the run is one whose id has a recorded change at it or later. */
  predicate Covered(live: seq<Use>, n: nat)
    requires n < |live|
  {
    |Recorded(map[], live[..n], live[n].id)| < |Recorded(map[], live, live[n].id)|
  }

  /** How the tracks of an id stand in the live run and in its replay. */
  ghost predicate InStep(live: Track, replay: Track, sofar: seq<Change>, total: seq<Change>) {
    live.recorded == [] && live.cursor == 0 && replay.recorded == total && sofar <= total &&
    live.calls == replay.calls &&
    (forall i :: 0 <= i < |sofar| ==> sofar[i].index < live.calls) &&
    (live.current.None? <==> sofar == []) &&
    (sofar != [] ==> live.current == Some(sofar[|sofar| - 1].value)) &&
    (|sofar| < |total| ==> replay.cursor == |sofar| && replay.current == live.current && total[|sofar|].index >= live.calls) &&
    (|sofar| == |total| ==> replay.cursor == |total| && (sofar != [] ==> replay.current.Some?))
  }

  /** One call moves the track of its id. */
  lemma NextTrack(recorded: map<string, seq<Change>>, uses: seq<Use>, n: nat, id: string)
    requires n < |uses|
    ensures var before := TrackOf(recorded, After(recorded, uses[..n]), id);
            TrackOf(recorded, After(recorded, uses[..n + 1]), id) ==
              if uses[n].id == id then Call(before, uses[n].fn, uses[n].equals).0 else before
    ensures TrackOf(recorded, After(recorded, uses[..n]), id).recorded == GetOr(recorded, id, []) ==>
              TrackOf(recorded, After(recorded, uses[..n + 1]), id).recorded == GetOr(recorded, id, [])
  {
    assert uses[..n + 1][..n] == uses[..n];
  }

  /** What one more call records for an id. */
  lemma NextRecorded(recorded: map<string, seq<Change>>, uses: seq<Use>, n: nat, id: string)
    requires n < |uses|
    ensures var o := OutcomeAt(recorded, uses, n);
            Recorded(recorded, uses[..n + 1], id) ==
              Recorded(recorded, uses[..n], id) + if uses[n].id == id && o.produced.Some? then [o.produced.value] else []
  {
    assert uses[..n + 1][..n] == uses[..n];
  }

  function LiveTrack(uses: seq<Use>, n: nat, id: string): Track
    requires n <= |uses|
  {
    TrackOf(map[], After(map[], uses[..n]), id)
  }

  /** A live run never replays. */
  lemma {:induction false} LiveIsLive(uses: seq<Use>, n: nat, id: string)
    requires n <= |uses|
    ensures LiveTrack(uses, n, id).recorded == [] && LiveTrack(uses, n, id).cursor == 0
  {
    if n == 0 {
      assert uses[..0] == [];
    } else {
      LiveIsLive(uses, n - 1, id);
      NextTrack(map[], uses, n - 1, id);
    }
  }

  /** What one live call adds for an id: at most one change, at that call. */
  lemma LiveStep(uses: seq<Use>, n: nat, id: string) returns (added: seq<Change>)
    requires n < |uses|
    ensures Recorded(map[], uses[..n + 1], id) == Recorded(map[], uses[..n], id) + added
    ensures added == [] || (|added| == 1 && added[0].index == LiveTrack(uses, n, id).calls)
    ensures LiveTrack(uses, n, id).calls <= LiveTrack(uses, n + 1, id).calls
  {
    LiveIsLive(uses, n, uses[n].id);
    NextTrack(map[], uses, n, id);
    NextRecorded(map[], uses, n, id);
    var o := OutcomeAt(map[], uses, n);
    hide After, Recorded;
    added := if uses[n].id == id && o.produced.Some? then [o.produced.value] else [];
  }

  /** Later calls record later indices, after what is recorded already. */
  lemma {:induction false} RecordsLater(uses: seq<Use>, n: nat, m: nat, id: string)
    requires n <= m <= |uses|
    ensures LiveTrack(uses, n, id).calls <= LiveTrack(uses, m, id).calls
    ensures Recorded(map[], uses[..n], id) <= Recorded(map[], uses[..m], id)
    ensures forall i :: |Recorded(map[], uses[..n], id)| <= i < |Recorded(map[], uses[..m], id)| ==>
                          LiveTrack(uses, n, id).calls <= Recorded(map[], uses[..m], id)[i].index
    decreases m
  {
    hide LiveTrack, Recorded;
    if n < m {
      RecordsLater(uses, n, m - 1, id);
      var added := LiveStep(uses, m - 1, id);
    }
  }

  lemma StepTogether(l: Track, r: Track, sofar: seq<Change>, total: seq<Change>, live: Use, replay: Use)
    requires InStep(l, r, sofar, total)
    requires var o := Call(l, live.fn, live.equals).1;
             var sofar' := sofar + if o.produced.Some? then [o.produced.value] else [];
             sofar' <= total && (|sofar'| < |total| ==> total[|sofar'|].index >= l.calls + 1)
    ensures var (l', o) := Call(l, live.fn, live.equals);
            var (r', p) := Call(r, replay.fn, replay.equals);
            var sofar' := sofar + if o.produced.Some? then [o.produced.value] else [];
            InStep(l', r', sofar', total) &&
            (|sofar| < |total| ==> p.value == o.value && p.produced == o.produced && !p.kind.Live? && r'.current == l'.current)
  {
    var (l', o) := Call(l, live.fn, live.equals);
    var sofar' := sofar + if o.produced.Some? then [o.produced.value] else [];
    if |sofar| < |total| {
      if o.produced.Some? {
        assert total[|sofar|] == sofar'[|sofar|] == Change(l.calls, live.fn);
      } else {
        assert total[|sofar|].index >= l.calls + 1;
      }
    }
  }

  /** The replay keeps in step with the live run, id by id. */
  lemma {:induction false} KeepsInStep(live: seq<Use>, replay: seq<Use>, recorded: map<string, seq<Change>>, n: nat, id: string)
    requires SameCalls(live, replay) && Records(recorded, live) && n <= |live|
    ensures InStepAt(live, replay, recorded, n, id)
    decreases n
  {
    hide InStepAt, Records, Covered, OutcomeAt, LiveTrack, TrackOf;
    if n == 0 {
      StartInStep(live, replay, recorded, id);
    } else {
      KeepsInStep(live, replay, recorded, n - 1, id);
      if live[n - 1].id == id {
        OneInStep(live, replay, recorded, n - 1);
      } else {
        OtherInStep(live, replay, recorded, n - 1, id);
      }
    }
  }

  lemma StartInStep(live: seq<Use>, replay: seq<Use>, recorded: map<string, seq<Change>>, id: string)
    requires Records(recorded, live) && |live| == |replay|
    ensures InStepAt(live, replay, recorded, 0, id)
  {
    assert live[..|live|] == live && live[..0] == [] && replay[..0] == [];
    RecordsLater(live, 0, |live|, id);
    assert GetOr(recorded, id, []) == Recorded(map[], live, id);
  }

  /** After `n` calls of both runs. */
  ghost predicate InStepAt(live: seq<Use>, replay: seq<Use>, recorded: map<string, seq<Change>>, n: nat, id: string)
    requires |live| == |replay| && n <= |live|
  {
    InStep(LiveTrack(live, n, id), TrackOf(recorded, After(recorded, replay[..n]), id),
           Recorded(map[], live[..n], id), Recorded(map[], live, id))
  }

  /** A call of another id. */
  lemma OtherInStep(live: seq<Use>, replay: seq<Use>, recorded: map<string, seq<Change>>, n: nat, id: string)
    requires SameCalls(live, replay) && n < |live| && live[n].id != id
    requires InStepAt(live, replay, recorded, n, id)
    ensures InStepAt(live, replay, recorded, n + 1, id)
  {
    hide After, Recorded, InStep, Call, TrackOf, OutcomeAt;
    NextTrack(map[], live, n, id);
    NextTrack(recorded, replay, n, id);
    NextRecorded(map[], live, n, id);
    assert Recorded(map[], live[..n + 1], id) == Recorded(map[], live[..n], id);
  }

  /** A call of this id, in both runs. */
  lemma OneInStep(live: seq<Use>, replay: seq<Use>, recorded: map<string, seq<Change>>, n: nat)
    requires SameCalls(live, replay) && n < |live|
    requires var id := live[n].id;
             InStepAt(live, replay, recorded, n, id)
    ensures var id := live[n].id;
            InStepAt(live, replay, recorded, n + 1, id)
    ensures Covered(live, n) ==>
              var o, p := OutcomeAt(map[], live, n), OutcomeAt(recorded, replay, n);
              p.value == o.value && p.produced == o.produced && !p.kind.Live? &&
              TrackOf(recorded, After(recorded, replay[..n + 1]), live[n].id).current == LiveTrack(live, n + 1, live[n].id).current
  {
    var id := live[n].id;
    assert live[..|live|] == live;
    var l, r := LiveTrack(live, n, id), TrackOf(recorded, After(recorded, replay[..n]), id);
    assert OutcomeAt(map[], live, n) == Call(l, live[n].fn, live[n].equals).1;
    assert OutcomeAt(recorded, replay, n) == Call(r, replay[n].fn, replay[n].equals).1;
    hide After, Recorded, InStep, Call, TrackOf, OutcomeAt;
    RecordsLater(live, n + 1, |live|, id);
    NextTrack(map[], live, n, id);
    NextTrack(recorded, replay, n, id);
    NextRecorded(map[], live, n, id);
    InStepCalls(l, live[n]);
    StepTogether(l, r, Recorded(map[], live[..n], id), Recorded(map[], live, id), live[n], replay[n]);
  }

  lemma InStepCalls(l: Track, use: Use)
    ensures Call(l, use.fn, use.equals).0.calls == l.calls + 1
  {
  }

  /** Replay fidelity, for any interleaving of ids, any values the functions would return this time and
      any comparisons: up to the last recorded change of its id, every call returns the live value without
      running its function, produces a marker exactly where the live run did, and leaves the same current
      value to later calls. */
  lemma ReplayFaithful(live: seq<Use>, replay: seq<Use>, recorded: map<string, seq<Change>>, n: nat)
    requires SameCalls(live, replay) && Records(recorded, live) && n < |live| && Covered(live, n)
    ensures var o, p := OutcomeAt(map[], live, n), OutcomeAt(recorded, replay, n);
            p.value == o.value && p.produced == o.produced && !p.kind.Live?
    ensures TrackOf(recorded, After(recorded, replay[..n + 1]), live[n].id).current == LiveTrack(live, n + 1, live[n].id).current
  {
    KeepsInStep(live, replay, recorded, n, live[n].id);
    OneInStep(live, replay, recorded, n);
  }

  /** What a live call records is in the record of its run. */
  lemma RecordedByRun(live: seq<Use>, n: nat)
    requires n < |live|
    ensures OutcomeAt(map[], live, n).produced.Some? ==>
              Covered(live, n) && OutcomeAt(map[], live, n).produced.value in Recorded(map[], live, live[n].id)
    ensures !Covered(live, n) ==> Recorded(map[], live[..n], live[n].id) == Recorded(map[], live, live[n].id)
  {
    hide OutcomeAt, LiveTrack, Recorded;
    var id, o := live[n].id, OutcomeAt(map[], live, n);
    NextRecorded(map[], live, n, id);
    RecordsLater(live, n, |live|, id);
    RecordsLater(live, n + 1, |live|, id);
    assert live[..|live|] == live;
    if o.produced.Some? {
      var before, after := Recorded(map[], live[..n], id), Recorded(map[], live[..n + 1], id);
      assert after[|before|] == o.produced.value && Recorded(map[], live, id)[|before|] == o.produced.value;
    }
  }

  /** A call past the last recorded change has a value to compare with, live and on replay. */
  lemma HasCurrent(live: seq<Use>, replay: seq<Use>, recorded: map<string, seq<Change>>, n: nat)
    requires SameCalls(live, replay) && Records(recorded, live) && n < |live| && !Covered(live, n)
    ensures var t := TrackOf(recorded, After(recorded, replay[..n]), live[n].id);
            t.current.Some? && t.cursor == |t.recorded| && t.calls == LiveTrack(live, n, live[n].id).calls &&
            (forall i :: 0 <= i < |Recorded(map[], live, live[n].id)| ==> Recorded(map[], live, live[n].id)[i].index < t.calls)
  {
    KeepsInStep(live, replay, recorded, n, live[n].id);
    RecordedByRun(live, n);
    assert OutcomeAt(map[], live, n).produced.None?;
    hide After, Recorded, TrackOf;
  }

  /** The exact condition, for every run and every replay of it: a call runs its function again if and
      only if no change of its id is recorded at it or later. */
  lemma RerunExactlyBeyond(live: seq<Use>, replay: seq<Use>, recorded: map<string, seq<Change>>, n: nat)
    requires SameCalls(live, replay) && Records(recorded, live) && n < |live|
    ensures OutcomeAt(recorded, replay, n).kind.Live? <==> !Covered(live, n)
  {
    if Covered(live, n) {
      ReplayFaithful(live, replay, recorded, n);
    } else {
      HasCurrent(live, replay, recorded, n);
      hide After, Recorded;
    }
  }

  /** ... and the replay produces a marker that history lacks if and only if, besides, the value of the
      rerun differs from the current one as the caller compares them. */
  lemma ExtraMarkerExactly(live: seq<Use>, replay: seq<Use>, recorded: map<string, seq<Change>>, n: nat)
    requires SameCalls(live, replay) && Records(recorded, live) && n < |live|
    ensures var t := TrackOf(recorded, After(recorded, replay[..n]), live[n].id);
            var p := OutcomeAt(recorded, replay, n);
            (p.produced.Some? && p.produced.value !in Recorded(map[], live, live[n].id)) <==>
            (!Covered(live, n) && t.current.Some? && !replay[n].equals(t.current.value, replay[n].fn))
  {
    RecordedByRun(live, n);
    if Covered(live, n) {
      ReplayFaithful(live, replay, recorded, n);
    } else {
      HasCurrent(live, replay, recorded, n);
      hide After, Recorded;
    }
  }

  // ---- The live run --------------------------------------------------------------------------------

  /** How many calls of an id there were. */
  function CallsOf(uses: seq<Use>, id: string): nat {
    if uses == [] then 0 else CallsOf(uses[..|uses| - 1], id) + if uses[|uses| - 1].id == id then 1 else 0
  }

  /** The track has counted the calls of its id and keeps the last change. */
  ghost predicate KeepsLast(t: Track, calls: nat, sofar: seq<Change>) {
    t.recorded == [] && t.calls == calls && t.current == if sofar == [] then None else Some(sofar[|sofar| - 1].value)
  }

  lemma CallKeepsLast(t: Track, use: Use, calls: nat, sofar: seq<Change>)
    requires KeepsLast(t, calls, sofar)
    ensures var (t', o) := Call(t, use.fn, use.equals);
            KeepsLast(t', calls + 1, sofar + if o.produced.Some? then [o.produced.value] else [])
  {
  }

  lemma CallsNext(uses: seq<Use>, n: nat, id: string)
    requires n < |uses|
    ensures CallsOf(uses[..n + 1], id) == CallsOf(uses[..n], id) + if uses[n].id == id then 1 else 0
  {
    assert uses[..n + 1][..n] == uses[..n];
  }

  lemma NoCallsYet(uses: seq<Use>, id: string)
    ensures KeepsLast(LiveTrack(uses, 0, id), CallsOf(uses[..0], id), Recorded(map[], uses[..0], id))
  {
    assert uses[..0] == [];
  }

  lemma {:induction false} LiveCurrent(uses: seq<Use>, n: nat, id: string)
    requires n <= |uses|
    ensures KeepsLast(LiveTrack(uses, n, id), CallsOf(uses[..n], id), Recorded(map[], uses[..n], id))
  {
    hide After, Recorded, CallsOf, Call, KeepsLast, TrackOf;
    if n == 0 {
      NoCallsYet(uses, id);
    } else {
      var before, sofar := LiveTrack(uses, n - 1, id), Recorded(map[], uses[..n - 1], id);
      LiveCurrent(uses, n - 1, id);
      NextTrack(map[], uses, n - 1, id);
      NextRecorded(map[], uses, n - 1, id);
      CallsNext(uses, n - 1, id);
      if uses[n - 1].id == id {
        CallKeepsLast(before, uses[n - 1], CallsOf(uses[..n - 1], id), sofar);
      } else {
        assert sofar + [] == sofar;
      }
    }
  }

  /** A live call runs its function. The first of an id hands out what it returns and records it; a later
      one compares it with the last recorded value, and either hands out that one and records nothing, or
      hands out the new one and records it, with its ordinal among the calls of its id. */
  lemma LiveLaw(uses: seq<Use>, n: nat)
    requires n < |uses|
    ensures var o, use := OutcomeAt(map[], uses, n), uses[n];
            var sofar := Recorded(map[], uses[..n], use.id);
            o.kind.Live? &&
            if sofar != [] && use.equals(sofar[|sofar| - 1].value, use.fn) then
              o.value == sofar[|sofar| - 1].value && o.produced == None
            else o.value == use.fn && o.produced == Some(Change(CallsOf(uses[..n], use.id), use.fn))
  {
    LiveCurrent(uses, n, uses[n].id);
    LiveIsLive(uses, n, uses[n].id);
    hide After, Recorded, CallsOf;
  }

  /** There are such calls: one that was unchanged when it was live. */
  lemma BeyondLastChange()
    returns (live: seq<Use>, replay: seq<Use>, recorded: map<string, seq<Change>>)
    ensures SameCalls(live, replay) && Records(recorded, live) && |live| == 2 && !Covered(live, 1)
    ensures OutcomeAt(map[], live, 1).produced == None && OutcomeAt(recorded, replay, 1).produced == Some(Change(1, "v2"))
  {
    var same := (a: Value, b: Value) => a == b;
    live := [Use("id", "v1", same), Use("id", "v1", same)];
    replay := [Use("id", "v1", same), Use("id", "v2", same)];
    recorded := map["id" := [Change(0, "v1")]];
    assert live[..0] == [] && replay[..0] == [];
    assert live[..1] == [live[0]] && replay[..1] == [replay[0]];
    assert Recorded(map[], [], "id") == [];
    assert OutcomeAt(map[], live[..1], 0).produced == Some(Change(0, "v1")) by {
      assert live[..1][..0] == [];
    }
    assert Recorded(map[], live[..1], "id") == [Change(0, "v1")] by {
      assert live[..1][..0] == [];
    }
    assert After(map[], live[..1]) == map["id" := Track([], 1, 0, Some("v1"))] by {
      assert live[..1][..0] == [];
    }
    assert OutcomeAt(map[], live, 1).produced == None;
    forall id
      ensures GetOr(recorded, id, []) == Recorded(map[], live, id)
    {
      OtherIds(live, id, same);
    }
    assert After(recorded, replay[..1]) == map["id" := Track([Change(0, "v1")], 1, 1, Some("v1"))] by {
      assert replay[..1][..0] == [];
    }
  }

  lemma OtherIds(live: seq<Use>, id: string, same: (Value, Value) -> bool)
    requires live == [Use("id", "v1", same), Use("id", "v1", same)] && same("v1", "v1")
    ensures Recorded(map[], live, id) == if id == "id" then [Change(0, "v1")] else []
  {
    assert live[..1] == [live[0]] && live[..1][..0] == [];
    NextRecorded(map[], live, 0, id);
    NextRecorded(map[], live, 1, id);
    assert live[..2] == live && live[..0] == [];
    assert After(map[], live[..1]) == map["id" := Track([], 1, 0, Some("v1"))];
  }
}
