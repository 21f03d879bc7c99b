/** One run of a cluster from its start to its end: the assumptions about the server can be met, and every
    part of the model moves. */
module Scenario {
  import opened Basics
  import opened Workflow
  import opened Machine
  import opened HistoryScan
  import opened ScanFacts
  import opened Engine
  import opened Progress
  import opened Continuation
  import opened TaskHandling
  import opened Cluster
  import L = Lru
  import D = Determinism

  /** Schedules an activity, waits for it, and returns its result. */
  function RelayBody(log: seq<Input>): Op {
    if log == [] then Op.Schedule(ActivityCall("Charge", ["42"]))
    else if |log| == 1 then Get(Handle(Activity, "0"))
    else if log[1].Resolved? then Close(Complete(log[1].outcome.result))
    else SideEffect
  }

  const SETTINGS := Settings(map["Relay" := RelayBody], 1, false)
  const LIVE := World((i: nat) => "", (i: nat) => QUIET)
  const CHARGE := ActivityCall("Charge", ["42"])
  const X := Handle(Activity, "0")

  // ---- The histories -------------------------------------------------------------------------------

  const H1: History := [Event(1, OtherEvent)]
  const H2: History := H1 + [Event(2, OtherEvent)]
  const H3: History := H2 + [Event(3, CommandRecorded(ActivityScheduled("0", "Charge")))]
  const H4: History := H3 + [Event(4, FutureResolved(ActivityResolved(3, Resolution.Completed(["paid"]))))]
  const H5: History := H4 + [Event(5, OtherEvent)]
  const H6: History := H5 + [Event(6, OtherEvent)]
  const H7: History := H6 + [Event(7, CommandRecorded(WorkflowClosed(Complete(["paid"]))))]

  lemma Cuts()
    ensures |H1| == 1 && |H2| == 2 && |H3| == 3 && |H4| == 4 && |H5| == 5 && |H6| == 6 && |H7| == 7
    ensures H1[..0] == [] && H2[..1] == H1 && H3[..2] == H2 && H4[..3] == H3 && H5[..4] == H4 && H6[..5] == H5 && H7[..6] == H6
  {
  }

  // ---- The first task ------------------------------------------------------------------------------

  lemma ScanFirst()
    ensures Scan(H1) == Prescan(Operations(map[], map[], map[], map[]), map[], ScheduleIndex(map[], map[], 0),
                                Records([], 0, 0, [], []), [], 1)
  {
    assert H1[..0] == [];
  }

  /** The runner that waits for the activity, when it has seen so many events. */
  function Waiting(scan: Prescan, commands: seq<Command>, produced: seq<D.CommandEvent>): RunnerState {
    RunnerState("wf", RelayBody, LIVE, scan, [Started(X)], Running(Get(X)), ZERO.(activity := 1), map[X := PENDING],
                map[], {}, commands, produced, false)
  }

  lemma FirstRun()
    ensures Run(NewRunner("wf", RelayBody, LIVE, Scan(H1)), 1) ==
              Waiting(Scan(H1), [Begin("0", CHARGE)], [D.CommandEvent(D.Activity, "0", "Charge")])
  {
    ScanFirst();
    var r0 := Clear(NewRunner("wf", RelayBody, LIVE, Scan(H1)));
    var r1 := Waiting(Scan(H1), [Begin("0", CHARGE)], [D.CommandEvent(D.Activity, "0", "Charge")]);
    hide Scan;
    assert IdOf("wf", Activity, 0) == "0";
    assert Perform(r0) == Went(r1);
    assert Perform(r1) == Yielded(r1);
    assert Resume(r1, 0) == r1;
    assert Resume(r0, 1) == r1;
  }

  function FirstRecord(): RunRecord {
    RunRecord("wf", "Relay", [], None)
  }

  lemma FirstTask()
    ensures var (cache, response) := HandleTask(SETTINGS, [], TaskOf(FirstRecord(), "run", true, []), Chance(LIVE, 1));
            response == Response.Completed([Begin("0", CHARGE)], [], None) &&
            cache == [L.Entry("run", Waiting(Scan(H1), [Begin("0", CHARGE)], [D.CommandEvent(D.Activity, "0", "Charge")]))]
  {
    FirstRun();
    ScanFirst();
    var r := Waiting(Scan(H1), [Begin("0", CHARGE)], [D.CommandEvent(D.Activity, "0", "Charge")]);
    assert Next([], OtherEvent) == H1;
    assert Deterministic(r);
    hide Run, NewRunner, Scan, Deterministic;
    assert L.Store([], "run", r, 1) == [L.Entry("run", r)];
    assert L.Remove([L.Entry("run", r)], "run") == [];
  }

  lemma FirstAnswer()
    ensures RecordAfter(FirstRecord(), 0, Response.Completed([Begin("0", CHARGE)], [], None), true) ==
              RunRecord("wf", "Relay", H3, Some(Sticky(0, 1)))
  {
    var h := Next(Next([], OtherEvent), OtherEvent);
    assert [Begin("0", CHARGE)][..0] == [];
    assert WithCommands(h, [Begin("0", CHARGE)]) == H3;
  }

  // ---- The second task -----------------------------------------------------------------------------

  lemma SecondRun()
    ensures var e := Waiting(Scan(H1), [Begin("0", CHARGE)], [D.CommandEvent(D.Activity, "0", "Charge")]);
            var r := ApplyAndResume(e, H5[1..], 2);
            r.commands == [] && r.phase == Finished(Complete(["paid"])) && !r.deadlocked && r.handlers == {}
  {
    ScanFirst();
    var e := Waiting(Scan(H1), [Begin("0", CHARGE)], [D.CommandEvent(D.Activity, "0", "Charge")]);
    var events := H5[1..];
    assert events == [H5[1], H5[2], H5[3], H5[4]];
    hide Scan, Resume;
    var r0 := Clear(e);
    assert events[..4] == events && events[..4][..3] == events[..3] && events[..3][..2] == events[..2] &&
           events[..2][..1] == events[..1] && events[..1][..0] == [];
    var r1 := ConsumeEvent(r0, H5[1]);
    var r2 := ConsumeEvent(r1, H5[2]);
    var r3 := ConsumeEvent(r2, H5[3]);
    var r4 := ConsumeEvent(r3, H5[4]);
    assert r2.scan.index.activities == map[3 := "0"];
    assert r3.futures == map[X := FutureState(true, false, Outcome(false, ["paid"], "", ""))];
    assert r4.futures == r3.futures && r4.phase == Running(Get(X)) && r4.log == [Started(X)] && r4.commands == [];
    hide ConsumeEvent;
    assert ApplyEvents(r0, events[..1]) == r1;
    assert ApplyEvents(r0, events[..2]) == r2;
    assert ApplyEvents(r0, events[..3]) == r3;
    assert ApplyEvents(r0, events) == r4;
    hide ApplyEvents;
    Finishes(r4, ["paid"]);
  }

  /** A waiting relay whose activity has succeeded returns the result. */
  lemma Finishes(r: RunnerState, result: Payloads)
    requires r.body == RelayBody && r.phase == Running(Get(X)) && r.log == [Started(X)] && !r.deadlocked
    requires X in r.futures && r.futures[X] == FutureState(true, false, Outcome(false, result, "", ""))
    ensures var end := Resume(r, 2);
            end.phase == Finished(Complete(result)) && end.commands == r.commands && !end.deadlocked && end.handlers == r.handlers
  {
    var told := Answer(r, Resolved(Outcome(false, result, "", "")));
    assert Perform(r) == Went(told) && told.phase == Running(Close(Complete(result)));
    var end := Finish(told, Complete(result));
    assert Perform(told) == Went(end);
    assert Resume(r, 2) == Resume(told, 1) == Resume(end, 0) == end;
  }

  function SecondRecord(): RunRecord {
    RunRecord("wf", "Relay", H4, Some(Sticky(0, 1)))
  }

  lemma SecondTask(cache: Cache)
    requires cache == [L.Entry("run", Waiting(Scan(H1), [Begin("0", CHARGE)], [D.CommandEvent(D.Activity, "0", "Charge")]))]
    ensures HandleTask(SETTINGS, cache, TaskOf(SecondRecord(), "run", false, []), Chance(LIVE, 2)) ==
              ([], Response.Completed([], [], Some(Complete(["paid"]))))
  {
    SecondRun();
    ScanFirst();
    var e := Waiting(Scan(H1), [Begin("0", CHARGE)], [D.CommandEvent(D.Activity, "0", "Charge")]);
    var r := ApplyAndResume(e, H5[1..], 2);
    assert Next(H4, OtherEvent) == H5;
    assert L.Lookup(cache, "run") == Some(e) && H5[1..][0].id == 2 == e.scan.lastEventId + 1;
    assert L.Remove(cache, "run") == [] && L.Touch(cache, "run") == cache;
    assert L.Remove([L.Entry("run", r)], "run") == [];
    hide ApplyAndResume, Scan;
  }

  lemma SecondAnswer()
    ensures RecordAfter(SecondRecord(), 0, Response.Completed([], [], Some(Complete(["paid"]))), true) ==
              RunRecord("wf", "Relay", H7, Some(Sticky(0, 5)))
  {
    assert Next(H4, OtherEvent) == H5;
    assert Next(Next(H5, OtherEvent), CommandRecorded(WorkflowClosed(Complete(["paid"])))) == H7;
  }

  // ---- The run -------------------------------------------------------------------------------------

  function States(kept: Cache): seq<Cluster> {
    [Cluster(map["run" := FirstRecord()], map[]),
     Cluster(map["run" := RunRecord("wf", "Relay", H3, Some(Sticky(0, 1)))], map[0 := kept]),
     Cluster(map["run" := SecondRecord()], map[0 := kept]),
     Cluster(map["run" := RunRecord("wf", "Relay", H7, Some(Sticky(0, 5)))], map[0 := []])]
  }

  function Actions(): seq<Action> {
    [DoTask("run", 0, true, [], Chance(LIVE, 1), true),
     Arrive("run", FutureResolved(ActivityResolved(3, Resolution.Completed(["paid"])))),
     DoTask("run", 0, false, [], Chance(LIVE, 2), true)]
  }

  lemma RecordedSoFar()
    ensures Recorded(H3) == [ActivityScheduled("0", "Charge")] == Recorded(H4) && Created(H3) == {X} && Know(H3) == NOTHING
    ensures Recorded(H7) == [ActivityScheduled("0", "Charge"), WorkflowClosed(Complete(["paid"]))]
  {
    Cuts();
    assert Recorded(H1) == [] && Created(H1) == {} && Know(H1) == NOTHING;
    assert Recorded(H2) == [] && Created(H2) == {} && Know(H2) == NOTHING;
    assert Recorded(H4) == Recorded(H3);
    assert Recorded(H5) == Recorded(H4);
    assert Recorded(H6) == Recorded(H5);
  }

  lemma ArrivesPlausibly()
    ensures PlausibleAt(H4, 3) && !Closed(H3) && !Closed(H4) && !Closed([])
  {
    Cuts();
    RecordedSoFar();
    hide Recorded, Created, Know;
    assert Recorded([]) == [] by { NothingRecordedYet(); }
  }

  lemma NothingRecordedYet()
    ensures Recorded([]) == []
  {
  }

  /** A task whose answer arrives is such a step. */
  lemma TaskStep(before: Cluster, after: Cluster, run: RunRecord, full: bool, chance: Chance, cache: Cache, response: Response)
    requires before.runs == map["run" := run] && !Closed(run.history) && (full || SentTo(run, 0))
    requires HandleTask(SETTINGS, CacheOf(before, 0), TaskOf(run, "run", full, []), chance) == (cache, response)
    requires after == Cluster(map["run" := RecordAfter(run, 0, response, true)], before.caches[0 := cache])
    ensures DoneBy(SETTINGS, before, DoTask("run", 0, full, [], chance, true), after)
  {
    hide HandleTask, RecordAfter, TaskOf, Closed;
    assert before.runs["run" := RecordAfter(run, 0, response, true)] == map["run" := RecordAfter(run, 0, response, true)];
  }

  lemma FirstStep(kept: Cache)
    requires kept == [L.Entry("run", Waiting(Scan(H1), [Begin("0", CHARGE)], [D.CommandEvent(D.Activity, "0", "Charge")]))]
    ensures DoneBy(SETTINGS, States(kept)[0], Actions()[0], States(kept)[1])
  {
    FirstTask();
    FirstAnswer();
    ArrivesPlausibly();
    hide HandleTask, RecordAfter, TaskOf, Waiting, PlausibleAt, Closed, Scan, RelayBody, DoneBy;
    assert States(kept)[0].caches[0 := kept] == map[0 := kept];
    TaskStep(States(kept)[0], States(kept)[1], FirstRecord(), true, Chance(LIVE, 1), kept,
             Response.Completed([Begin("0", CHARGE)], [], None));
  }

  lemma SecondStep(kept: Cache)
    ensures DoneBy(SETTINGS, States(kept)[1], Actions()[1], States(kept)[2])
  {
    ArrivesPlausibly();
    Cuts();
    assert Next(H3, FutureResolved(ActivityResolved(3, Resolution.Completed(["paid"])))) == H4;
    hide PlausibleAt, Closed;
  }

  lemma ThirdStep(kept: Cache)
    requires HandleTask(SETTINGS, kept, TaskOf(SecondRecord(), "run", false, []), Chance(LIVE, 2)) ==
               ([], Response.Completed([], [], Some(Complete(["paid"]))))
    ensures DoneBy(SETTINGS, States(kept)[2], Actions()[2], States(kept)[3])
  {
    SecondAnswer();
    ArrivesPlausibly();
    hide HandleTask, RecordAfter, TaskOf, PlausibleAt, Closed, DoneBy;
    assert CacheOf(States(kept)[2], 0) == kept && States(kept)[2].caches[0 := []] == map[0 := []];
    TaskStep(States(kept)[2], States(kept)[3], SecondRecord(), false, Chance(LIVE, 2), [],
             Response.Completed([], [], Some(Complete(["paid"]))));
  }

  lemma ThreeSteps(states: seq<Cluster>, actions: seq<Action>)
    requires |states| == 4 && |actions| == 3 && Initial(states[0])
    requires DoneBy(SETTINGS, states[0], actions[0], states[1]) && DoneBy(SETTINGS, states[1], actions[1], states[2])
    requires DoneBy(SETTINGS, states[2], actions[2], states[3])
    ensures Execution(SETTINGS, states, actions)
  {
    hide DoneBy;
  }

  /** The cache of the worker between the two tasks. */
  function Kept(): Cache {
    [L.Entry("run", Waiting(Scan(H1), [Begin("0", CHARGE)], [D.CommandEvent(D.Activity, "0", "Charge")]))]
  }

  lemma StartsInitial(kept: Cache)
    ensures Initial(States(kept)[0])
  {
  }

  /** A workflow that schedules an activity, is continued on the cached runner when the activity has
      completed, and closes with its result: a run of the cluster. */
  lemma RunsToItsEnd()
    ensures Execution(SETTINGS, States(Kept()), Actions())
    ensures States(Kept())[3].runs["run"].history == H7
    ensures Recorded(H7) == [ActivityScheduled("0", "Charge"), WorkflowClosed(Complete(["paid"]))]
  {
    var states, actions := States(Kept()), Actions();
    assert |states| == 4 && |actions| == 3;
    FirstStep(Kept());
    SecondStep(Kept());
    SecondTask(Kept());
    ThirdStep(Kept());
    StartsInitial(Kept());
    RecordedSoFar();
    hide DoneBy, Recorded, Kept, Initial, Actions, HandleTask;
    ThreeSteps(states, actions);
  }
}
