/**
 Two runs of one project with different limits: the state in which the run with the
 smaller limit waits forever is reached in seven steps.
*/
module Stranding {
  import opened Guarantees
  import opened Invariant
  import opened KeyOrder
  import opened Progress
  import opened Protocol
  import opened ReplaySelection
  import opened Safety
  import opened Wrappers

  const NARROW: RunSpec := RunSpec("p", 1, Normal, map["x" := [], "y" := ["x"]], None, None, map[], {}, {})
  const WIDE: RunSpec := RunSpec("p", 2, Normal, map["z" := []], None, None, map[], {}, {})
  const TWO_LIMITS: Config := Config(false, map["a" := NARROW, "b" := WIDE])

  const AX: TaskId := TaskId("a", "x")
  const AY: TaskId := TaskId("a", "y")
  const BZ: TaskId := TaskId("b", "z")

  const ROWS_A: Rows := map[AX := TaskRow(Running, 1), AY := TaskRow(Pending, 1)]
  const ROWS_AB: Rows := map[AX := TaskRow(Running, 1), AY := TaskRow(Pending, 1), BZ := TaskRow(Running, 1)]

  /** A state of the run shown here, before anything has finished or failed. */
  function At(runs: Runs, tasks: Rows, queue: seq<RunId>, normal: seq<Msg>, held: multiset<Msg>, done: seq<Done>, log: seq<Msg>): State {
    State(runs, tasks, queue, [], normal, [], held, done, [], map[], log)
  }

  const SUBMITTED: State := At(map["a" := RunPending, "b" := RunPending], map[], ["a", "b"], [], multiset{}, [], [])
  const FIRST: State :=
    At(map["a" := RunRunning, "b" := RunPending], ROWS_A, ["b"], [Msg(AX, 1)], multiset{}, [], [Msg(AX, 1)])
  const SECOND: State :=
    At(map["a" := RunRunning, "b" := RunRunning], ROWS_AB, [], [Msg(AX, 1), Msg(BZ, 1)], multiset{}, [], [Msg(AX, 1), Msg(BZ, 1)])
  const REPORTED: State :=
    At(map["a" := RunRunning, "b" := RunRunning], ROWS_AB, [], [Msg(BZ, 1)], multiset{}, [Done(Msg(AX, 1), true)], [Msg(AX, 1), Msg(BZ, 1)])

  const STEPS: seq<Step> :=
    [Submit("a"), Submit("b"), ConsumeRun, ConsumeRun, ExecutorTake, ExecutorFinish(Msg(AX, 1), true)]

  lemma SortedPair()
    ensures SortedKeys({"x", "y"}) == ["x", "y"]
  {
    var r := SortedKeys({"x", "y"});
    assert LexLe("x", "y") && !LexLe("y", "x");
    assert "x" in r && "y" in r && |r| == 2;
  }

  lemma SortedOne()
    ensures SortedKeys({"z"}) == ["z"]
  {
    var r := SortedKeys({"z"});
    assert "z" in r && |r| == 1;
  }

  lemma SpecsAre()
    ensures TWO_LIMITS.Spec("a") == NARROW && TWO_LIMITS.Spec("b") == WIDE
    ensures NARROW.Selected() == NARROW.plan.Keys == {"x", "y"}
    ensures WIDE.Selected() == WIDE.plan.Keys == {"z"}
    ensures NARROW.Skipped() == {} && WIDE.Skipped() == {}
  {
  }

  lemma Submitting()
    ensures Execute(TWO_LIMITS, STEPS[..2]) == SUBMITTED
  {
    assert STEPS[..2][..1] == STEPS[..1];
    assert STEPS[..1][..0] == [];
    assert Execute(TWO_LIMITS, STEPS[..1]) == SubmitRun(TWO_LIMITS, INITIAL, "a");
    assert Execute(TWO_LIMITS, STEPS[..2]) == SubmitRun(TWO_LIMITS, SubmitRun(TWO_LIMITS, INITIAL, "a"), "b");
    assert map["a" := RunPending]["b" := RunPending] == map["a" := RunPending, "b" := RunPending];
  }

  // ----- starting the first run -----

  const OPENED_A: State := At(map["a" := RunRunning, "b" := RunPending], map[], ["b"], [], multiset{}, [], [])
  const INITIAL_A: State := OPENED_A.(tasks := map[AX := TaskRow(Pending, 1), AY := TaskRow(Pending, 1)])

  lemma InitialisingA()
    ensures InitRows(TWO_LIMITS, OPENED_A, OPENED_A, "a", ["x", "y"]) == INITIAL_A
  {
    SpecsAre();
    var s1 := OPENED_A.(tasks := map[AX := TaskRow(Pending, 1)]);
    assert ["x", "y"][1..] == ["y"] && ["y"][1..] == [];
    assert s1.tasks == OPENED_A.tasks[AX := TaskRow(Pending, 1)];
    assert INITIAL_A.tasks == s1.tasks[AY := TaskRow(Pending, 1)];
    assert InitRows(TWO_LIMITS, OPENED_A, s1, "a", ["y"]) == INITIAL_A;
  }

  lemma NoSlots(c: Config, s: State, p: string)
    requires forall t :: t in s.tasks ==> s.tasks[t].status == Pending
    ensures SlotsUsed(c, s, p) == 0
  {
    assert SlotTasks(c, s.runs, s.tasks, p) == {};
  }

  lemma FirstDispatched()
    ensures Dispatch(TWO_LIMITS, INITIAL_A, AX, 1) == FIRST
  {
    SpecsAre();
    assert FIRST.tasks == INITIAL_A.tasks[AX := TaskRow(Running, 1)];
  }

  lemma OnlyFirstReady()
    ensures Ready(TWO_LIMITS, INITIAL_A.tasks, "a", "x") && !Ready(TWO_LIMITS, INITIAL_A.tasks, "a", "y")
  {
    SpecsAre();
    assert "x" in NARROW.Deps("y");
  }

  lemma LoopEnds(c: Config, s: State, r: RunId, limit: int, key: Key, rows: Rows)
    requires !Ready(c, rows, r, key)
    ensures ScheduleLoop(c, s, r, limit, [key], rows, false) == (s, false)
  {
    assert [key][1..] == [];
  }

  lemma RoundOfTwo(c: Config, s: State, r: RunId, limit: int, k: Key, j: Key)
    requires !c.external && !IsCancelled(s, r) && SlotsUsed(c, s, c.Spec(r).project) < limit
    requires SortedKeys(c.Spec(r).Selected()) == [k, j]
    requires Ready(c, s.tasks, r, k) && !Ready(c, s.tasks, r, j)
    ensures ScheduleReady(c, s, r, limit) == Dispatch(c, s, TaskId(r, k), Lookup(s.tasks, r, k).attempt)
  {
    hide SlotsUsed, Ready, Dispatch, SyncRun, Lookup;
    assert [k, j][1..] == [j];
    LoopEnds(c, Dispatch(c, s, TaskId(r, k), Lookup(s.tasks, r, k).attempt), r, limit, j, s.tasks);
  }

  /** Everything the first round of run `a` depends on. */
  lemma FirstRoundA()
    ensures !TWO_LIMITS.external && !IsCancelled(INITIAL_A, "a")
    ensures SlotsUsed(TWO_LIMITS, INITIAL_A, TWO_LIMITS.Spec("a").project) < 1
    ensures SortedKeys(TWO_LIMITS.Spec("a").Selected()) == ["x", "y"]
    ensures Lookup(INITIAL_A.tasks, "a", "x").attempt == 1 && TaskId("a", "x") == AX
  {
    SpecsAre();
    SortedPair();
    NoSlots(TWO_LIMITS, INITIAL_A, "p");
  }

  lemma DispatchingA()
    ensures ScheduleReady(TWO_LIMITS, INITIAL_A, "a", 1) == FIRST
  {
    hide TWO_LIMITS, INITIAL_A, FIRST, AX, SlotsUsed, Ready, Dispatch, ScheduleReady, Lookup, IsCancelled;
    FirstRoundA();
    FirstDispatched();
    OnlyFirstReady();
    RoundOfTwo(TWO_LIMITS, INITIAL_A, "a", 1, "x", "y");
  }

  lemma OpeningA()
    ensures TransitionRun(SUBMITTED.(runQueue := ["b"]), "a", RunRunning) == OPENED_A
    ensures SUBMITTED.runQueue[1..] == ["b"] && !IsCancelled(SUBMITTED.(runQueue := ["b"]), "a")
  {
    assert OPENED_A.runs == SUBMITTED.runs["a" := RunRunning];
  }

  lemma StartingA()
    ensures StartRun(TWO_LIMITS, SUBMITTED.(runQueue := ["b"]), "a") == FIRST
  {
    SpecsAre();
    SortedPair();
    InitialisingA();
    DispatchingA();
    OpeningA();
    hide TransitionRun, InitRows, ScheduleReady, ReplaySelection.Selected, ReplaySelection.Skipped, SortedKeys;
    hide SUBMITTED, FIRST, INITIAL_A, OPENED_A;
    assert GateAccepts(TWO_LIMITS, OPENED_A, "a");
  }

  lemma ConsumingA()
    ensures Consume(TWO_LIMITS, SUBMITTED) == FIRST
  {
    SpecsAre();
    NoSlots(TWO_LIMITS, SUBMITTED.(runQueue := ["b"]), "p");
    OpeningA();
    StartingA();
    hide SlotsUsed, StartRun, ReplaySelection.Selected, ReplaySelection.Skipped;
  }

  // ----- starting the second run -----

  const OPENED_B: State :=
    At(map["a" := RunRunning, "b" := RunRunning], ROWS_A, [], [Msg(AX, 1)], multiset{}, [], [Msg(AX, 1)])
  const INITIAL_B: State :=
    OPENED_B.(tasks := map[AX := TaskRow(Running, 1), AY := TaskRow(Pending, 1), BZ := TaskRow(Pending, 1)])

  lemma OneSlot(tasks: Rows, runs: Runs)
    requires tasks == ROWS_A || tasks == INITIAL_B.tasks
    requires "a" in runs && runs["a"] == RunRunning && ("b" in runs ==> runs["b"] in {RunPending, RunRunning})
    ensures |SlotTasks(TWO_LIMITS, runs, tasks, "p")| == 1
  {
    hide ReplaySelection.Selected, ReplaySelection.Skipped;
    SpecsAre();
    assert SlotTasks(TWO_LIMITS, runs, tasks, "p") == {AX};
  }

  lemma InitialisingB()
    ensures InitRows(TWO_LIMITS, OPENED_B, OPENED_B, "b", ["z"]) == INITIAL_B
  {
    SpecsAre();
    assert ["z"][1..] == [];
    assert INITIAL_B.tasks == OPENED_B.tasks[BZ := TaskRow(Pending, 1)];
  }

  lemma DispatchingB()
    ensures ScheduleReady(TWO_LIMITS, INITIAL_B, "b", 2) == SECOND
  {
    SpecsAre();
    SortedOne();
    OneSlot(INITIAL_B.tasks, INITIAL_B.runs);
    hide SlotsUsed;
    var rows := INITIAL_B.tasks;
    assert ["z"][1..] == [];
    assert Ready(TWO_LIMITS, rows, "b", "z");
    assert SECOND.tasks == rows[BZ := TaskRow(Running, 1)];
    assert Dispatch(TWO_LIMITS, INITIAL_B, BZ, 1) == SECOND;
  }

  lemma ConsumingB()
    ensures Consume(TWO_LIMITS, FIRST) == SECOND
  {
    SpecsAre();
    SortedOne();
    OneSlot(FIRST.tasks, FIRST.runs);
    InitialisingB();
    DispatchingB();
    hide SlotsUsed, InitRows, ScheduleReady;
    assert FIRST.runQueue[1..] == [];
    assert OPENED_B.runs == FIRST.runs["b" := RunRunning];
    assert TransitionRun(FIRST.(runQueue := []), "b", RunRunning) == OPENED_B;
  }

  // ----- the executor reports, the scheduler strands the run -----

  lemma Reporting()
    ensures Finish(Take(SECOND), Msg(AX, 1), true) == REPORTED
  {
    assert SECOND.normal[1..] == [Msg(BZ, 1)];
  }

  lemma AllSteps()
    ensures Execute(TWO_LIMITS, STEPS) == REPORTED
  {
    hide Consume, Take, Finish;
    Submitting();
    ConsumingA();
    ConsumingB();
    Reporting();
    assert STEPS[..3][..2] == STEPS[..2] && STEPS[..4][..3] == STEPS[..3];
    assert STEPS[..5][..4] == STEPS[..4] && STEPS[..5] == STEPS[..|STEPS| - 1];
    assert Execute(TWO_LIMITS, STEPS[..3]) == FIRST;
    assert Execute(TWO_LIMITS, STEPS[..4]) == SECOND;
    assert Execute(TWO_LIMITS, STEPS[..5]) == Take(SECOND);
  }

  lemma BothPlanned()
    ensures Planned(TWO_LIMITS, "a") && Planned(TWO_LIMITS, "b")
  {
    SpecsAre();
    assert Ranks(NARROW, map["x" := 0, "y" := 1]);
    assert Ranks(WIDE, map["z" := 0]);
  }

  lemma ReportedSlots()
    ensures SlotsUsed(TWO_LIMITS, REPORTED, "p") == 2
  {
    SpecsAre();
    assert SlotTasks(TWO_LIMITS, REPORTED.runs, REPORTED.tasks, "p") == {AX, BZ};
  }

  lemma OnlyTaskRunning()
    ensures !OtherRunning(TWO_LIMITS, REPORTED.tasks, AX) && OtherUnfinished(TWO_LIMITS, REPORTED.tasks, AX)
  {
    SpecsAre();
    assert "y" in NARROW.Selected() && Lookup(REPORTED.tasks, "a", "y").status == Pending;
  }

  lemma StepsMore()
    ensures Execute(TWO_LIMITS, STEPS + [HandleDone]) == Handle(TWO_LIMITS, REPORTED)
  {
    hide Handle;
    assert (STEPS + [HandleDone])[..|STEPS|] == STEPS;
    AllSteps();
  }

  lemma Strands(c: Config, s: State, t: TaskId)
    requires Inv(c, s) && s.done == [Done(Msg(t, 1), true)]
    requires t.run in s.runs && s.runs[t.run] == RunRunning
    requires !OtherRunning(c, s.tasks, t) && OtherUnfinished(c, s.tasks, t)
    requires SlotsUsed(c, s, c.Spec(t.run).project) == 2 && c.Spec(t.run).limit == 1
    ensures Stranded(c, Handle(c, s).runs, Handle(c, s).tasks, t.run)
  {
    hide Inv, Handle, SlotsUsed, OtherRunning, OtherUnfinished, Stranded, NoneReady;
    HandleStrandsIff(c, s);
  }

  lemma RunAIsStranded()
    ensures var s := Execute(TWO_LIMITS, STEPS + [HandleDone]); Stranded(TWO_LIMITS, s.runs, s.tasks, "a")
  {
    hide Inv, Handle, SlotsUsed, OtherRunning, OtherUnfinished, Stranded, Execute;
    StepsMore();
    AllSteps();
    ReachableInv(TWO_LIMITS, STEPS);
    ReportedSlots();
    OnlyTaskRunning();
    SpecsAre();
    Strands(TWO_LIMITS, REPORTED, AX);
  }

  /** However long one waits, a stranded run stays so until somebody cancels it. */
  lemma {:induction false} StrandedForever(c: Config, steps: seq<Step>, more: seq<Step>, r: RunId)
    requires !c.external && Stranded(c, Execute(c, steps).runs, Execute(c, steps).tasks, r)
    ensures var s := Execute(c, steps + more);
      if ApiMarkCancelled(r) in more then IsCancelled(s, r) else Stranded(c, s.runs, s.tasks, r)
    decreases |more|
  {
    hide Next, Inv, Stranded, IsCancelled;
    if more == [] {
      assert steps + more == steps;
    } else {
      var before, last := more[..|more| - 1], more[|more| - 1];
      assert more == before + [last];
      assert (steps + more)[..|steps + more| - 1] == steps + before;
      StrandedForever(c, steps, before, r);
      ReachableInv(c, steps + before);
      if ApiMarkCancelled(r) in before {
        FinalRunsStay(c, Execute(c, steps + before), last, r);
      } else {
        StrandedStays(c, Execute(c, steps + before), last, r);
      }
    }
  }

  /** Without one limit per project a run can wait forever, although both plans are executable. */
  lemma DifferentLimitsStrand(more: seq<Step>)
    ensures Planned(TWO_LIMITS, "a") && Planned(TWO_LIMITS, "b")
    ensures var s := Execute(TWO_LIMITS, STEPS + [HandleDone] + more);
      ApiMarkCancelled("a") !in more ==> Stranded(TWO_LIMITS, s.runs, s.tasks, "a")
  {
    hide Planned, Stranded, Execute;
    BothPlanned();
    RunAIsStranded();
    StrandedForever(TWO_LIMITS, STEPS + [HandleDone], more, "a");
  }
}
