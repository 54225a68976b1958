/**
 Every execution makes finitely many moves, and when no move is left the work is
 done. A move is a step that submits, starts or drops a run, or takes, reports or
 handles a message; putting a run message back is not one.
*/
module Termination {
  import opened Invariant
  import opened KeyOrder
  import opened Messages
  import opened Progress
  import opened Protocol
  import opened RetryPolicy
  import opened Safety
  import opened TaskPlan

  /** The step does something now. */
  predicate Moves(c: Config, s: State, step: Step) {
    match step
    case Submit(r) => r in c.specs && r !in s.runs
    case RotateRuns => false
    case ConsumeRun =>
      && s.runQueue != []
      && (IsCancelled(s, s.runQueue[0])
          || SlotsUsed(c, s, c.Spec(s.runQueue[0]).project) < c.Spec(s.runQueue[0]).limit)
    case ExecutorTake => QueueLength(s) > 0
    case ExecutorFinish(m, ok) => m in s.inFlight
    case HandleDone => s.done != []
    case ApiMarkCancelled(r) => false
    case ApiCancelTasks(r) => false
  }

  /** All dispatches the retry budgets allow. */
  ghost function Dispatches(c: Config): set<Msg> {
    set r, k, a | r in c.specs && k in c.specs[r].plan && 1 <= a <= Budget(c.specs[r].MaxAttempts(k)) :: Msg(TaskId(r, k), a)
  }

  /** An upper bound on the moves still to come. */
  ghost function Measure(c: Config, s: State): int {
    4 * (|Dispatches(c)| - |s.log|)
    + 3 * QueueLength(s) + 2 * |s.inFlight| + |s.done|
    + 2 * (|c.specs| - |s.runs|) + |s.runQueue|
  }

  // ----- the measure is never negative -----

  lemma {:induction false} DistinctSize<T>(q: seq<T>, bound: set<T>)
    requires Distinct(q) && forall x :: x in q ==> x in bound
    ensures |q| <= |bound|
  {
    if q != [] {
      var last := q[|q| - 1];
      forall x | x in q[..|q| - 1] ensures x in bound - {last} {
        var i :| 0 <= i < |q| - 1 && q[i] == x;
      }
      DistinctSize(q[..|q| - 1], bound - {last});
      assert bound == (bound - {last}) + {last};
    }
  }

  lemma LoggedWithinBudget(c: Config, s: State, m: Msg)
    requires Inv(c, s) && m in s.log
    ensures m in Dispatches(c)
  {
    hide MessagesOk, StatusOk, CapacityOk, CleanOk;
    LoggedIffAttempt(s.log, m);
    var t := m.task;
    assert HistoryOk(c, s.tasks, s.log, t);
    var n := |Attempts(s.log, t)|;
    var i :| 0 <= i < n && Attempts(s.log, t)[i] == m.attempt;
    assert Upto(n)[i] == i + 1;
    assert t.run in s.runs;
    assert m == Msg(TaskId(t.run, t.key), m.attempt);
  }

  /** No execution dispatches more often than the budgets allow. */
  lemma LogWithinBudget(c: Config, s: State)
    requires Inv(c, s)
    ensures |s.log| <= |Dispatches(c)|
  {
    hide QueueOk, RowsOk, MessagesOk, StatusOk, CapacityOk, CleanOk, Dispatches;
    forall t ensures Attempts(s.log, t) == Upto(|Attempts(s.log, t)|) {
      assert HistoryOk(c, s.tasks, s.log, t);
    }
    CountedUpIsDistinct(s.log);
    forall m | m in s.log ensures m in Dispatches(c) {
      LoggedWithinBudget(c, s, m);
    }
    DistinctSize(s.log, Dispatches(c));
  }

  lemma MeasureIsNat(c: Config, s: State)
    requires Inv(c, s)
    ensures Measure(c, s) >= 0
  {
    hide RowsOk, MessagesOk, StatusOk, CapacityOk, CleanOk, Dispatches, LogOk;
    LogWithinBudget(c, s);
    SubsetSize(s.runs.Keys, c.specs.Keys);
  }

  // ----- every step respects the measure -----

  /** Messages and history after a piece of a handler: as many messages were queued as dispatches recorded. */
  ghost predicate Traffic(s: State, s': State) {
    && QueueLength(s') - QueueLength(s) == |s'.log| - |s.log| >= 0
    && s'.inFlight == s.inFlight && s'.done == s.done && s'.runQueue == s.runQueue
    && |s'.runs| == |s.runs|
  }

  lemma TrafficTrans(a: State, b: State, d: State)
    requires Traffic(a, b) && Traffic(b, d)
    ensures Traffic(a, d)
  {
  }

  lemma LoopTraffic(s: State, s': State, r: RunId)
    requires LoopFrame(s, s', r)
    ensures Traffic(s, s')
  {
  }

  lemma ChannelsTraffic(s: State, s': State)
    requires SameChannels(s, s') && s'.runs.Keys == s.runs.Keys
    ensures Traffic(s, s')
  {
    assert |s.runs| == |s.runs.Keys| == |s'.runs|;
  }

  lemma SyncKeepsRuns(c: Config, s: State, r: RunId)
    ensures SyncRun(c, s, r).runs.Keys == s.runs.Keys && SameChannels(s, SyncRun(c, s, r))
  {
    hide CancelBlocked, AllSelected, AnySelected;
    CancelBlockedChannels(c, s, r, SortedKeys(c.Spec(r).Selected()), s.tasks);
  }

  lemma SuccessTraffic(c: Config, s: State)
    requires Inv(c, s) && s.done != [] && s.done[0].ok
    ensures Traffic(s.(done := s.done[1..]), Handle(c, s))
  {
    hide QueueOk, RowsOk, MessagesOk, LogOk, StatusOk, CapacityOk, CleanOk, CleanExcept, Complete, MessageOk;
    hide SyncRun, ScheduleReady, OthersSame, LoopFrame, SameChannels, Settled, UpsertRow, Traffic;
    var r := s.done[0].msg.task.run;
    var s0 := s.(done := s.done[1..]);
    var s1 := AfterRecord(s);
    HeadMessage(c, s);
    SettleKeeps(c, s, Success);
    UpsertTraffic(s0, s.done[0].msg.task, Success, s.done[0].msg.attempt);
    if IsCancelled(s1, r) {
      CancelTraffic(s1, r);
      TrafficTrans(s0, s1, CancelTasks(s1, r, false));
    } else {
      var limit := Max(1, c.Spec(r).limit);
      var s2 := ScheduleReady(c, s1, r, limit);
      LimitAtLeastOne(c, r);
      AfterSuccessFrame(c, s1, r, limit);
      LoopTraffic(s1, s2, r);
      SyncKeepsRuns(c, s2, r);
      ChannelsTraffic(s2, SyncRun(c, s2, r));
      TrafficTrans(s0, s1, s2);
      TrafficTrans(s0, s2, SyncRun(c, s2, r));
    }
  }

  lemma UpsertTraffic(s: State, t: TaskId, to: TaskStatus, attempt: int)
    ensures Traffic(s, Upsert(s, t, to, attempt))
  {
  }

  lemma CancelTraffic(s: State, r: RunId)
    ensures Traffic(s, CancelTasks(s, r, false))
  {
  }

  lemma RetryTraffic(c: Config, s: State)
    requires Inv(c, s) && s.done != [] && !s.done[0].ok
    requires var m := s.done[0].msg; ShouldRetry(m.attempt, c.Spec(m.task.run).MaxAttempts(m.task.key))
    ensures Traffic(s.(done := s.done[1..]), Handle(c, s))
  {
    hide QueueOk, RowsOk, MessagesOk, LogOk, StatusOk, CapacityOk, CleanOk, CleanExcept, Complete, RetriedRows, Handle;
    HeadMessage(c, s);
    HeadRow(s, s.done[0].msg);
    RetryIsPush(c, s);
  }

  lemma ExhaustedTraffic(c: Config, s: State)
    requires Inv(c, s) && s.done != [] && !s.done[0].ok
    requires var m := s.done[0].msg; !ShouldRetry(m.attempt, c.Spec(m.task.run).MaxAttempts(m.task.key))
    ensures Traffic(s.(done := s.done[1..]), Handle(c, s))
  {
    hide Inv, SyncRun, SameChannels, UpsertRow;
    var m := s.done[0].msg;
    var s2 := Upsert(s.(done := s.done[1..]), m.task, Failed, m.attempt).(dlq := s.dlq + [Msg(m.task, m.attempt)]);
    SyncKeepsRuns(c, s2, m.task.run);
    ChannelsTraffic(s2, SyncRun(c, s2, m.task.run));
  }

  lemma HandleMeasure(c: Config, s: State)
    requires Inv(c, s) && s.done != []
    ensures Measure(c, Handle(c, s)) < Measure(c, s)
  {
    hide Inv, Handle, Dispatches;
    var m := s.done[0].msg;
    if s.done[0].ok {
      SuccessTraffic(c, s);
    } else if ShouldRetry(m.attempt, c.Spec(m.task.run).MaxAttempts(m.task.key)) {
      RetryTraffic(c, s);
    } else {
      ExhaustedTraffic(c, s);
    }
  }

  lemma StartTraffic(c: Config, s: State)
    requires Inv(c, s) && s.runQueue != [] && s.runs[s.runQueue[0]] == RunPending
    ensures var s0 := s.(runQueue := s.runQueue[1..]); Traffic(s0, StartRun(c, s0, s.runQueue[0]))
  {
    hide QueueOk, RowsOk, MessagesOk, LogOk, StatusOk, CapacityOk, CleanOk, CleanExcept, Clean, Complete;
    hide ScheduleReady, InitRows, GateAccepts, SomeRow, InitialStatus, LoopFrame, Traffic, StartRows;
    var r := s.runQueue[0];
    var s0 := s.(runQueue := s.runQueue[1..]);
    var s1 := TransitionRun(s0, r, RunRunning);
    var s2 := Started(c, s0, r);
    QueuedHasNoRows(c, s);
    StartedKeeps(c, s);
    StartedShape(c, s0, r);
    StartedTraffic(s0, s1, s2, r);
    if GateAccepts(c, s1, r) {
      KnownRun(c, s, r);
      LimitAtLeastOne(c, r);
      ScheduleReadyFrame(c, s2, r, c.Spec(r).limit);
      LoopTraffic(s2, ScheduleReady(c, s2, r, c.Spec(r).limit), r);
      TrafficTrans(s0, s2, ScheduleReady(c, s2, r, c.Spec(r).limit));
    } else {
      TransitionTraffic(s2, r, RunFailed);
      TrafficTrans(s0, s2, TransitionRun(s2, r, RunFailed));
    }
  }

  lemma StartedTraffic(s0: State, s1: State, s2: State, r: RunId)
    requires s1 == TransitionRun(s0, r, RunRunning)
    requires s2 == s1.(tasks := s2.tasks, blocked := s2.blocked)
    ensures Traffic(s0, s2)
  {
    TransitionTraffic(s0, r, RunRunning);
  }

  lemma TransitionTraffic(s: State, r: RunId, to: RunStatus)
    ensures Traffic(s, TransitionRun(s, r, to))
  {
    assert TransitionRun(s, r, to).runs.Keys == s.runs.Keys;
    ChannelsTraffic(s, TransitionRun(s, r, to));
  }

  lemma ConsumeMeasure(c: Config, s: State)
    requires Inv(c, s)
    ensures Measure(c, Consume(c, s)) <= Measure(c, s)
    ensures Moves(c, s, ConsumeRun) ==> Measure(c, Consume(c, s)) < Measure(c, s)
  {
    hide QueueOk, RowsOk, MessagesOk, LogOk, StatusOk, CapacityOk, CleanOk, Outstanding, StartRun, SlotTasks, Dispatches;
    if s.runQueue != [] {
      QueuedHasNoRows(c, s);
      if s.runs[s.runQueue[0]] == RunPending {
        StartTraffic(c, s);
      }
    }
  }

  lemma SubmitMeasure(c: Config, s: State, r: RunId)
    ensures Measure(c, SubmitRun(c, s, r)) <= Measure(c, s)
    ensures Moves(c, s, Submit(r)) ==> Measure(c, SubmitRun(c, s, r)) < Measure(c, s)
  {
    hide Dispatches;
    if r in c.specs && r !in s.runs {
      assert s.runs[r := RunPending].Keys == s.runs.Keys + {r};
      assert |s.runs[r := RunPending]| == |s.runs.Keys + {r}| == |s.runs| + 1;
    }
  }

  lemma MarkMeasure(c: Config, s: State, r: RunId)
    ensures Measure(c, MarkCancelled(s, r)) == Measure(c, s)
    ensures Measure(c, FinishCancel(s, r)) == Measure(c, s)
  {
    hide Dispatches;
    assert MarkCancelled(s, r).runs.Keys == s.runs.Keys;
    assert |MarkCancelled(s, r).runs| == |MarkCancelled(s, r).runs.Keys| == |s.runs|;
  }

  lemma TakeMeasure(c: Config, s: State)
    ensures Measure(c, Take(s)) <= Measure(c, s)
    ensures QueueLength(s) > 0 ==> Measure(c, Take(s)) < Measure(c, s)
  {
    hide Dispatches;
  }

  lemma FinishMeasure(c: Config, s: State, m: Msg, ok: bool)
    ensures Measure(c, Finish(s, m, ok)) <= Measure(c, s)
    ensures m in s.inFlight ==> Measure(c, Finish(s, m, ok)) < Measure(c, s)
  {
    hide Dispatches;
  }

  /** Every move makes the measure smaller and no step makes it larger. */
  lemma NextMeasure(c: Config, s: State, step: Step)
    requires Inv(c, s)
    ensures Measure(c, Next(c, s, step)) <= Measure(c, s)
    ensures Moves(c, s, step) ==> Measure(c, Next(c, s, step)) < Measure(c, s)
  {
    hide Inv, Dispatches, Consume, Handle, Take, Finish, SubmitRun, MarkCancelled, FinishCancel;
    match step
    case Submit(r) => SubmitMeasure(c, s, r);
    case RotateRuns =>
    case ConsumeRun => ConsumeMeasure(c, s);
    case ExecutorTake => TakeMeasure(c, s);
    case ExecutorFinish(m, ok) => FinishMeasure(c, s, m, ok);
    case HandleDone =>
      if s.done != [] {
        HandleMeasure(c, s);
      } else {
        NothingDone(c, s);
      }
    case ApiMarkCancelled(r) => MarkMeasure(c, s, r);
    case ApiCancelTasks(r) => MarkMeasure(c, s, r);
  }

  /** The number of moves among the steps. */
  ghost function MoveCount(c: Config, steps: seq<Step>): nat {
    if steps == [] then 0
    else
      var before := steps[..|steps| - 1];
      MoveCount(c, before) + (if Moves(c, Execute(c, before), steps[|steps| - 1]) then 1 else 0)
  }

  lemma {:induction false} MovesPaid(c: Config, steps: seq<Step>)
    requires !c.external
    ensures MoveCount(c, steps) + Measure(c, Execute(c, steps)) <= 4 * |Dispatches(c)| + 2 * |c.specs|
  {
    hide Dispatches, Moves, Next;
    if steps != [] {
      var before := steps[..|steps| - 1];
      MovesPaid(c, before);
      ReachableInv(c, before);
      NextMeasure(c, Execute(c, before), steps[|steps| - 1]);
    }
  }

  /** However runs, executors and cancellations interleave, the number of moves is bounded. */
  lemma FinitelyManyMoves(c: Config, steps: seq<Step>)
    requires !c.external
    ensures MoveCount(c, steps) <= 4 * |Dispatches(c)| + 2 * |c.specs|
  {
    hide Dispatches, MoveCount, Inv, Measure;
    MovesPaid(c, steps);
    ReachableInv(c, steps);
    MeasureIsNat(c, Execute(c, steps));
  }

  // ----- when nothing moves -----

  ghost predicate Quiet(c: Config, s: State) {
    forall step: Step :: step.Submit? || !Moves(c, s, step)
  }

  lemma QuietHasNoMessages(c: Config, s: State)
    requires Quiet(c, s)
    ensures Outstanding(s) == multiset{}
  {
    assert !Moves(c, s, ExecutorTake);
    assert !Moves(c, s, HandleDone);
    forall m ensures m !in s.inFlight {
      assert !Moves(c, s, ExecutorFinish(m, true));
    }
    assert s.high == [] && s.normal == [] && s.low == [] && s.done == [];
    assert s.inFlight == multiset{};
  }

  lemma NoSlotsWithoutRunning(c: Config, s: State, p: string)
    requires !c.external && MessagesOk(s.tasks, multiset{}, s.log)
    ensures SlotsUsed(c, s, p) == 0
  {
    assert SlotTasks(c, s.runs, s.tasks, p) == {};
  }

  /** With limits of at least 1, all queues are empty when no message can be taken, reported or handled and no run can start. */
  lemma QuietMeansEmpty(c: Config, s: State)
    requires Inv(c, s) && Quiet(c, s) && forall r :: r in c.specs ==> c.specs[r].limit >= 1
    ensures Outstanding(s) == multiset{} && s.runQueue == []
  {
    hide LogOk, StatusOk, CapacityOk, CleanOk, RowsOk, Outstanding, Moves;
    QuietHasNoMessages(c, s);
    assert !Moves(c, s, ConsumeRun);
    if s.runQueue != [] {
      NoSlotsWithoutRunning(c, s, c.Spec(s.runQueue[0]).project);
      KnownRun(c, s, s.runQueue[0]);
      ConsumeMoves(c, s);
    }
  }

  /**
   When nothing moves any more, a submitted run with an executable plan in a project with
   one limit has a final status.
  */
  lemma QuietMeansDone(c: Config, steps: seq<Step>, r: RunId)
    requires !c.external && forall q :: q in c.specs ==> c.specs[q].limit >= 1
    requires Quiet(c, Execute(c, steps))
    requires r in Execute(c, steps).runs && OneLimit(c, c.Spec(r).project) && Planned(c, r)
    ensures Execute(c, steps).runs[r] in {RunSuccess, RunFailed, RunCancelled}
  {
    hide LogOk, StatusOk, CapacityOk, CleanOk, RowsOk, Outstanding, OneLimit, Planned, Quiet, Execute;
    var s := Execute(c, steps);
    ReachableInv(c, steps);
    QuietMeansEmpty(c, s);
    NoRunIsStranded(c, steps, r);
    NoRowRunning(c, s, r);
  }

  lemma ConsumeMoves(c: Config, s: State)
    requires s.runQueue != [] && SlotsUsed(c, s, c.Spec(s.runQueue[0]).project) < c.Spec(s.runQueue[0]).limit
    ensures Moves(c, s, ConsumeRun)
  {
  }

  lemma NoRowRunning(c: Config, s: State, r: RunId)
    requires MessagesOk(s.tasks, multiset{}, s.log)
    ensures !SomeRow(c, s.tasks, r, Running)
  {
  }
}
