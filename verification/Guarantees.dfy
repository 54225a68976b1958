/** What the invariant means for every reachable state, and what no step ever takes back. */
module Guarantees {
  import opened Invariant
  import opened KeyOrder
  import opened Messages
  import opened Progress
  import opened Protocol
  import opened RetryPolicy
  import opened Safety

  // ----- reachable states -----

  /** The RUNNING tasks of a project's active runs never exceed the largest limit of its runs. */
  lemma CapacityHolds(c: Config, steps: seq<Step>, project: string, bound: int)
    requires !c.external && bound >= 1
    requires forall r :: r in c.specs && c.specs[r].project == project ==> c.specs[r].limit <= bound
    ensures SlotsUsed(c, Execute(c, steps), project) <= bound
  {
    hide QueueOk, RowsOk, MessagesOk, LogOk, StatusOk, CleanOk, SlotTasks;
    ReachableInv(c, steps);
    assert BoundsLimits(c, project, bound);
  }

  /** Conservation: which tasks have a message, how many, and with which attempt. */
  lemma MessagesConserved(c: Config, steps: seq<Step>, t: TaskId)
    requires !c.external
    ensures var s := Execute(c, steps); var all := Outstanding(s);
      && (forall m, n :: m in all && n in all && m.task == t && n.task == t ==> m == n)
      && (forall m :: m in all && m.task == t ==> all[m] == 1 && t in s.tasks && s.tasks[t].status in {Running, Cancelled})
      && (t in s.tasks && s.tasks[t].status == Running ==>
           Msg(t, s.tasks[t].attempt) in all && forall m :: m in all && m.task == t ==> m == Msg(t, s.tasks[t].attempt))
  {
    hide QueueOk, RowsOk, LogOk, StatusOk, CapacityOk, CleanOk, Outstanding, Execute;
    ReachableInv(c, steps);
    var s := Execute(c, steps);
    forall m | m in Outstanding(s) && m.task == t ensures MessageOk(s.tasks, s.log, m) {}
  }

  /** A RUNNING run with an executable plan in a project with one limit has a RUNNING task whose message is under way. */
  lemma RunningRunHasMessage(c: Config, steps: seq<Step>, r: RunId)
    requires !c.external && r in c.specs && OneLimit(c, c.specs[r].project) && Planned(c, r)
    requires r in Execute(c, steps).runs && Execute(c, steps).runs[r] == RunRunning
    ensures var s := Execute(c, steps);
      exists m :: m in Outstanding(s) && m.task.run == r && m.task in s.tasks && s.tasks[m.task] == TaskRow(Running, m.attempt)
  {
    hide QueueOk, RowsOk, LogOk, StatusOk, CapacityOk, CleanOk, Outstanding, Execute, OneLimit, Planned;
    ReachableInv(c, steps);
    NoRunIsStranded(c, steps, r);
    var s := Execute(c, steps);
    var k :| k in c.Spec(r).plan && TaskId(r, k) in s.tasks && s.tasks[TaskId(r, k)].status == Running;
    assert Msg(TaskId(r, k), s.tasks[TaskId(r, k)].attempt) in Outstanding(s);
  }

  /** A task is dispatched with attempts 1, 2, ..., k in this order, and k is within its budget. */
  lemma AttemptsCountUp(c: Config, steps: seq<Step>, t: TaskId)
    requires !c.external
    ensures var attempts, own := Attempts(Execute(c, steps).log, t), c.Spec(t.run).maxAttempts;
      && |attempts| <= Budget(if t.key in own then own[t.key] else 3)
      && forall i :: 0 <= i < |attempts| ==> attempts[i] == i + 1
  {
    hide QueueOk, RowsOk, MessagesOk, StatusOk, CapacityOk, CleanOk, Execute;
    ReachableInv(c, steps);
    var s := Execute(c, steps);
    assert HistoryOk(c, s.tasks, s.log, t);
    var n := |Attempts(s.log, t)|;
    forall i | 0 <= i < n ensures Attempts(s.log, t)[i] == i + 1 {
      assert Upto(n)[i] == i + 1;
    }
  }

  /** Whatever was dispatched was selected, and all its dependencies have succeeded. */
  lemma DependenciesFirst(c: Config, steps: seq<Step>, m: Msg)
    requires !c.external && m in Execute(c, steps).log
    ensures var s := Execute(c, steps);
      && m.task.key in c.Spec(m.task.run).Selected()
      && forall d :: d in c.Spec(m.task.run).plan[m.task.key] ==>
           TaskId(m.task.run, d) in s.tasks && s.tasks[TaskId(m.task.run, d)].status == Success
  {
    hide QueueOk, RowsOk, MessagesOk, StatusOk, CapacityOk, CleanOk, Execute;
    ReachableInv(c, steps);
    var s := Execute(c, steps);
    LoggedIffAttempt(s.log, m);
    assert HistoryOk(c, s.tasks, s.log, m.task);
    forall d | d in c.Spec(m.task.run).Deps(m.task.key)
      ensures TaskId(m.task.run, d) in s.tasks && s.tasks[TaskId(m.task.run, d)].status == Success
    {
      assert Lookup(s.tasks, m.task.run, d).status == Success;
    }
  }

  /** In the order of dispatches every task comes after all selected tasks it depends on. */
  lemma DispatchesInOrder(c: Config, steps: seq<Step>, j: nat, d: Key)
    requires !c.external && j < |Execute(c, steps).log|
    requires var t := Execute(c, steps).log[j].task; d in c.Spec(t.run).Deps(t.key) && d in c.Spec(t.run).Selected()
    ensures var log := Execute(c, steps).log;
      exists i :: 0 <= i < j && log[i].task == TaskId(log[j].task.run, d)
  {
    hide QueueOk, RowsOk, MessagesOk, StatusOk, CapacityOk, CleanOk, Execute, HistoryOk;
    ReachableInv(c, steps);
    var log := Execute(c, steps).log;
    assert DepsBefore(c, log, j);
    assert Before(log, j, TaskId(log[j].task.run, d));
  }

  ghost function FirstDispatch(log: seq<Msg>, t: TaskId): (i: nat)
    requires Before(log, |log|, t)
    ensures i < |log| && log[i].task == t
    ensures forall j :: 0 <= j < i ==> log[j].task != t
    decreases log
  {
    if Before(log, |log| - 1, t) then
      assert Before(log[..|log| - 1], |log| - 1, t) by {
        var j :| 0 <= j < |log| - 1 && log[j].task == t;
        assert log[..|log| - 1][j].task == t;
      }
      FirstDispatch(log[..|log| - 1], t)
    else |log| - 1
  }

  lemma SuccessWasDispatched(c: Config, s: State, r: RunId, k: Key)
    requires Inv(c, s) && r in s.runs && s.runs[r] == RunSuccess && k in c.Spec(r).Selected()
    ensures TaskId(r, k) in s.tasks && Before(s.log, |s.log|, TaskId(r, k))
    ensures DepsDone(s.tasks, r, c.Spec(r).Deps(k))
  {
    hide QueueOk, RowsOk, MessagesOk, CapacityOk, CleanOk, Before, Ordered;
    assert AllSucceeded(c, s.tasks, r);
    assert HistoryOk(c, s.tasks, s.log, TaskId(r, k));
    LoggedTask(s.log, TaskId(r, k));
  }

  /** A run can only reach SUCCESS if its plan is executable: a cycle or an unknown dependency keeps it from it. */
  lemma SuccessNeedsExecutablePlan(c: Config, steps: seq<Step>, r: RunId)
    requires !c.external && r in Execute(c, steps).runs && Execute(c, steps).runs[r] == RunSuccess
    ensures Executable(c, r)
  {
    hide QueueOk, MessagesOk, StatusOk, CapacityOk, CleanOk, Execute, HistoryOk, Before;
    var s := Execute(c, steps);
    var spec := c.Spec(r);
    ReachableInv(c, steps);
    forall k | k in spec.Selected()
      ensures Before(s.log, |s.log|, TaskId(r, k)) && DepsDone(s.tasks, r, spec.Deps(k))
    {
      SuccessWasDispatched(c, s, r, k);
    }
    forall k, d | k in spec.Selected() && d in spec.Deps(k) ensures d in spec.plan {
      assert Lookup(s.tasks, r, d).status == Success;
      assert TaskId(r, d) in s.tasks;
    }
    var rank := map k | k in spec.Selected() :: FirstDispatch(s.log, TaskId(r, k));
    forall k, d | k in spec.Selected() && d in spec.Deps(k) && d in spec.Selected() ensures rank[d] < rank[k] {
      EarlierDispatch(c, s.log, r, k, d);
    }
    assert Ranks(spec, rank);
  }

  lemma EarlierDispatch(c: Config, log: seq<Msg>, r: RunId, k: Key, d: Key)
    requires Ordered(c, log)
    requires Before(log, |log|, TaskId(r, k)) && Before(log, |log|, TaskId(r, d))
    requires d in c.Spec(r).Deps(k) && d in c.Spec(r).Selected()
    ensures FirstDispatch(log, TaskId(r, d)) < FirstDispatch(log, TaskId(r, k))
  {
    var j := FirstDispatch(log, TaskId(r, k));
    assert DepsBefore(c, log, j);
    assert Before(log, j, TaskId(r, d));
  }

  /** What a final run status says: SUCCESS about every task of the plan, FAILED about one of them. */
  lemma RunStatusSound(c: Config, steps: seq<Step>, r: RunId)
    requires !c.external && r in Execute(c, steps).runs
    ensures var s := Execute(c, steps);
      && (s.runs[r] == RunSuccess ==>
           forall k :: k in c.Spec(r).plan ==> TaskId(r, k) in s.tasks && s.tasks[TaskId(r, k)].status == Success)
      && (s.runs[r] == RunFailed ==>
           exists k :: k in c.Spec(r).plan && TaskId(r, k) in s.tasks && s.tasks[TaskId(r, k)].status == Failed
                       && forall m :: m in Outstanding(s) ==> m.task != TaskId(r, k))
  {
    hide QueueOk, RowsOk, LogOk, CapacityOk, CleanOk, Outstanding, Execute;
    ReachableInv(c, steps);
    var s := Execute(c, steps);
    if s.runs[r] == RunFailed {
      var k :| k in c.Spec(r).plan && TaskId(r, k) in s.tasks && s.tasks[TaskId(r, k)].status == Failed;
      forall m | m in Outstanding(s) ensures m.task != TaskId(r, k) {
        assert MessageOk(s.tasks, s.log, m);
      }
    }
  }

  // ----- steps never take back -----

  lemma SettledTrans(a: Rows, b: Rows, d: Rows)
    requires Settled(a, b) && Settled(b, d)
    ensures Settled(a, d)
  {
  }

  lemma LoopSettled(s: State, s': State, r: RunId)
    requires LoopFrame(s, s', r)
    ensures Settled(s.tasks, s'.tasks)
  {
  }

  lemma SyncSettled(c: Config, s: State, r: RunId)
    requires Core(c, s) && Complete(c, s.tasks, r)
    ensures Settled(s.tasks, SyncRun(c, s, r).tasks)
  {
    hide QueueOk, RowsOk, MessagesOk, LogOk, StatusOk, CapacityOk, CancelBlocked, AllSelected, AnySelected;
    CancelAllSelected(c, s, r);
  }

  lemma SuccessSettled(c: Config, s: State)
    requires Inv(c, s) && s.done != [] && s.done[0].ok
    ensures Settled(s.tasks, Handle(c, s).tasks)
  {
    hide QueueOk, RowsOk, MessagesOk, LogOk, StatusOk, CapacityOk, CleanOk, CleanExcept, Complete, MessageOk;
    hide SyncRun, ScheduleReady, LoopFrame, Settled, UpsertRow;
    var r := s.done[0].msg.task.run;
    var s1 := AfterRecord(s);
    HeadMessage(c, s);
    SettleKeeps(c, s, Success);
    if IsCancelled(s1, r) {
      CancelTasksKeeps(c, s1, r);
      SettledTrans(s.tasks, s1.tasks, CancelTasks(s1, r, false).tasks);
    } else {
      var limit := Max(1, c.Spec(r).limit);
      LimitAtLeastOne(c, r);
      ScheduleReadyKeeps(c, s1, r, limit);
      ScheduleReadyFrame(c, s1, r, limit);
      var s2 := ScheduleReady(c, s1, r, limit);
      LoopSettled(s1, s2, r);
      StartedIsComplete(c, s2.runs, s2.tasks, r);
      SyncSettled(c, s2, r);
      SettledTrans(s.tasks, s1.tasks, s2.tasks);
      SettledTrans(s.tasks, s2.tasks, SyncRun(c, s2, r).tasks);
    }
  }

  lemma FailureSettled(c: Config, s: State)
    requires Inv(c, s) && s.done != [] && !s.done[0].ok
    ensures Settled(s.tasks, Handle(c, s).tasks)
  {
    hide QueueOk, RowsOk, MessagesOk, LogOk, StatusOk, CapacityOk, CleanOk, CleanExcept, Complete;
    hide SyncRun, UpsertRow, Settled, Handle, Outstanding;
    var m := s.done[0].msg;
    HeadMessage(c, s);
    if ShouldRetry(m.attempt, c.Spec(m.task.run).MaxAttempts(m.task.key)) {
      RetryShape(c, s);
      RetriedSettled(s.tasks, m.task, m.attempt + 1);
    } else {
      SettleKeeps(c, s, Failed);
      ExhaustedIs(c, s);
      var s1 := Upsert(s.(done := s.done[1..]), m.task, Failed, m.attempt);
      var s2 := s1.(dlq := s.dlq + [m]);
      SameOutstanding(s1, s2);
      SyncSettled(c, s2, m.task.run);
      SettledTrans(s.tasks, s2.tasks, SyncRun(c, s2, m.task.run).tasks);
    }
  }

  lemma RetriedSettled(tasks: Rows, t: TaskId, attempt: int)
    ensures Settled(tasks, RetriedRows(tasks, t, attempt))
  {
  }

  /** An exhausted task goes to the dead-letter queue before its run is synchronised. */
  lemma ExhaustedIs(c: Config, s: State)
    requires s.done != [] && !s.done[0].ok
    requires var m := s.done[0].msg; !ShouldRetry(m.attempt, c.Spec(m.task.run).MaxAttempts(m.task.key))
    ensures var m := s.done[0].msg;
      Handle(c, s) == SyncRun(c, Upsert(s.(done := s.done[1..]), m.task, Failed, m.attempt).(dlq := s.dlq + [m]), m.task.run)
  {
    hide SyncRun, UpsertRow;
    assert s.done[0].msg == Msg(s.done[0].msg.task, s.done[0].msg.attempt);
  }

  lemma StartSettled(c: Config, s: State)
    requires Inv(c, s) && s.runQueue != [] && s.runs[s.runQueue[0]] == RunPending
    ensures Settled(s.tasks, StartRun(c, s.(runQueue := s.runQueue[1..]), s.runQueue[0]).tasks)
  {
    hide QueueOk, RowsOk, MessagesOk, LogOk, StatusOk, CapacityOk, CleanOk, CleanExcept, Clean, Complete;
    hide ScheduleReady, InitRows, GateAccepts, SomeRow, InitialStatus, LoopFrame, Settled, StartRows;
    var r := s.runQueue[0];
    var s0 := s.(runQueue := s.runQueue[1..]);
    var s1 := TransitionRun(s0, r, RunRunning);
    var s2 := Started(c, s0, r);
    QueuedHasNoRows(c, s);
    StartedKeeps(c, s);
    StartedShape(c, s0, r);
    StartRowsOk(c, s1, s.tasks, r);
    if GateAccepts(c, s1, r) {
      KnownRun(c, s, r);
      LimitAtLeastOne(c, r);
      ScheduleReadyFrame(c, s2, r, c.Spec(r).limit);
      LoopSettled(s2, ScheduleReady(c, s2, r, c.Spec(r).limit), r);
      SettledTrans(s.tasks, s2.tasks, ScheduleReady(c, s2, r, c.Spec(r).limit).tasks);
    }
  }

  lemma SettledRefl(a: Rows)
    ensures Settled(a, a)
  {
  }

  lemma ConsumeSettled(c: Config, s: State)
    requires Inv(c, s)
    ensures Settled(s.tasks, Consume(c, s).tasks)
  {
    hide QueueOk, RowsOk, MessagesOk, LogOk, StatusOk, CapacityOk, CleanOk, Outstanding, StartRun, Settled, SlotTasks;
    SettledRefl(s.tasks);
    if s.runQueue != [] {
      QueuedHasNoRows(c, s);
      CancelSettles(s.(runQueue := s.runQueue[1..]), s.runQueue[0]);
      if s.runs[s.runQueue[0]] == RunPending {
        StartSettled(c, s);
      }
    }
  }

  lemma CancelSettles(s: State, r: RunId)
    ensures Settled(s.tasks, CancelTasks(s, r, false).tasks)
  {
  }

  /** SUCCESS, FAILED and CANCELLED task rows never change again, and no row disappears. */
  lemma TerminalRowsStay(c: Config, s: State, step: Step)
    requires Inv(c, s)
    ensures Settled(s.tasks, Next(c, s, step).tasks)
  {
    hide Inv, Settled, Consume, Handle, Take, Finish, CancelTasks;
    SettledRefl(s.tasks);
    match step
    case Submit(r) =>
    case RotateRuns =>
    case ConsumeRun => ConsumeSettled(c, s);
    case ExecutorTake => TakeFrame(s);
    case ExecutorFinish(m, ok) => FinishFrame(s, m, ok);
    case HandleDone =>
      if s.done == [] {
        NothingDone(c, s);
      } else if s.done[0].ok {
        SuccessSettled(c, s);
      } else {
        FailureSettled(c, s);
      }
    case ApiMarkCancelled(r) =>
    case ApiCancelTasks(r) => CancelSettles(s, r);
  }

  /** In particular a dependency that has succeeded once stays successful through any continuation. */
  lemma {:induction false} TerminalRowsStayForever(c: Config, steps: seq<Step>, more: seq<Step>)
    requires !c.external
    ensures Settled(Execute(c, steps).tasks, Execute(c, steps + more).tasks)
    decreases |more|
  {
    hide Settled, Next, Inv;
    if more == [] {
      assert steps + more == steps;
      SettledRefl(Execute(c, steps).tasks);
    } else {
      var before := more[..|more| - 1];
      assert (steps + more)[..|steps + more| - 1] == steps + before;
      TerminalRowsStayForever(c, steps, before);
      ReachableInv(c, steps + before);
      TerminalRowsStay(c, Execute(c, steps + before), more[|more| - 1]);
      SettledTrans(Execute(c, steps).tasks, Execute(c, steps + before).tasks, Execute(c, steps + more).tasks);
    }
  }

  // ----- run statuses -----

  /** A run keeps its final status; only the cancel endpoint can still turn it into CANCELLED. */
  ghost predicate FinalKept(s: State, s': State, r: RunId) {
    r in s.runs && s.runs[r] in {RunSuccess, RunFailed, RunCancelled} ==> r in s'.runs && s'.runs[r] == s.runs[r]
  }

  lemma SyncKeepsFinal(c: Config, s: State, q: RunId, r: RunId)
    ensures FinalKept(s, SyncRun(c, s, q), r)
  {
    hide CancelBlocked, AllSelected, AnySelected;
    CancelBlockedChannels(c, s, q, SortedKeys(c.Spec(q).Selected()), s.tasks);
  }

  lemma HandleKeepsFinal(c: Config, s: State, r: RunId)
    requires Inv(c, s)
    ensures FinalKept(s, Handle(c, s), r)
  {
    hide QueueOk, RowsOk, MessagesOk, LogOk, StatusOk, CapacityOk, CleanOk, CleanExcept, Complete, Settled;
    hide SyncRun, ScheduleReady, UpsertRow, Outstanding, Handle, RetriedRows;
    if s.done == [] {
      NothingDone(c, s);
    } else {
      var m := s.done[0].msg;
      HeadMessage(c, s);
      if s.done[0].ok {
        SuccessKeepsFinal(c, s, r);
      } else if ShouldRetry(m.attempt, c.Spec(m.task.run).MaxAttempts(m.task.key)) {
        RetryRuns(c, s);
      } else {
        ExhaustedIs(c, s);
        SyncKeepsFinal(c, Upsert(s.(done := s.done[1..]), m.task, Failed, m.attempt).(dlq := s.dlq + [m]), m.task.run, r);
      }
    }
  }

  lemma SuccessKeepsFinal(c: Config, s: State, r: RunId)
    requires Inv(c, s) && s.done != [] && s.done[0].ok
    ensures FinalKept(s, Handle(c, s), r)
  {
    hide QueueOk, RowsOk, MessagesOk, LogOk, StatusOk, CapacityOk, CleanOk, CleanExcept, Complete, Settled;
    hide SyncRun, ScheduleReady, UpsertRow, Outstanding;
    var q := s.done[0].msg.task.run;
    var s1 := AfterRecord(s);
    HeadMessage(c, s);
    SettleKeeps(c, s, Success);
    if !IsCancelled(s1, q) {
      LimitAtLeastOne(c, q);
      ScheduleReadyKeeps(c, s1, q, Max(1, c.Spec(q).limit));
      SyncKeepsFinal(c, ScheduleReady(c, s1, q, Max(1, c.Spec(q).limit)), q, r);
    }
  }

  lemma MadeRunningKeepsFinal(s: State, s2: State, q: RunId, r: RunId)
    requires q in s.runs && s.runs[q] == RunPending && s2.runs == s.runs[q := RunRunning]
    ensures FinalKept(s, s2, r) && FinalKept(s, TransitionRun(s2, q, RunFailed), r)
  {
  }

  lemma StartKeepsFinal(c: Config, s: State, r: RunId)
    requires Inv(c, s) && s.runQueue != [] && s.runs[s.runQueue[0]] == RunPending
    ensures FinalKept(s, StartRun(c, s.(runQueue := s.runQueue[1..]), s.runQueue[0]), r)
  {
    hide QueueOk, RowsOk, MessagesOk, LogOk, StatusOk, CapacityOk, CleanOk, CleanExcept, Clean, Complete;
    hide ScheduleReady, InitRows, GateAccepts, SomeRow, InitialStatus, LoopFrame, FinalKept;
    var q := s.runQueue[0];
    var s0 := s.(runQueue := s.runQueue[1..]);
    var s2 := Started(c, s0, q);
    QueuedHasNoRows(c, s);
    StartedKeeps(c, s);
    MadeRunningKeepsFinal(s, s2, q, r);
    if GateAccepts(c, TransitionRun(s0, q, RunRunning), q) {
      KnownRun(c, s, q);
      LimitAtLeastOne(c, q);
      ScheduleReadyFrame(c, s2, q, c.Spec(q).limit);
      LoopFrameRuns(s2, ScheduleReady(c, s2, q, c.Spec(q).limit), q);
      SameRunsKeepFinal(s, s2, ScheduleReady(c, s2, q, c.Spec(q).limit), r);
    }
  }

  lemma SameRunsKeepFinal(s: State, s2: State, s3: State, r: RunId)
    requires FinalKept(s, s2, r) && s3.runs == s2.runs
    ensures FinalKept(s, s3, r)
  {
  }

  /** Final statuses survive every step but one: the cancel endpoint overwrites whatever it finds. */
  lemma FinalRunsStay(c: Config, s: State, step: Step, r: RunId)
    requires Inv(c, s)
    ensures step != ApiMarkCancelled(r) ==> FinalKept(s, Next(c, s, step), r)
    ensures step == ApiMarkCancelled(r) && r in s.runs ==> IsCancelled(Next(c, s, step), r)
    ensures IsCancelled(s, r) ==> IsCancelled(Next(c, s, step), r)
  {
    hide Inv, Consume, Handle, Take, Finish, CancelTasks;
    match step
    case Submit(q) =>
    case RotateRuns =>
    case ConsumeRun => ConsumeKeepsFinal(c, s, r);
    case ExecutorTake => TakeFrame(s);
    case ExecutorFinish(m, ok) => FinishFrame(s, m, ok);
    case HandleDone => HandleKeepsFinal(c, s, r);
    case ApiMarkCancelled(q) =>
    case ApiCancelTasks(q) => CancelRunsSame(s, q);
  }

  lemma CancelRunsSame(s: State, r: RunId)
    ensures CancelTasks(s, r, false).runs == s.runs
  {
  }

  lemma ConsumeKeepsFinal(c: Config, s: State, r: RunId)
    requires Inv(c, s)
    ensures FinalKept(s, Consume(c, s), r)
  {
    hide QueueOk, RowsOk, MessagesOk, LogOk, StatusOk, CapacityOk, CleanOk, Outstanding, StartRun, SlotTasks;
    if s.runQueue != [] {
      QueuedHasNoRows(c, s);
      if s.runs[s.runQueue[0]] == RunPending {
        StartKeepsFinal(c, s, r);
      }
    }
  }

  /** The handler that records the success of the last open task of a RUNNING run completes the run. */
  lemma LastSuccessCompletes(c: Config, s: State)
    requires Inv(c, s) && s.done != [] && s.done[0].ok
    requires var t := s.done[0].msg.task; t.run in s.runs && s.runs[t.run] == RunRunning
    requires !OtherUnfinished(c, s.tasks, s.done[0].msg.task)
    ensures var r := s.done[0].msg.task.run; r in Handle(c, s).runs && Handle(c, s).runs[r] == RunSuccess
  {
    hide QueueOk, RowsOk, MessagesOk, LogOk, StatusOk, CapacityOk, CleanOk, Clean, Complete, SomeRow, AllSelected;
    hide Recorded, SyncRun, ScheduleReady, Handle, OtherRunning, OtherUnfinished, SlotTasks;
    var m := s.done[0].msg;
    RecordedIsRecorded(c, s);
    RecordedRows(c, s.tasks, m.task, m.attempt);
    AllDoneCompletes(c, AfterRecord(s), m.task.run, Max(1, c.Spec(m.task.run).limit));
  }

  lemma AllDoneCompletes(c: Config, s: State, r: RunId, limit: int)
    requires Recorded(c, s, r, limit) && AllSelected(c, s.tasks, r, Success)
    ensures SyncRun(c, ScheduleReady(c, s, r, limit), r).runs == s.runs[r := RunSuccess]
  {
    hide QueueOk, RowsOk, MessagesOk, LogOk, StatusOk, CapacityOk, CleanOk, Clean, Complete, AllSelected;
    hide SyncRun, ScheduleReady, SlotTasks;
    ScheduleReadyIdle(c, s, r, limit);
    SyncClean(c, s, r);
  }
}
