/**
 Cancellation is final: a cancelled run keeps its status, no further task of it is
 ever dispatched, and once the scheduler or the API has touched it all its rows are
 terminal for good.
*/
module Cancellation {
  import opened Guarantees
  import opened Invariant
  import opened KeyOrder
  import opened Messages
  import opened Progress
  import opened Protocol
  import opened RetryPolicy
  import opened Safety

  ghost predicate Dispatched(s: State, t: TaskId) {
    exists m :: m in s.log && m.task == t
  }

  lemma DispatchedIffAttempts(s: State, t: TaskId)
    ensures Dispatched(s, t) <==> Attempts(s.log, t) != []
  {
    if Dispatched(s, t) {
      var m :| m in s.log && m.task == t;
      LoggedIffAttempt(s.log, m);
    }
    if Attempts(s.log, t) != [] {
      var m := Msg(t, Attempts(s.log, t)[0]);
      LoggedIffAttempt(s.log, m);
    }
  }

  // ----- whose tasks a step dispatches -----

  ghost predicate SameHistory(a: seq<Msg>, b: seq<Msg>, r: RunId) {
    forall t: TaskId :: t.run == r ==> Attempts(b, t) == Attempts(a, t)
  }

  lemma LoopHistory(s: State, s': State, q: RunId, r: RunId)
    requires LoopFrame(s, s', q) && q != r
    ensures SameHistory(s.log, s'.log, r)
  {
  }

  lemma SuccessHistory(c: Config, s: State, r: RunId)
    requires Inv(c, s) && s.done != [] && s.done[0].ok
    requires s.done[0].msg.task.run != r || IsCancelled(s, r)
    ensures SameHistory(s.log, Handle(c, s).log, r)
  {
    hide QueueOk, RowsOk, MessagesOk, LogOk, StatusOk, CapacityOk, CleanOk, CleanExcept, Complete, MessageOk;
    hide SyncRun, ScheduleReady, LoopFrame, Settled, UpsertRow, Attempts;
    var q := s.done[0].msg.task.run;
    var s1 := AfterRecord(s);
    HeadMessage(c, s);
    SettleKeeps(c, s, Success);
    if !IsCancelled(s1, q) {
      var limit := Max(1, c.Spec(q).limit);
      LimitAtLeastOne(c, q);
      AfterSuccessFrame(c, s1, q, limit);
      LoopHistory(s1, ScheduleReady(c, s1, q, limit), q, r);
    }
  }

  /** A retry adds an attempt of the task whose message was handled, and of no other. */
  lemma FailureHistory(c: Config, s: State)
    requires Inv(c, s) && s.done != [] && !s.done[0].ok
    ensures forall t :: t != s.done[0].msg.task ==> Attempts(Handle(c, s).log, t) == Attempts(s.log, t)
  {
    hide Inv, Handle, SyncRun, UpsertRow, RetriedRows, Outstanding;
    var m := s.done[0].msg;
    if ShouldRetry(m.attempt, c.Spec(m.task.run).MaxAttempts(m.task.key)) {
      RetryShape(c, s);
      AttemptsPush(s.log, Msg(m.task, m.attempt + 1));
    } else {
      ExhaustedIs(c, s);
      SyncKeepsLog(c, Upsert(s.(done := s.done[1..]), m.task, Failed, m.attempt).(dlq := s.dlq + [m]), m.task.run);
    }
  }

  lemma SyncKeepsLog(c: Config, s: State, r: RunId)
    ensures SyncRun(c, s, r).log == s.log
  {
    hide CancelBlocked, AllSelected, AnySelected;
    CancelBlockedChannels(c, s, r, SortedKeys(c.Spec(r).Selected()), s.tasks);
  }

  lemma StartHistory(c: Config, s: State, r: RunId)
    requires Inv(c, s) && s.runQueue != [] && s.runs[s.runQueue[0]] == RunPending && r != s.runQueue[0]
    ensures SameHistory(s.log, StartRun(c, s.(runQueue := s.runQueue[1..]), s.runQueue[0]).log, r)
  {
    hide QueueOk, RowsOk, MessagesOk, LogOk, StatusOk, CapacityOk, CleanOk, CleanExcept, Clean, Complete;
    hide ScheduleReady, InitRows, GateAccepts, SomeRow, InitialStatus, LoopFrame, Attempts;
    var q := s.runQueue[0];
    var s0 := s.(runQueue := s.runQueue[1..]);
    var s2 := Started(c, s0, q);
    StartedKeeps(c, s);
    if GateAccepts(c, TransitionRun(s0, q, RunRunning), q) {
      KnownRun(c, s, q);
      LimitAtLeastOne(c, q);
      ScheduleReadyFrame(c, s2, q, c.Spec(q).limit);
      LoopHistory(s2, ScheduleReady(c, s2, q, c.Spec(q).limit), q, r);
    }
  }

  lemma ConsumeHistory(c: Config, s: State, r: RunId)
    requires Inv(c, s) && (r in s.runs && s.runs[r] == RunPending ==> s.runQueue == [] || s.runQueue[0] != r)
    ensures SameHistory(s.log, Consume(c, s).log, r)
  {
    hide QueueOk, RowsOk, MessagesOk, LogOk, StatusOk, CapacityOk, CleanOk, Outstanding, StartRun, SlotTasks, Attempts;
    if s.runQueue != [] {
      QueuedHasNoRows(c, s);
      if s.runs[s.runQueue[0]] == RunPending {
        StartHistory(c, s, r);
      }
    }
  }

  // ----- cancelled runs -----

  /** The set of tasks ever dispatched for a cancelled run never grows; retries repeat members of it. */
  lemma CancelledDispatchesNothingNew(c: Config, s: State, step: Step, t: TaskId)
    requires Inv(c, s) && IsCancelled(s, t.run)
    requires Dispatched(Next(c, s, step), t)
    ensures Dispatched(s, t)
  {
    hide Inv, Consume, Handle, Take, Finish, CancelTasks, Attempts, Dispatched;
    DispatchedIffAttempts(s, t);
    DispatchedIffAttempts(Next(c, s, step), t);
    match step
    case Submit(q) =>
    case RotateRuns =>
    case ConsumeRun => ConsumeHistory(c, s, t.run);
    case ExecutorTake => TakeFrame(s);
    case ExecutorFinish(m, ok) => FinishFrame(s, m, ok);
    case HandleDone =>
      if s.done == [] {
        NothingDone(c, s);
      } else if s.done[0].ok {
        SuccessHistory(c, s, t.run);
      } else {
        FailureHistory(c, s);
        HeadWasDispatched(c, s);
      }
    case ApiMarkCancelled(q) =>
    case ApiCancelTasks(q) => CancelKeepsLog(s, q);
  }

  lemma CancelKeepsLog(s: State, r: RunId)
    ensures CancelTasks(s, r, false).log == s.log
  {
  }

  lemma HeadWasDispatched(c: Config, s: State)
    requires Inv(c, s) && s.done != []
    ensures Attempts(s.log, s.done[0].msg.task) != []
  {
    hide QueueOk, RowsOk, MessagesOk, LogOk, StatusOk, CapacityOk, CleanOk, Attempts;
    HeadMessage(c, s);
  }

  /**
   A reported failure is retried exactly while the budget lasts, three attempts where the
   task has none of its own, also in a cancelled run: the row stays CANCELLED, but the
   message for the next attempt is pushed all the same.
  */
  lemma FailureRetriedIff(c: Config, s: State)
    requires Inv(c, s) && s.done != [] && !s.done[0].ok
    ensures var m := s.done[0].msg; var spec, s' := c.Spec(m.task.run), Handle(c, s);
      && s'.log == s.log + (if m.attempt < (if m.task.key in spec.maxAttempts then spec.maxAttempts[m.task.key] else 3)
                            then [Msg(m.task, m.attempt + 1)] else [])
      && (m.task in s.tasks && s.tasks[m.task].status == Cancelled ==> m.task in s'.tasks && s'.tasks[m.task].status == Cancelled)
  {
    hide Inv, Handle, SyncRun, UpsertRow, RetriedRows, Outstanding;
    var m := s.done[0].msg;
    FailureSettled(c, s);
    if ShouldRetry(m.attempt, c.Spec(m.task.run).MaxAttempts(m.task.key)) {
      RetryShape(c, s);
    } else {
      ExhaustedIs(c, s);
      SyncKeepsLog(c, Upsert(s.(done := s.done[1..]), m.task, Failed, m.attempt).(dlq := s.dlq + [m]), m.task.run);
    }
  }

  /** Over any continuation: a cancelled run stays cancelled and dispatches nothing new. */
  lemma {:induction false} CancellationIsFinal(c: Config, steps: seq<Step>, more: seq<Step>, t: TaskId)
    requires !c.external && IsCancelled(Execute(c, steps), t.run)
    ensures IsCancelled(Execute(c, steps + more), t.run)
    ensures Dispatched(Execute(c, steps + more), t) ==> Dispatched(Execute(c, steps), t)
    decreases |more|
  {
    hide Next, Inv, Dispatched, IsCancelled;
    if more == [] {
      assert steps + more == steps;
    } else {
      var before, last := more[..|more| - 1], more[|more| - 1];
      assert (steps + more)[..|steps + more| - 1] == steps + before;
      CancellationIsFinal(c, steps, before, t);
      var s := Execute(c, steps + before);
      ReachableInv(c, steps + before);
      FinalRunsStay(c, s, last, t.run);
      if Dispatched(Next(c, s, last), t) {
        CancelledDispatchesNothingNew(c, s, last, t);
      }
    }
  }

  // ----- terminal for good -----

  ghost predicate AllTerminal(tasks: Rows, r: RunId) {
    forall t: TaskId :: t in tasks && t.run == r ==> Terminal(tasks[t].status)
  }

  /** The steps that touch run `r`: the API's second transaction, its run message, a reported success. */
  predicate Touches(s: State, step: Step, r: RunId) {
    match step
    case ApiCancelTasks(q) => q == r
    case ConsumeRun => s.runQueue != [] && s.runQueue[0] == r
    case HandleDone => s.done != [] && s.done[0].ok && s.done[0].msg.task.run == r
    case _ => false
  }

  /** Cancelling the tasks of a run leaves it with terminal rows only, touches no other row, and has nothing left to do after. */
  lemma CancelledTerminal(s: State, r: RunId)
    ensures var s' := CancelTasks(s, r, false);
      && AllTerminal(s'.tasks, r)
      && Settled(s.tasks, s'.tasks) && SameElsewhere(s.tasks, s'.tasks, r)
      && (forall t :: t in s'.tasks ==> t in s.tasks && s'.tasks[t].attempt == s.tasks[t].attempt)
      && CancelTasks(s', r, false) == s'
  {
    var s' := CancelTasks(s, r, false);
    assert CancelTasks(s', r, false).tasks == s'.tasks;
  }

  lemma TouchMakesTerminal(c: Config, s: State, step: Step, r: RunId)
    requires Inv(c, s) && IsCancelled(s, r) && Touches(s, step, r)
    ensures AllTerminal(Next(c, s, step).tasks, r)
  {
    hide QueueOk, RowsOk, MessagesOk, LogOk, StatusOk, CapacityOk, CleanOk, CancelTasks, AllTerminal, StartRun;
    match step
    case ApiCancelTasks(q) => CancelledTerminal(s, r);
    case ConsumeRun => CancelledTerminal(s.(runQueue := s.runQueue[1..]), r);
    case HandleDone => CancelledTerminal(AfterRecord(s), r);
  }

  /** A run that is not waiting in the queue gets no new rows. */
  lemma NoNewRows(c: Config, s: State, step: Step, r: RunId)
    requires Inv(c, s) && IsCancelled(s, r)
    ensures forall t: TaskId :: t.run == r && t in Next(c, s, step).tasks ==> t in s.tasks
  {
    hide Inv, Consume, Handle, Take, Finish, CancelTasks;
    match step
    case Submit(q) =>
    case RotateRuns =>
    case ConsumeRun => ConsumeNoNewRows(c, s, r);
    case ExecutorTake => TakeFrame(s);
    case ExecutorFinish(m, ok) => FinishFrame(s, m, ok);
    case HandleDone => HandleNoNewRows(c, s);
    case ApiMarkCancelled(q) =>
    case ApiCancelTasks(q) => CancelOthers(s, q);
  }

  lemma HandleNoNewRows(c: Config, s: State)
    requires Inv(c, s)
    ensures forall t :: t in Handle(c, s).tasks ==> t in s.tasks
  {
    hide Inv, Handle;
    if s.done == [] {
      NothingDone(c, s);
    } else if s.done[0].ok {
      SuccessOthers(c, s);
    } else if ShouldRetry(s.done[0].msg.attempt, c.Spec(s.done[0].msg.task.run).MaxAttempts(s.done[0].msg.task.key)) {
      RetryOthers(c, s);
    } else {
      ExhaustedOthers(c, s);
    }
  }

  lemma ConsumeNoNewRows(c: Config, s: State, r: RunId)
    requires Inv(c, s) && IsCancelled(s, r)
    ensures forall t: TaskId :: t.run == r && t in Consume(c, s).tasks ==> t in s.tasks
  {
    hide QueueOk, RowsOk, MessagesOk, LogOk, StatusOk, CapacityOk, CleanOk, Outstanding, StartRun, SlotTasks;
    if s.runQueue != [] {
      QueuedHasNoRows(c, s);
      if s.runs[s.runQueue[0]] == RunPending {
        StartNoNewRows(c, s, r);
      }
    }
  }

  lemma StartNoNewRows(c: Config, s: State, r: RunId)
    requires Inv(c, s) && s.runQueue != [] && s.runs[s.runQueue[0]] == RunPending && r != s.runQueue[0]
    ensures forall t: TaskId :: t.run == r && t in StartRun(c, s.(runQueue := s.runQueue[1..]), s.runQueue[0]).tasks ==> t in s.tasks
  {
    hide QueueOk, RowsOk, MessagesOk, LogOk, StatusOk, CapacityOk, CleanOk, CleanExcept, Clean, Complete;
    hide ScheduleReady, InitRows, GateAccepts, SomeRow, InitialStatus, LoopFrame;
    var q := s.runQueue[0];
    var s0 := s.(runQueue := s.runQueue[1..]);
    var s2 := Started(c, s0, q);
    StartedKeeps(c, s);
    StartedOthers(c, s);
    if GateAccepts(c, TransitionRun(s0, q, RunRunning), q) {
      KnownRun(c, s, q);
      LimitAtLeastOne(c, q);
      ScheduleReadyFrame(c, s2, q, c.Spec(q).limit);
      LoopFrameOthers(s2, ScheduleReady(c, s2, q, c.Spec(q).limit), q);
    }
  }

  lemma TerminalStays(a: Rows, b: Rows, r: RunId)
    requires AllTerminal(a, r) && Settled(a, b)
    requires forall t: TaskId :: t.run == r && t in b ==> t in a
    ensures AllTerminal(b, r)
  {
  }

  /** After the first touch every row of the cancelled run is terminal, in every later state. */
  lemma {:induction false} TouchedStaysTerminal(c: Config, steps: seq<Step>, step: Step, more: seq<Step>, r: RunId)
    requires !c.external && IsCancelled(Execute(c, steps), r) && Touches(Execute(c, steps), step, r)
    ensures AllTerminal(Execute(c, steps + [step] + more).tasks, r)
    ensures IsCancelled(Execute(c, steps + [step] + more), r)
    decreases |more|
  {
    hide Next, Inv, IsCancelled, AllTerminal, Touches, Settled;
    if more == [] {
      assert steps + [step] + more == steps + [step];
      assert (steps + [step])[..|steps|] == steps;
      ReachableInv(c, steps);
      TouchMakesTerminal(c, Execute(c, steps), step, r);
      FinalRunsStay(c, Execute(c, steps), step, r);
    } else {
      var before, last := more[..|more| - 1], more[|more| - 1];
      var all := steps + [step] + more;
      assert all[..|all| - 1] == steps + [step] + before;
      TouchedStaysTerminal(c, steps, step, before, r);
      var s := Execute(c, steps + [step] + before);
      ReachableInv(c, steps + [step] + before);
      TerminalRowsStay(c, s, last);
      NoNewRows(c, s, last, r);
      TerminalStays(s.tasks, Next(c, s, last).tasks, r);
      FinalRunsStay(c, s, last, r);
    }
  }
}
