/** Every step of the protocol keeps the invariant, so it holds after any sequence of steps. */
module Safety {
  import opened Invariant
  import opened KeyOrder
  import opened Messages
  import opened Protocol
  import opened RetryPolicy
  import opened TaskPlan
  import opened Wrappers

  // ----- handling a done message -----

  /** What the invariant says about the message at the head of the done queue. */
  lemma HeadMessage(c: Config, s: State)
    requires Inv(c, s) && s.done != []
    ensures var m := s.done[0].msg; var t := m.task;
      && m in Outstanding(s) && MessageOk(s.tasks, s.log, m)
      && t in s.tasks && t.run in s.runs && t.run in c.specs && s.runs[t.run] != RunPending && Complete(c, s.tasks, t.run)
      && t.key in c.Spec(t.run).Selected()
      && m.attempt <= Budget(c.Spec(t.run).MaxAttempts(t.key))
      && (s.tasks[t].status == Cancelled ==> s.runs[t.run] != RunRunning)
  {
    hide CapacityOk;
    PopDoneOutstanding(s);
    var m := s.done[0].msg;
    assert m in Outstanding(s);
    assert HistoryOk(c, s.tasks, s.log, m.task);
    assert s.runs[m.task.run] == RunRunning ==> Clean(c, s.tasks, m.task.run);
    assert TaskId(m.task.run, m.task.key) == m.task;
  }

  lemma SettleMessages(tasks: Rows, msgs: multiset<Msg>, log: seq<Msg>, m: Msg, to: TaskStatus)
    requires MessagesOk(tasks, msgs, log) && m in msgs && Terminal(to)
    ensures MessagesOk(UpsertRow(tasks, m.task, to, m.attempt), msgs - multiset{m}, log)
  {
    var tasks' := UpsertRow(tasks, m.task, to, m.attempt);
    assert MessageOk(tasks, log, m);
    forall x | x in msgs - multiset{m} ensures msgs[x] == 1 && MessageOk(tasks', log, x) {
      assert MessageOk(tasks, log, x);
      assert x != m;
      assert x.task == m.task ==> x == m;
    }
  }

  /** The row of the popped message settles, unless it was cancelled in the meantime. */
  lemma SettleRows(
      c: Config, runs: Runs, tasks: Rows, runQueue: seq<RunId>, log: seq<Msg>, m: Msg, to: TaskStatus)
    requires QueueOk(c, runs, tasks, runQueue) && RowsOk(c, tasks) && LogOk(c, tasks, log)
    requires StatusOk(c, runs, tasks) && CapacityOk(c, runs, tasks) && CleanOk(c, runs, tasks)
    requires MessageOk(tasks, log, m) && to in {Success, Failed}
    ensures var tasks' := UpsertRow(tasks, m.task, to, m.attempt);
      && QueueOk(c, runs, tasks', runQueue) && RowsOk(c, tasks') && LogOk(c, tasks', log)
      && StatusOk(c, runs, tasks') && CapacityOk(c, runs, tasks') && CleanExcept(c, runs, tasks', m.task.run)
      && (to == Success ==> CleanOk(c, runs, tasks'))
      && Settled(tasks, tasks')
      && tasks' == if tasks[m.task].status == Running then tasks[m.task := TaskRow(to, m.attempt)] else tasks
  {
    hide QueueOk, RowsOk, LogOk, StatusOk, CapacityOk, CleanOk, CleanExcept;
    var tasks' := UpsertRow(tasks, m.task, to, m.attempt);
    CleanGivesExcept(c, runs, tasks, m.task.run);
    if tasks[m.task].status == Running {
      assert tasks' == tasks[m.task := TaskRow(to, m.attempt)];
      assert SettlesOne(tasks, tasks', m.task);
      SettleOneKeeps(c, tasks, tasks', m.task, runs, runQueue, log);
      SettleOneRows(c, tasks, tasks', m.task, runs, runQueue);
      CleanElsewhere(c, runs, tasks, tasks', m.task.run);
      if to == Success {
        SuccessStaysClean(c, runs, tasks, m.task, m.attempt);
      }
    }
  }

  lemma SettleOutstanding(c: Config, s: State, to: TaskStatus)
    requires MessagesOk(s.tasks, Outstanding(s), s.log) && s.done != [] && Terminal(to)
    ensures var m := s.done[0].msg;
      var s1 := Upsert(s.(done := s.done[1..]), m.task, to, m.attempt);
      MessagesOk(s1.tasks, Outstanding(s1), s1.log)
  {
    hide MessagesOk, Outstanding, UpsertRow;
    var m := s.done[0].msg;
    var s0 := s.(done := s.done[1..]);
    PopDoneOutstanding(s);
    SameOutstanding(s0, Upsert(s0, m.task, to, m.attempt));
    SettleMessages(s.tasks, Outstanding(s), s.log, m, to);
  }

  lemma CompleteStays(c: Config, a: Rows, b: Rows, r: RunId)
    requires Complete(c, a, r) && Settled(a, b)
    ensures Complete(c, b, r)
  {
  }

  /** The done message is popped and its row settled. */
  lemma SettleKeeps(c: Config, s: State, to: TaskStatus)
    requires Inv(c, s) && s.done != [] && to in {Success, Failed}
    ensures var m := s.done[0].msg; var t := m.task;
      var s1 := Upsert(s.(done := s.done[1..]), t, to, m.attempt);
      && Core(c, s1) && CleanExcept(c, s1.runs, s1.tasks, t.run) && Complete(c, s1.tasks, t.run)
      && Settled(s.tasks, s1.tasks)
      && (to == Success ==> CleanOk(c, s1.runs, s1.tasks))
      && (s.runs[t.run] == RunRunning ==> s1.tasks[t].status == to)
  {
    hide QueueOk, RowsOk, MessagesOk, LogOk, StatusOk, CapacityOk, CleanOk, CleanExcept, MessageOk, Complete, Settled;
    hide Outstanding, UpsertRow;
    var m := s.done[0].msg;
    HeadMessage(c, s);
    HeadRow(s, m);
    SettleOutstanding(c, s, to);
    SettleRows(c, s.runs, s.tasks, s.runQueue, s.log, m, to);
    CompleteStays(c, s.tasks, UpsertRow(s.tasks, m.task, to, m.attempt), m.task.run);
  }

  lemma HeadRow(s: State, m: Msg)
    requires MessageOk(s.tasks, s.log, m)
    ensures s.tasks[m.task].status in {Running, Cancelled}
  {
  }

  lemma CleanGivesExcept(c: Config, runs: Runs, tasks: Rows, r: RunId)
    requires CleanOk(c, runs, tasks)
    ensures CleanExcept(c, runs, tasks, r)
  {
  }

  lemma SuccessStaysClean(c: Config, runs: Runs, tasks: Rows, t: TaskId, attempt: int)
    requires CleanOk(c, runs, tasks) && t in tasks
    ensures CleanOk(c, runs, tasks[t := TaskRow(Success, attempt)])
  {
    forall r | r in runs && runs[r] == RunRunning ensures Clean(c, tasks[t := TaskRow(Success, attempt)], r) {
      assert Clean(c, tasks, r);
    }
  }

  lemma DoneSuccessKeeps(c: Config, s: State)
    requires Inv(c, s) && s.done != [] && s.done[0].ok
    ensures Inv(c, Handle(c, s))
  {
    hide QueueOk, RowsOk, MessagesOk, LogOk, StatusOk, CapacityOk, CleanOk, CleanExcept, MessageOk, Complete, Settled;
    hide ScheduleReady, SyncRun;
    var m := s.done[0].msg;
    var r := m.task.run;
    var s1 := Upsert(s.(done := s.done[1..]), m.task, Success, m.attempt);
    HeadMessage(c, s);
    SettleKeeps(c, s, Success);
    if IsCancelled(s1, r) {
      CancelTasksKeeps(c, s1, r);
    } else {
      LimitAtLeastOne(c, r);
      AfterSuccessKeeps(c, s1, r, Max(1, c.Spec(r).limit));
    }
  }

  lemma LimitAtLeastOne(c: Config, r: RunId)
    requires r in c.specs
    ensures LimitOk(c, r, Max(1, c.Spec(r).limit)) && LimitOk(c, r, c.Spec(r).limit)
  {
  }

  /** Scheduling and then synchronising a run in which nothing has failed unnoticed. */
  lemma AfterSuccessKeeps(c: Config, s: State, r: RunId, limit: int)
    requires Inv(c, s) && LimitOk(c, r, limit)
    requires r in s.runs && s.runs[r] !in {RunPending, RunCancelled} && Complete(c, s.tasks, r)
    ensures Inv(c, SyncRun(c, ScheduleReady(c, s, r, limit), r))
  {
    hide QueueOk, RowsOk, MessagesOk, LogOk, StatusOk, CapacityOk, CleanOk, CleanExcept, Complete, SyncRun, ScheduleReady;
    ScheduleReadyKeeps(c, s, r, limit);
    var s2 := ScheduleReady(c, s, r, limit);
    StartedIsComplete(c, s2.runs, s2.tasks, r);
    CleanGivesExcept(c, s2.runs, s2.tasks, r);
    RunningIsClean(c, s2.runs, s2.tasks, r);
    SyncRunKeeps(c, s2, r);
  }

  lemma StartedIsComplete(c: Config, runs: Runs, tasks: Rows, r: RunId)
    requires StatusOk(c, runs, tasks) && r in runs && runs[r] in {RunRunning, RunSuccess, RunFailed}
    ensures Complete(c, tasks, r)
  {
  }

  lemma RunningIsClean(c: Config, runs: Runs, tasks: Rows, r: RunId)
    requires CleanOk(c, runs, tasks)
    ensures r in runs && runs[r] == RunRunning ==> Clean(c, tasks, r)
  {
  }

  // ----- a failed attempt -----

  lemma ExhaustedKeeps(c: Config, s: State)
    requires Inv(c, s) && s.done != [] && !s.done[0].ok
    requires var m := s.done[0].msg; !ShouldRetry(m.attempt, c.Spec(m.task.run).MaxAttempts(m.task.key))
    ensures Inv(c, Handle(c, s))
  {
    hide QueueOk, RowsOk, MessagesOk, LogOk, StatusOk, CapacityOk, CleanOk, CleanExcept, MessageOk, Complete, Settled;
    hide SyncRun;
    var m := s.done[0].msg;
    var r := m.task.run;
    var s1 := Upsert(s.(done := s.done[1..]), m.task, Failed, m.attempt);
    HeadMessage(c, s);
    SettleKeeps(c, s, Failed);
    var s2 := s1.(dlq := s1.dlq + [m]);
    assert m == Msg(m.task, m.attempt);
    assert Outstanding(s2) == Outstanding(s1);
    if s2.runs[r] == RunRunning {
      FailedSelected(c, s2.tasks, m.task);
    }
    SyncRunKeeps(c, s2, r);
  }

  lemma FailedSelected(c: Config, tasks: Rows, t: TaskId)
    requires t in tasks && tasks[t].status == Failed && t.key in c.Spec(t.run).Selected()
    ensures AnySelected(c, tasks, t.run, Failed)
  {
    assert Lookup(tasks, t.run, t.key).status == Failed;
  }

  /** The rows after a retry was dispatched: a RUNNING row counts up, a cancelled one stays. */
  function RetriedRows(tasks: Rows, t: TaskId, attempt: int): Rows {
    if t in tasks && tasks[t].status == Running then tasks[t := TaskRow(Running, attempt)] else tasks
  }

  lemma RetryRowsShape(tasks: Rows, t: TaskId, attempt: int)
    requires t in tasks && tasks[t].status in {Running, Cancelled}
    ensures UpsertRow(UpsertRow(UpsertRow(tasks, t, Failed, attempt), t, Retry, attempt + 1), t, Running, attempt + 1)
            == RetriedRows(tasks, t, attempt + 1)
  {
  }

  /** A retried attempt, as one push on top of one row update. */
  lemma RetryIsPush(c: Config, s: State)
    requires !c.external && s.done != [] && !s.done[0].ok
    requires var m := s.done[0].msg;
      && ShouldRetry(m.attempt, c.Spec(m.task.run).MaxAttempts(m.task.key))
      && m.task in s.tasks && s.tasks[m.task].status in {Running, Cancelled}
    ensures var m := s.done[0].msg;
      Handle(c, s) == Push(s.(done := s.done[1..], tasks := RetriedRows(s.tasks, m.task, m.attempt + 1)),
                           c.Spec(m.task.run).priority, Msg(m.task, m.attempt + 1))
  {
    hide UpsertRow, RetriedRows, Push;
    RetryRowsShape(s.tasks, s.done[0].msg.task, s.done[0].msg.attempt);
  }

  lemma HeadOpen(tasks: Rows, log: seq<Msg>, m: Msg)
    requires MessageOk(tasks, log, m)
    ensures m.task in tasks && tasks[m.task].status in {Running, Cancelled}
  {
  }

  lemma RetryShape(c: Config, s: State)
    requires Inv(c, s) && s.done != [] && !s.done[0].ok
    requires var m := s.done[0].msg; ShouldRetry(m.attempt, c.Spec(m.task.run).MaxAttempts(m.task.key))
    ensures var s' := Handle(c, s); var m := s.done[0].msg; var again := Msg(m.task, m.attempt + 1);
      && s'.runs == s.runs && SameQueues(s, s')
      && s'.tasks == RetriedRows(s.tasks, m.task, m.attempt + 1)
      && s'.log == s.log + [again]
      && Outstanding(s') == Outstanding(s) - multiset{m} + multiset{again}
  {
    hide Complete, RetriedRows, Outstanding, Handle, Push;
    var m := s.done[0].msg;
    HeadMessage(c, s);
    hide Inv;
    HeadOpen(s.tasks, s.log, m);
    hide MessageOk;
    RetryIsPush(c, s);
    PushAfterPop(s, RetriedRows(s.tasks, m.task, m.attempt + 1), c.Spec(m.task.run).priority, Msg(m.task, m.attempt + 1));
  }

  /** A message is pushed in place of the one whose report was taken from the done queue. */
  lemma PushAfterPop(s: State, rows: Rows, priority: Priority, again: Msg)
    requires s.done != []
    ensures var s' := Push(s.(done := s.done[1..], tasks := rows), priority, again);
      && s'.runs == s.runs && SameQueues(s, s') && s'.tasks == rows && s'.log == s.log + [again]
      && Outstanding(s') == Outstanding(s) - multiset{s.done[0].msg} + multiset{again}
  {
    hide Outstanding, Push;
    PopDoneOutstanding(s);
    var s2 := s.(done := s.done[1..], tasks := rows);
    SameOutstanding(s.(done := s.done[1..]), s2);
    PushOutstanding(s2, priority, again);
  }

  lemma RetryMessages(tasks: Rows, msgs: multiset<Msg>, log: seq<Msg>, m: Msg)
    requires MessagesOk(tasks, msgs, log) && m in msgs
    ensures MessagesOk(RetriedRows(tasks, m.task, m.attempt + 1),
                       msgs - multiset{m} + multiset{Msg(m.task, m.attempt + 1)}, log + [Msg(m.task, m.attempt + 1)])
  {
    var again := Msg(m.task, m.attempt + 1);
    var tasks', log' := RetriedRows(tasks, m.task, m.attempt + 1), log + [again];
    var msgs' := msgs - multiset{m} + multiset{again};
    AttemptsPush(log, again);
    assert MessageOk(tasks, log, m);
    assert again in msgs ==> MessageOk(tasks, log, again);
    forall x | x in msgs' ensures msgs'[x] == 1 && MessageOk(tasks', log', x) {
      if x != again {
        assert x in msgs && MessageOk(tasks, log, x);
        assert x.task == m.task ==> x == m;
      }
    }
    forall t | t in tasks' && tasks'[t].status == Running ensures Msg(t, tasks'[t].attempt) in msgs' {
      assert t in tasks && tasks[t].status == Running;
      assert Msg(t, tasks[t].attempt) in msgs;
    }
  }

  lemma RetryHistory(c: Config, tasks: Rows, log: seq<Msg>, m: Msg)
    requires LogOk(c, tasks, log) && MessageOk(tasks, log, m)
    requires ShouldRetry(m.attempt, c.Spec(m.task.run).MaxAttempts(m.task.key))
    ensures LogOk(c, RetriedRows(tasks, m.task, m.attempt + 1), log + [Msg(m.task, m.attempt + 1)])
  {
    var again := Msg(m.task, m.attempt + 1);
    var tasks', log' := RetriedRows(tasks, m.task, m.attempt + 1), log + [again];
    AttemptsPush(log, again);
    UptoNext(m.attempt);
    OrderedRetry(c, log, m.task, m.attempt + 1);
    hide Ordered, Attempts;
    assert Settled(tasks, tasks');
    forall t ensures HistoryOk(c, tasks', log', t) {
      assert HistoryOk(c, tasks, log, t);
      if |Attempts(log, t)| > 0 {
        SettledKeepsDeps(tasks, tasks', t.run, c.Spec(t.run).Deps(t.key));
      }
    }
  }

  lemma RetryRows(c: Config, runs: Runs, tasks: Rows, runQueue: seq<RunId>, t: TaskId, attempt: int)
    requires QueueOk(c, runs, tasks, runQueue) && RowsOk(c, tasks)
    ensures QueueOk(c, runs, RetriedRows(tasks, t, attempt), runQueue)
    ensures RowsOk(c, RetriedRows(tasks, t, attempt))
  {
    var tasks' := RetriedRows(tasks, t, attempt);
    forall u | u in tasks' ensures Complete(c, tasks', u.run) {
      assert Complete(c, tasks, u.run);
    }
  }

  lemma RetryStatus(c: Config, runs: Runs, tasks: Rows, t: TaskId, attempt: int)
    requires StatusOk(c, runs, tasks) && CleanOk(c, runs, tasks)
    ensures StatusOk(c, runs, RetriedRows(tasks, t, attempt))
    ensures CleanOk(c, runs, RetriedRows(tasks, t, attempt))
  {
    var tasks' := RetriedRows(tasks, t, attempt);
    forall r | r in runs ensures Complete(c, tasks, r) ==> Complete(c, tasks', r) {}
    forall r | r in runs && runs[r] == RunFailed ensures SomeRow(c, tasks', r, Failed) {
      var k :| k in c.Spec(r).plan && TaskId(r, k) in tasks && tasks[TaskId(r, k)].status == Failed;
      assert tasks'[TaskId(r, k)].status == Failed;
    }
    forall r | r in runs && runs[r] == RunSuccess ensures AllSucceeded(c, tasks', r) {
      assert AllSucceeded(c, tasks, r);
      assert t.run == r && t in tasks && t.key in c.Spec(r).plan ==> TaskId(r, t.key) == t;
    }
    forall r | r in runs && runs[r] == RunRunning ensures Clean(c, tasks', r) {
      assert Clean(c, tasks, r);
    }
  }

  lemma RetryCapacity(c: Config, runs: Runs, tasks: Rows, t: TaskId, attempt: int)
    requires CapacityOk(c, runs, tasks)
    ensures CapacityOk(c, runs, RetriedRows(tasks, t, attempt))
  {
    hide CapacityOk;
    var tasks' := RetriedRows(tasks, t, attempt);
    forall p ensures SlotTasks(c, runs, tasks', p) <= SlotTasks(c, runs, tasks, p) {}
    SlotsShrink(c, runs, tasks, runs, tasks');
  }

  lemma RetryKeeps(c: Config, s: State)
    requires Inv(c, s) && s.done != [] && !s.done[0].ok
    requires var m := s.done[0].msg; ShouldRetry(m.attempt, c.Spec(m.task.run).MaxAttempts(m.task.key))
    ensures Inv(c, Handle(c, s))
  {
    hide QueueOk, RowsOk, MessagesOk, LogOk, StatusOk, CapacityOk, CleanOk, MessageOk, Complete, RetriedRows, Handle;
    var m := s.done[0].msg;
    HeadMessage(c, s);
    RetryShape(c, s);
    RetryMessages(s.tasks, Outstanding(s), s.log, m);
    RetryHistory(c, s.tasks, s.log, m);
    RetryRows(c, s.runs, s.tasks, s.runQueue, m.task, m.attempt + 1);
    RetryStatus(c, s.runs, s.tasks, m.task, m.attempt + 1);
    RetryCapacity(c, s.runs, s.tasks, m.task, m.attempt + 1);
  }

  lemma HandleKeeps(c: Config, s: State)
    requires Inv(c, s)
    ensures Inv(c, Handle(c, s))
  {
    hide Core, CleanOk;
    if s.done != [] {
      var m := s.done[0].msg;
      if s.done[0].ok {
        DoneSuccessKeeps(c, s);
      } else if ShouldRetry(m.attempt, c.Spec(m.task.run).MaxAttempts(m.task.key)) {
        RetryKeeps(c, s);
      } else {
        ExhaustedKeeps(c, s);
      }
    }
  }

  // ----- starting a run -----

  /** The rows a starting run is given. */
  ghost function StartRows(c: Config, s0: State, rows: Rows, r: RunId, keys: set<Key>): Rows {
    rows + map t | t in (set k | k in keys :: TaskId(r, k)) :: TaskRow(InitialStatus(c, s0, r, t.key), 1)
  }

  lemma StartRowsStep(c: Config, s0: State, rows: Rows, r: RunId, key: Key, keys: set<Key>)
    requires key !in keys
    ensures StartRows(c, s0, rows[TaskId(r, key) := TaskRow(InitialStatus(c, s0, r, key), 1)], r, keys)
            == StartRows(c, s0, rows, r, {key} + keys)
  {
    var a := StartRows(c, s0, rows[TaskId(r, key) := TaskRow(InitialStatus(c, s0, r, key), 1)], r, keys);
    var b := StartRows(c, s0, rows, r, {key} + keys);
    forall t ensures t in a <==> t in b {}
    forall t | t in a ensures a[t] == b[t] {}
  }

  lemma StartRowsNone(c: Config, s0: State, rows: Rows, r: RunId)
    ensures StartRows(c, s0, rows, r, {}) == rows
  {
  }

  lemma InitRowOfFresh(c: Config, s0: State, s: State, r: RunId, key: Key)
    requires TaskId(r, key) !in s.tasks
    ensures var s' := InitRow(c, s0, s, r, key);
      && s'.tasks == s.tasks[TaskId(r, key) := TaskRow(InitialStatus(c, s0, r, key), 1)]
      && s' == s.(tasks := s'.tasks, blocked := s'.blocked)
  {
    hide InitialStatus, Refusal;
  }

  /** Without earlier rows the initialisation loop gives every task of the plan its initial status. */
  lemma {:induction false} InitRowsShape(c: Config, s0: State, s: State, r: RunId, keys: seq<Key>)
    requires Distinct(keys)
    requires forall k :: k in keys ==> TaskId(r, k) !in s.tasks
    ensures var s' := InitRows(c, s0, s, r, keys);
      && s'.tasks == StartRows(c, s0, s.tasks, r, set k | k in keys)
      && s' == s.(tasks := s'.tasks, blocked := s'.blocked)
    decreases keys
  {
    hide StartRows, Refusal, InitialStatus;
    if keys == [] {
      assert (set k | k in keys) == {};
      StartRowsNone(c, s0, s.tasks, r);
    } else {
      var key := keys[0];
      var s1 := InitRow(c, s0, s, r, key);
      assert keys == [key] + keys[1..];
      InitRowOfFresh(c, s0, s, r, key);
      hide InitRow;
      InitRowsShape(c, s0, s1, r, keys[1..]);
      StartRowsStep(c, s0, s.tasks, r, key, set k | k in keys[1..]);
      assert (set k | k in keys) == {key} + (set k | k in keys[1..]);
    }
  }

  /** The state in which the first dispatches of a run are decided. */
  ghost function Started(c: Config, s: State, r: RunId): State {
    var s1 := TransitionRun(s, r, RunRunning);
    InitRows(c, s1, s1, r, SortedKeys(c.Spec(r).plan.Keys))
  }

  lemma StartedShape(c: Config, s: State, r: RunId)
    requires forall k :: TaskId(r, k) !in s.tasks
    ensures var s1 := TransitionRun(s, r, RunRunning); var s2 := Started(c, s, r);
      && s2.tasks == StartRows(c, s1, s.tasks, r, c.Spec(r).plan.Keys)
      && s2 == s1.(tasks := s2.tasks, blocked := s2.blocked)
  {
    hide InitRows, StartRows;
    var s1 := TransitionRun(s, r, RunRunning);
    var keys := SortedKeys(c.Spec(r).plan.Keys);
    assert (set k | k in keys) == c.Spec(r).plan.Keys;
    InitRowsShape(c, s1, s1, r, keys);
  }

  lemma StartRowsAre(c: Config, s0: State, tasks: Rows, r: RunId)
    requires forall k :: TaskId(r, k) !in tasks
    ensures var b := StartRows(c, s0, tasks, r, c.Spec(r).plan.Keys);
      && (forall t :: t in tasks ==> t in b && b[t] == tasks[t])
      && (forall t :: t in b && t.run != r ==> t in tasks && b[t] == tasks[t])
      && (forall t :: t in b && t.run == r ==> t.key in c.Spec(r).plan)
      && (forall k :: k in c.Spec(r).plan ==>
           TaskId(r, k) in b && b[TaskId(r, k)] == TaskRow(InitialStatus(c, s0, r, k), 1))
  {
    hide InitialStatus;
    var b := StartRows(c, s0, tasks, r, c.Spec(r).plan.Keys);
    var ids := set k | k in c.Spec(r).plan.Keys :: TaskId(r, k);
    forall t | t in tasks ensures t in b && b[t] == tasks[t] {
      assert t == TaskId(t.run, t.key);
    }
    forall k | k in c.Spec(r).plan ensures TaskId(r, k) in b && b[TaskId(r, k)] == TaskRow(InitialStatus(c, s0, r, k), 1) {
      assert TaskId(r, k) in ids;
    }
  }

  lemma StartRowsOk(c: Config, s0: State, tasks: Rows, r: RunId)
    requires RowsOk(c, tasks) && forall k :: TaskId(r, k) !in tasks
    ensures var b := StartRows(c, s0, tasks, r, c.Spec(r).plan.Keys);
      && RowsOk(c, b) && Settled(tasks, b) && Complete(c, b, r)
      && (forall t :: t in b && t.run != r ==> t in tasks && b[t] == tasks[t])
      && (forall k :: k in c.Spec(r).plan ==> b[TaskId(r, k)] == TaskRow(InitialStatus(c, s0, r, k), 1))
      && (forall t :: t in b && t.run == r && b[t].status == Success ==> t.key !in c.Spec(r).Selected())
      && (forall t :: t in b && b[t].status == Running ==> t in tasks && b[t] == tasks[t])
  {
    StartRowsAre(c, s0, tasks, r);
    hide StartRows;
    var b := StartRows(c, s0, tasks, r, c.Spec(r).plan.Keys);
    forall t | t in b && t.run == r ensures b[t] == TaskRow(InitialStatus(c, s0, r, t.key), 1) {
      assert t == TaskId(r, t.key);
    }
    AddedRowsOk(c, tasks, b, r);
  }

  /** Rows of other runs stay, and every task of run `r` gets a row with a first status. */
  lemma AddedRowsOk(c: Config, tasks: Rows, b: Rows, r: RunId)
    requires RowsOk(c, tasks) && forall k :: TaskId(r, k) !in tasks
    requires forall t :: t in tasks ==> t in b && b[t] == tasks[t]
    requires forall t :: t in b && t.run != r ==> t in tasks && b[t] == tasks[t]
    requires forall t :: t in b && t.run == r ==>
               t.key in c.Spec(r).plan && b[t].attempt == 1 && b[t].status in {Pending, Success, Failed}
    requires forall k :: k in c.Spec(r).plan ==> TaskId(r, k) in b
    ensures RowsOk(c, b) && Complete(c, b, r)
  {
    forall t | t in b ensures Complete(c, b, t.run) {
      if t.run != r {
        assert t in tasks && Complete(c, tasks, t.run);
      }
    }
  }

  lemma NoHistoryYet(c: Config, tasks: Rows, log: seq<Msg>, r: RunId)
    requires LogOk(c, tasks, log) && forall k :: TaskId(r, k) !in tasks
    ensures forall k :: |Attempts(log, TaskId(r, k))| == 0
  {
    forall k ensures |Attempts(log, TaskId(r, k))| == 0 {
      assert HistoryOk(c, tasks, log, TaskId(r, k));
    }
  }

  lemma StartLog(c: Config, a: Rows, b: Rows, log: seq<Msg>, r: RunId)
    requires LogOk(c, a, log) && Settled(a, b) && forall k :: TaskId(r, k) !in a
    requires forall t :: t in b && t.run != r ==> t in a && b[t] == a[t]
    requires forall t :: t in b && t.run == r && b[t].status == Success ==> t.key !in c.Spec(r).Selected()
    ensures LogOk(c, b, log)
  {
    NoHistoryYet(c, a, log, r);
    forall t ensures HistoryOk(c, b, log, t) {
      assert HistoryOk(c, a, log, t);
      assert t == TaskId(t.run, t.key);
      if |Attempts(log, t)| > 0 {
        SettledKeepsDeps(a, b, t.run, c.Spec(t.run).Deps(t.key));
      }
    }
  }

  lemma StartMessages(a: Rows, b: Rows, msgs: multiset<Msg>, log: seq<Msg>, r: RunId)
    requires MessagesOk(a, msgs, log)
    requires forall t :: t in a && t.run != r ==> t in b && b[t] == a[t]
    requires forall k :: TaskId(r, k) !in a
    requires forall t :: t in b && b[t].status == Running ==> t in a && b[t] == a[t]
    ensures MessagesOk(b, msgs, log)
  {
    forall m | m in msgs ensures MessageOk(b, log, m) {
      assert MessageOk(a, log, m);
      assert m.task == TaskId(m.task.run, m.task.key);
    }
  }

  lemma StartStatus(c: Config, runs: Runs, a: Rows, b: Rows, r: RunId)
    requires StatusOk(c, runs, a) && CleanOk(c, runs, a) && r in runs && runs[r] == RunPending
    requires Settled(a, b) && Complete(c, b, r)
    requires forall t :: t in b && t.run != r ==> t in a && b[t] == a[t]
    ensures StatusOk(c, runs[r := RunRunning], b)
    ensures CleanExcept(c, runs[r := RunRunning], b, r)
  {
    var runs' := runs[r := RunRunning];
    forall q | q in runs' && runs'[q] in {RunRunning, RunSuccess, RunFailed} ensures Complete(c, b, q) {
      assert q != r ==> Complete(c, a, q);
    }
    forall q | q in runs' && runs'[q] == RunFailed ensures SomeRow(c, b, q, Failed) {
      var k :| k in c.Spec(q).plan && TaskId(q, k) in a && a[TaskId(q, k)].status == Failed;
      assert b[TaskId(q, k)].status == Failed;
    }
    forall q | q in runs' && runs'[q] == RunSuccess ensures AllSucceeded(c, b, q) {
      assert AllSucceeded(c, a, q);
    }
    forall q | q in runs' && q != r && runs'[q] == RunRunning ensures Clean(c, b, q) {
      assert Clean(c, a, q);
    }
  }

  lemma StartCapacity(c: Config, runs: Runs, a: Rows, b: Rows, r: RunId)
    requires CapacityOk(c, runs, a) && !c.external && r in runs && runs[r] == RunPending
    requires forall t :: t in b && b[t].status == Running ==> t in a && b[t] == a[t]
    ensures CapacityOk(c, runs[r := RunRunning], b)
  {
    hide CapacityOk;
    var runs' := runs[r := RunRunning];
    forall p ensures SlotTasks(c, runs', b, p) <= SlotTasks(c, runs, a, p) {}
    SlotsShrink(c, runs, a, runs', b);
  }

  lemma PopQueue(c: Config, runs: Runs, a: Rows, b: Rows, runQueue: seq<RunId>)
    requires QueueOk(c, runs, a, runQueue) && runQueue != [] && runs[runQueue[0]] == RunPending
    requires forall t :: t in b && t.run != runQueue[0] ==> t in a
    ensures QueueOk(c, runs[runQueue[0] := RunRunning], b, runQueue[1..])
  {
    assert runQueue == [runQueue[0]] + runQueue[1..];
  }

  /** A run that leaves the queue has no task rows. */
  lemma QueuedHasNoRows(c: Config, s: State)
    requires QueueOk(c, s.runs, s.tasks, s.runQueue) && s.runQueue != []
    ensures s.runQueue[0] in s.runs && s.runs[s.runQueue[0]] in {RunPending, RunCancelled}
    ensures forall k :: TaskId(s.runQueue[0], k) !in s.tasks
  {
    assert s.runQueue[0] in s.runQueue;
    forall k ensures TaskId(s.runQueue[0], k) !in s.tasks {
      assert TaskId(s.runQueue[0], k).run in s.runQueue;
    }
  }

  lemma StartedKeeps(c: Config, s: State)
    requires Inv(c, s) && s.runQueue != [] && s.runs[s.runQueue[0]] == RunPending
    ensures var r := s.runQueue[0]; var s2 := Started(c, s.(runQueue := s.runQueue[1..]), r);
      && Core(c, s2) && CleanExcept(c, s2.runs, s2.tasks, r) && Complete(c, s2.tasks, r)
      && s2.runs == s.runs[r := RunRunning] && s2.log == s.log
      && (forall k :: k in c.Spec(r).plan ==>
           s2.tasks[TaskId(r, k)] == TaskRow(InitialStatus(c, TransitionRun(s.(runQueue := s.runQueue[1..]), r, RunRunning), r, k), 1))
  {
    hide QueueOk, RowsOk, MessagesOk, LogOk, StatusOk, CapacityOk, CleanOk, CleanExcept, Settled, StartRows, Started;
    var r := s.runQueue[0];
    var s0 := s.(runQueue := s.runQueue[1..]);
    var s1 := TransitionRun(s0, r, RunRunning);
    var s2 := Started(c, s0, r);
    QueuedHasNoRows(c, s);
    StartedShape(c, s0, r);
    StartRowsOk(c, s1, s.tasks, r);
    StartLog(c, s.tasks, s2.tasks, s.log, r);
    StartedMessages(c, s, s2, r);
    StartStatus(c, s.runs, s.tasks, s2.tasks, r);
    StartCapacity(c, s.runs, s.tasks, s2.tasks, r);
    PopQueue(c, s.runs, s.tasks, s2.tasks, s.runQueue);
  }

  lemma StartedMessages(c: Config, s: State, s2: State, r: RunId)
    requires MessagesOk(s.tasks, Outstanding(s), s.log) && s2.log == s.log
    requires s2.high == s.high && s2.normal == s.normal && s2.low == s.low
    requires s2.inFlight == s.inFlight && s2.done == s.done
    requires Settled(s.tasks, s2.tasks) && forall k :: TaskId(r, k) !in s.tasks
    requires forall t :: t in s2.tasks && t.run != r ==> t in s.tasks && s2.tasks[t] == s.tasks[t]
    requires forall t :: t in s2.tasks && s2.tasks[t].status == Running ==> t in s.tasks && s2.tasks[t] == s.tasks[t]
    ensures MessagesOk(s2.tasks, Outstanding(s2), s2.log)
  {
    hide MessagesOk, Outstanding;
    SameOutstanding(s, s2);
    StartMessages(s.tasks, s2.tasks, Outstanding(s), s.log, r);
  }

  lemma AcceptedIsClean(c: Config, s1: State, tasks: Rows, r: RunId)
    requires forall k :: k in c.Spec(r).plan ==>
               TaskId(r, k) in tasks && tasks[TaskId(r, k)] == TaskRow(InitialStatus(c, s1, r, k), 1)
    requires GateAccepts(c, s1, r)
    ensures Clean(c, tasks, r)
  {
    forall k | k in c.Spec(r).plan && k in c.Spec(r).Skipped() ensures InitialStatus(c, s1, r, k) == Success {}
    forall k | k in c.Spec(r).plan ensures InitialStatus(c, s1, r, k) != Failed {
      assert k in c.Spec(r).Selected() || k in c.Spec(r).Skipped();
    }
  }

  lemma RefusedHasFailed(c: Config, s1: State, tasks: Rows, r: RunId)
    requires forall k :: k in c.Spec(r).plan ==>
               TaskId(r, k) in tasks && tasks[TaskId(r, k)] == TaskRow(InitialStatus(c, s1, r, k), 1)
    requires !GateAccepts(c, s1, r)
    ensures SomeRow(c, tasks, r, Failed)
  {
    var k :| k in c.Spec(r).Skipped() && Refusal(c, s1, r, k).Some?;
    assert tasks[TaskId(r, k)].status == Failed;
  }

  lemma RefuseKeeps(c: Config, s: State, r: RunId)
    requires Core(c, s) && CleanExcept(c, s.runs, s.tasks, r)
    requires r in s.runs && s.runs[r] == RunRunning && SomeRow(c, s.tasks, r, Failed) && Complete(c, s.tasks, r)
    ensures Inv(c, TransitionRun(s, r, RunFailed))
  {
    hide RowsOk, MessagesOk, LogOk, CapacityOk, Outstanding;
    var s' := TransitionRun(s, r, RunFailed);
    SameOutstanding(s, s');
    forall p ensures SlotTasks(c, s'.runs, s'.tasks, p) <= SlotTasks(c, s.runs, s.tasks, p) {}
    SlotsShrink(c, s.runs, s.tasks, s'.runs, s'.tasks);
    CleanWhenNotRunning(c, s'.runs, s'.tasks, r);
  }

  lemma StartRunKeeps(c: Config, s: State)
    requires Inv(c, s) && s.runQueue != [] && s.runs[s.runQueue[0]] == RunPending
    ensures Inv(c, StartRun(c, s.(runQueue := s.runQueue[1..]), s.runQueue[0]))
  {
    hide QueueOk, RowsOk, MessagesOk, LogOk, StatusOk, CapacityOk, CleanOk, CleanExcept, Clean, Complete;
    hide ScheduleReady, InitRows, GateAccepts, SomeRow, InitialStatus;
    var r := s.runQueue[0];
    var s0 := s.(runQueue := s.runQueue[1..]);
    var s1 := TransitionRun(s0, r, RunRunning);
    var s2 := Started(c, s0, r);
    StartedKeeps(c, s);
    CompleteRows(c, s2.tasks, r);
    if GateAccepts(c, s1, r) {
      AcceptedIsClean(c, s1, s2.tasks, r);
      CleanTogether(c, s2.runs, s2.tasks, r);
      KnownRun(c, s, r);
      LimitAtLeastOne(c, r);
      ScheduleReadyKeeps(c, s2, r, c.Spec(r).limit);
    } else {
      RefusedHasFailed(c, s1, s2.tasks, r);
      RefuseKeeps(c, s2, r);
    }
  }

  lemma CompleteRows(c: Config, tasks: Rows, r: RunId)
    requires Complete(c, tasks, r)
    ensures forall k :: k in c.Spec(r).plan ==> TaskId(r, k) in tasks
  {
  }

  lemma KnownRun(c: Config, s: State, r: RunId)
    requires QueueOk(c, s.runs, s.tasks, s.runQueue) && r in s.runQueue
    ensures r in c.specs
  {
  }

  // ----- the other steps -----

  lemma RotatedQueue(c: Config, runs: Runs, tasks: Rows, runQueue: seq<RunId>)
    requires QueueOk(c, runs, tasks, runQueue) && runQueue != []
    ensures QueueOk(c, runs, tasks, runQueue[1..] + [runQueue[0]])
  {
    var q := runQueue[1..] + [runQueue[0]];
    assert runQueue == [runQueue[0]] + runQueue[1..];
    assert forall r :: r in q <==> r in runQueue;
  }

  lemma RotateKeeps(c: Config, s: State)
    requires Inv(c, s)
    ensures Inv(c, Rotate(s))
  {
    hide QueueOk, RowsOk, MessagesOk, LogOk, StatusOk, CapacityOk, CleanOk, Outstanding;
    if s.runQueue != [] {
      RotatedQueue(c, s.runs, s.tasks, s.runQueue);
      SameOutstanding(s, Rotate(s));
    }
  }

  /** A run cancelled before it started is dropped from the queue. */
  lemma DropCancelledKeeps(c: Config, s: State)
    requires Inv(c, s) && s.runQueue != [] && IsCancelled(s, s.runQueue[0])
    ensures Inv(c, CancelTasks(s.(runQueue := s.runQueue[1..]), s.runQueue[0], false))
  {
    hide RowsOk, MessagesOk, LogOk, StatusOk, CapacityOk, CleanOk, Outstanding;
    var s0 := s.(runQueue := s.runQueue[1..]);
    assert s.runQueue == [s.runQueue[0]] + s0.runQueue;
    SameOutstanding(s, s0);
    hide QueueOk;
    CancelTasksKeeps(c, s0, s.runQueue[0]);
  }

  lemma ConsumeKeeps(c: Config, s: State)
    requires Inv(c, s)
    ensures Inv(c, Consume(c, s))
  {
    hide QueueOk, RowsOk, MessagesOk, LogOk, StatusOk, CapacityOk, CleanOk, Outstanding, StartRun, CancelTasks;
    if s.runQueue != [] {
      var r := s.runQueue[0];
      var s0 := s.(runQueue := s.runQueue[1..]);
      QueuedHasNoRows(c, s);
      if IsCancelled(s0, r) {
        DropCancelledKeeps(c, s);
      } else if SlotsUsed(c, s0, c.Spec(r).project) >= c.Spec(r).limit {
        RotateKeeps(c, s);
      } else {
        StartRunKeeps(c, s);
      }
    }
  }

  lemma SubmitKeeps(c: Config, s: State, r: RunId)
    requires Inv(c, s)
    ensures Inv(c, SubmitRun(c, s, r))
  {
    hide RowsOk, MessagesOk, LogOk, CapacityOk, Outstanding;
    var s' := SubmitRun(c, s, r);
    if s' != s {
      SameOutstanding(s, s');
      forall p ensures SlotTasks(c, s'.runs, s'.tasks, p) <= SlotTasks(c, s.runs, s.tasks, p) {}
      SlotsShrink(c, s.runs, s.tasks, s'.runs, s'.tasks);
    }
  }

  lemma MessageMoveKeeps(c: Config, s: State, s': State)
    requires Inv(c, s) && Outstanding(s') == Outstanding(s)
    requires SameDatabase(s, s') && s'.log == s.log
    ensures Inv(c, s')
  {
  }

  lemma MarkCancelledRuns(c: Config, runs: Runs, tasks: Rows, runQueue: seq<RunId>, r: RunId)
    requires QueueOk(c, runs, tasks, runQueue) && StatusOk(c, runs, tasks) && CleanOk(c, runs, tasks)
    requires CapacityOk(c, runs, tasks) && r in runs
    ensures var runs' := runs[r := RunCancelled];
      && QueueOk(c, runs', tasks, runQueue) && StatusOk(c, runs', tasks) && CleanOk(c, runs', tasks)
      && CapacityOk(c, runs', tasks)
  {
    hide CapacityOk, Clean, Complete, AllSucceeded, SomeRow;
    var runs' := runs[r := RunCancelled];
    forall p ensures SlotTasks(c, runs', tasks, p) <= SlotTasks(c, runs, tasks, p) {}
    SlotsShrink(c, runs, tasks, runs', tasks);
  }

  lemma MarkCancelledKeeps(c: Config, s: State, r: RunId)
    requires Inv(c, s)
    ensures Inv(c, MarkCancelled(s, r))
  {
    hide QueueOk, RowsOk, MessagesOk, LogOk, StatusOk, CapacityOk, CleanOk, Outstanding;
    if r in s.runs {
      SameOutstanding(s, MarkCancelled(s, r));
      MarkCancelledRuns(c, s.runs, s.tasks, s.runQueue, r);
    }
  }

  lemma TakeKeeps(c: Config, s: State)
    requires Inv(c, s)
    ensures Inv(c, Take(s))
  {
    hide Inv, Outstanding, Take;
    TakeOutstanding(s);
    TakeFrame(s);
    MessageMoveKeeps(c, s, Take(s));
  }

  lemma FinishKeeps(c: Config, s: State, m: Msg, ok: bool)
    requires Inv(c, s)
    ensures Inv(c, Finish(s, m, ok))
  {
    hide Inv, Outstanding, Finish;
    FinishOutstanding(s, m, ok);
    FinishFrame(s, m, ok);
    MessageMoveKeeps(c, s, Finish(s, m, ok));
  }

  /** Every step keeps the invariant. */
  lemma NextKeeps(c: Config, s: State, step: Step)
    requires Inv(c, s)
    ensures Inv(c, Next(c, s, step))
  {
    hide Inv, SubmitRun, Rotate, Consume, Take, Finish, Handle, MarkCancelled, FinishCancel;
    match step
    case Submit(r) => SubmitKeeps(c, s, r);
    case RotateRuns => RotateKeeps(c, s);
    case ConsumeRun => ConsumeKeeps(c, s);
    case ExecutorTake => TakeKeeps(c, s);
    case ExecutorFinish(m, ok) => FinishKeeps(c, s, m, ok);
    case HandleDone => HandleKeeps(c, s);
    case ApiMarkCancelled(r) => MarkCancelledKeeps(c, s, r);
    case ApiCancelTasks(r) => CancelKeeps(c, s, r);
  }

  lemma CancelKeeps(c: Config, s: State, r: RunId)
    requires Inv(c, s)
    ensures Inv(c, FinishCancel(s, r))
  {
    hide QueueOk, RowsOk, MessagesOk, LogOk, StatusOk, CapacityOk, CleanOk;
    if IsCancelled(s, r) {
      CancelTasksKeeps(c, s, r);
    }
  }

  lemma InitialInv(c: Config)
    requires !c.external
    ensures Inv(c, INITIAL)
  {
    forall p ensures SlotTasks(c, INITIAL.runs, INITIAL.tasks, p) == {} {}
    assert Outstanding(INITIAL) == multiset{};
  }

  /** The invariant holds in every reachable state. */
  lemma {:induction false} ReachableInv(c: Config, steps: seq<Step>)
    requires !c.external
    ensures Inv(c, Execute(c, steps))
  {
    hide Inv;
    if steps == [] {
      InitialInv(c);
    } else {
      ReachableInv(c, steps[..|steps| - 1]);
      NextKeeps(c, Execute(c, steps[..|steps| - 1]), steps[|steps| - 1]);
    }
  }
}
