/**
 The invariant of the protocol in internal execution mode, and the proof that
 every piece of the scheduler keeps it.
*/
module Invariant {
  import opened KeyOrder
  import opened Messages
  import opened Protocol
  import opened RetryPolicy
  import opened TaskPlan

  // ----- the parts of the invariant -----

  /** A run waits in the queue exactly until it is started; until then it has no task rows. */
  ghost predicate QueueOk(c: Config, runs: Runs, tasks: Rows, runQueue: seq<RunId>) {
    && Distinct(runQueue)
    && (forall r :: r in runs ==> r in c.specs)
    && (forall r :: r in runQueue ==> r in runs && runs[r] in {RunPending, RunCancelled})
    && (forall r :: r in runs && runs[r] == RunPending ==> r in runQueue)
    && (forall t :: t in tasks ==> t.run in runs && t.run !in runQueue)
  }

  ghost predicate Complete(c: Config, tasks: Rows, r: RunId) {
    forall k :: k in c.Spec(r).plan ==> TaskId(r, k) in tasks
  }

  ghost predicate RowsOk(c: Config, tasks: Rows) {
    forall t :: t in tasks ==>
      && t.key in c.Spec(t.run).plan
      && Complete(c, tasks, t.run)
      && tasks[t].status !in {Queued, Retry}
      && (tasks[t].status == Pending ==> tasks[t].attempt == 1)
  }

  /** How a message relates to its task's row and history. */
  ghost predicate MessageOk(tasks: Rows, log: seq<Msg>, m: Msg) {
    && m.task in tasks
    && 1 <= m.attempt == |Attempts(log, m.task)|
    && (tasks[m.task].status == Cancelled || tasks[m.task] == TaskRow(Running, m.attempt))
  }

  /** No task has two messages; a RUNNING task has one, with the attempt of its row. */
  ghost predicate MessagesOk(tasks: Rows, msgs: multiset<Msg>, log: seq<Msg>) {
    && (forall m :: m in msgs ==> msgs[m] == 1 && MessageOk(tasks, log, m))
    && (forall t :: t in tasks && tasks[t].status == Running ==> Msg(t, tasks[t].attempt) in msgs)
  }

  /** A task was dispatched with attempts 1, 2, ... within its budget, and only when it was allowed to. */
  ghost predicate HistoryOk(c: Config, tasks: Rows, log: seq<Msg>, t: TaskId) {
    var n := |Attempts(log, t)|;
    && Attempts(log, t) == Upto(n)
    && (t in tasks && tasks[t].status == Success && t.key in c.Spec(t.run).Selected() ==> n > 0)
    && (n > 0 ==>
      && t in tasks && tasks[t].status != Pending
      && t.key in c.Spec(t.run).Selected()
      && n <= Budget(c.Spec(t.run).MaxAttempts(t.key))
      && DepsDone(tasks, t.run, c.Spec(t.run).Deps(t.key)))
  }

  ghost predicate Before(log: seq<Msg>, j: nat, t: TaskId) {
    exists i :: 0 <= i < j && i < |log| && log[i].task == t
  }

  ghost predicate DepsBefore(c: Config, log: seq<Msg>, j: nat)
    requires j < |log|
  {
    var spec := c.Spec(log[j].task.run);
    forall d :: d in spec.Deps(log[j].task.key) && d in spec.Selected() ==> Before(log, j, TaskId(log[j].task.run, d))
  }

  /** Every dispatch came after a dispatch of each selected task it depends on. */
  ghost predicate Ordered(c: Config, log: seq<Msg>) {
    forall j :: 0 <= j < |log| ==> DepsBefore(c, log, j)
  }

  ghost predicate LogOk(c: Config, tasks: Rows, log: seq<Msg>) {
    && (forall t :: HistoryOk(c, tasks, log, t))
    && Ordered(c, log)
  }

  ghost predicate SomeRow(c: Config, tasks: Rows, r: RunId, status: TaskStatus) {
    exists k :: k in c.Spec(r).plan && TaskId(r, k) in tasks && tasks[TaskId(r, k)].status == status
  }

  ghost predicate AllSucceeded(c: Config, tasks: Rows, r: RunId) {
    forall k :: k in c.Spec(r).plan ==> TaskId(r, k) in tasks && tasks[TaskId(r, k)].status == Success
  }

  /** What the status of a run says about its tasks. */
  ghost predicate StatusOk(c: Config, runs: Runs, tasks: Rows) {
    forall r :: r in runs ==>
      && (runs[r] in {RunRunning, RunSuccess, RunFailed} ==> Complete(c, tasks, r))
      && (runs[r] == RunSuccess ==> AllSucceeded(c, tasks, r))
      && (runs[r] == RunFailed ==> SomeRow(c, tasks, r, Failed))
  }

  /** No task failed or was cancelled, and the skipped ones count as successful. */
  ghost predicate Clean(c: Config, tasks: Rows, r: RunId) {
    forall k :: k in c.Spec(r).plan && TaskId(r, k) in tasks ==>
      && tasks[TaskId(r, k)].status !in {Failed, Cancelled}
      && (k in c.Spec(r).Skipped() ==> tasks[TaskId(r, k)].status == Success)
  }

  ghost predicate CleanOk(c: Config, runs: Runs, tasks: Rows) {
    forall r :: r in runs && runs[r] == RunRunning ==> Clean(c, tasks, r)
  }

  /** `b` bounds the limits of the project's runs; the scheduler never works with a limit below 1. */
  ghost predicate BoundsLimits(c: Config, project: string, b: int) {
    b >= 1 && forall r :: r in c.specs && c.specs[r].project == project ==> c.specs[r].limit <= b
  }

  ghost predicate LimitOk(c: Config, r: RunId, limit: int) {
    forall b :: BoundsLimits(c, c.Spec(r).project, b) ==> limit <= b
  }

  ghost predicate CapacityOk(c: Config, runs: Runs, tasks: Rows) {
    forall p, b :: BoundsLimits(c, p, b) ==> |SlotTasks(c, runs, tasks, p)| <= b
  }

  /** Everything that holds between any two pieces of a handler. */
  ghost predicate Core(c: Config, s: State) {
    && !c.external
    && QueueOk(c, s.runs, s.tasks, s.runQueue)
    && RowsOk(c, s.tasks)
    && MessagesOk(s.tasks, Outstanding(s), s.log)
    && LogOk(c, s.tasks, s.log)
    && StatusOk(c, s.runs, s.tasks)
    && CapacityOk(c, s.runs, s.tasks)
  }

  ghost predicate Inv(c: Config, s: State) {
    Core(c, s) && CleanOk(c, s.runs, s.tasks)
  }

  // ----- frame: what row updates leave alone -----

  /** Rows are only added, and terminal rows never change. */
  ghost predicate Settled(a: Rows, b: Rows) {
    forall t :: t in a ==> t in b && (Terminal(a[t].status) ==> b[t] == a[t])
  }

  lemma SettledKeepsDeps(a: Rows, b: Rows, r: RunId, deps: seq<Key>)
    requires Settled(a, b) && DepsDone(a, r, deps)
    ensures DepsDone(b, r, deps)
  {
    forall d | d in deps ensures Lookup(b, r, d).status == Success {
      assert Lookup(a, r, d).status == Success;
      assert TaskId(r, d) in a;
    }
  }

  /** Settling rows keeps the history valid as long as no dispatched task goes back to PENDING. */
  lemma SettledKeepsLog(c: Config, a: Rows, b: Rows, log: seq<Msg>)
    requires LogOk(c, a, log) && Settled(a, b)
    requires forall t :: t in a && a[t].status != Pending ==> b[t].status != Pending
    requires forall t :: t in b && b[t].status == Success ==> (t in a && a[t].status == Success) || |Attempts(log, t)| > 0
    ensures LogOk(c, b, log)
  {
    forall t ensures HistoryOk(c, b, log, t) {
      assert HistoryOk(c, a, log, t);
      if |Attempts(log, t)| > 0 {
        SettledKeepsDeps(a, b, t.run, c.Spec(t.run).Deps(t.key));
      }
    }
  }

  lemma SlotsShrink(c: Config, runs: Runs, tasks: Rows, runs': Runs, tasks': Rows)
    requires CapacityOk(c, runs, tasks)
    requires forall p :: SlotTasks(c, runs', tasks', p) <= SlotTasks(c, runs, tasks, p)
    ensures CapacityOk(c, runs', tasks')
  {
    forall p, bound | BoundsLimits(c, p, bound) ensures |SlotTasks(c, runs', tasks', p)| <= bound {
      SubsetSize(SlotTasks(c, runs', tasks', p), SlotTasks(c, runs, tasks, p));
    }
  }

  lemma SubsetSize<T>(a: set<T>, b: set<T>)
    requires a <= b
    ensures |a| <= |b|
  {
    assert b == a + (b - a);
  }

  // ----- dispatching one ready task -----

  lemma LoggedTask(log: seq<Msg>, t: TaskId)
    requires |Attempts(log, t)| > 0
    ensures Before(log, |log|, t)
  {
    var m := Msg(t, Attempts(log, t)[0]);
    LoggedIffAttempt(log, m);
    var i :| 0 <= i < |log| && log[i] == m;
  }

  lemma OrderedPush(c: Config, log: seq<Msg>, m: Msg)
    requires Ordered(c, log)
    requires forall d :: d in c.Spec(m.task.run).Deps(m.task.key) && d in c.Spec(m.task.run).Selected()
               ==> Before(log, |log|, TaskId(m.task.run, d))
    ensures Ordered(c, log + [m])
  {
    var log' := log + [m];
    forall j | 0 <= j < |log'| ensures DepsBefore(c, log', j) {
      var spec := c.Spec(log'[j].task.run);
      if j < |log| {
        assert log'[j] == log[j] && DepsBefore(c, log, j);
      }
      forall d | d in spec.Deps(log'[j].task.key) && d in spec.Selected()
        ensures Before(log', j, TaskId(log'[j].task.run, d))
      {
        var u := TaskId(log'[j].task.run, d);
        assert Before(log, j, u);
        var i :| 0 <= i < j && i < |log| && log[i].task == u;
        assert log'[i].task == u;
      }
    }
  }

  /** Successful selected dependencies have been dispatched before. */
  lemma OrderedDispatch(c: Config, tasks: Rows, log: seq<Msg>, t: TaskId)
    requires LogOk(c, tasks, log) && DepsDone(tasks, t.run, c.Spec(t.run).Deps(t.key))
    ensures Ordered(c, log + [Msg(t, 1)])
  {
    forall d | d in c.Spec(t.run).Deps(t.key) && d in c.Spec(t.run).Selected()
      ensures Before(log, |log|, TaskId(t.run, d))
    {
      assert Lookup(tasks, t.run, d).status == Success;
      assert HistoryOk(c, tasks, log, TaskId(t.run, d));
      LoggedTask(log, TaskId(t.run, d));
    }
    OrderedPush(c, log, Msg(t, 1));
  }

  /** A retry repeats an earlier dispatch. */
  lemma OrderedRetry(c: Config, log: seq<Msg>, t: TaskId, attempt: int)
    requires Ordered(c, log) && |Attempts(log, t)| > 0
    ensures Ordered(c, log + [Msg(t, attempt)])
  {
    LoggedTask(log, t);
    var i :| 0 <= i < |log| && log[i].task == t;
    assert DepsBefore(c, log, i);
    forall d | d in c.Spec(t.run).Deps(t.key) && d in c.Spec(t.run).Selected()
      ensures Before(log, |log|, TaskId(t.run, d))
    {
      assert Before(log, i, TaskId(t.run, d));
    }
    OrderedPush(c, log, Msg(t, attempt));
  }

  lemma DispatchHistory(c: Config, tasks: Rows, log: seq<Msg>, t: TaskId)
    requires LogOk(c, tasks, log)
    requires t in tasks && tasks[t] == TaskRow(Pending, 1)
    requires t.key in c.Spec(t.run).Selected() && DepsDone(tasks, t.run, c.Spec(t.run).Deps(t.key))
    ensures |Attempts(log, t)| == 0
    ensures LogOk(c, tasks[t := TaskRow(Running, 1)], log + [Msg(t, 1)])
  {
    var tasks', log' := tasks[t := TaskRow(Running, 1)], log + [Msg(t, 1)];
    AttemptsPush(log, Msg(t, 1));
    assert HistoryOk(c, tasks, log, t);
    assert Attempts(log, t) == [];
    UptoNext(0);
    OrderedDispatch(c, tasks, log, t);
    hide Ordered, Attempts;
    assert Settled(tasks, tasks');
    forall u ensures HistoryOk(c, tasks', log', u) {
      assert HistoryOk(c, tasks, log, u);
      if u == t || |Attempts(log, u)| > 0 {
        SettledKeepsDeps(tasks, tasks', u.run, c.Spec(u.run).Deps(u.key));
      }
      if u == t {
        assert Attempts(log', u) == [] + [1] == Upto(1);
      } else {
        assert Attempts(log', u) == Attempts(log, u);
      }
    }
  }

  lemma DispatchMessages(tasks: Rows, msgs: multiset<Msg>, log: seq<Msg>, t: TaskId)
    requires MessagesOk(tasks, msgs, log)
    requires t in tasks && tasks[t] == TaskRow(Pending, 1) && |Attempts(log, t)| == 0
    ensures MessagesOk(tasks[t := TaskRow(Running, 1)], msgs + multiset{Msg(t, 1)}, log + [Msg(t, 1)])
  {
    var pushed := Msg(t, 1);
    var tasks', msgs', log' := tasks[t := TaskRow(Running, 1)], msgs + multiset{pushed}, log + [pushed];
    AttemptsPush(log, pushed);
    forall m | m in msgs' ensures msgs'[m] == 1 && MessageOk(tasks', log', m) {
      if m in msgs {
        assert MessageOk(tasks, log, m);
        assert m.task != t;
      }
    }
  }

  /** The state after dispatching a PENDING task for the first time. */
  lemma DispatchPending(c: Config, s: State, t: TaskId)
    requires t in s.tasks && s.tasks[t] == TaskRow(Pending, 1)
    ensures var s' := Dispatch(c, s, t, 1);
      && s'.tasks == s.tasks[t := TaskRow(Running, 1)]
      && s'.log == s.log + [Msg(t, 1)]
      && Outstanding(s') == Outstanding(s) + multiset{Msg(t, 1)}
      && s'.runs == s.runs && s'.runQueue == s.runQueue && s'.dlq == s.dlq && s'.blocked == s.blocked
  {
    hide Outstanding, Push;
    SameOutstanding(s, Upsert(s, t, Running, 1));
    PushOutstanding(Upsert(s, t, Running, 1), c.Spec(t.run).priority, Msg(t, 1));
  }

  /** A counted dispatch takes one slot; a dispatch for a run that is not counted takes none. */
  lemma DispatchSlots(c: Config, runs: Runs, tasks: Rows, t: TaskId, p: string)
    requires !c.external
    requires t in tasks && tasks[t].status == Pending
    ensures |SlotTasks(c, runs, tasks[t := TaskRow(Running, 1)], p)|
            == |SlotTasks(c, runs, tasks, p)| + (if Counted(c, runs, t.run, p) then 1 else 0)
  {
    var tasks' := tasks[t := TaskRow(Running, 1)];
    if Counted(c, runs, t.run, p) {
      assert SlotTasks(c, runs, tasks', p) == SlotTasks(c, runs, tasks, p) + {t};
    } else {
      assert SlotTasks(c, runs, tasks', p) == SlotTasks(c, runs, tasks, p);
    }
  }

  lemma DispatchCapacity(c: Config, runs: Runs, tasks: Rows, t: TaskId, limit: int)
    requires !c.external && CapacityOk(c, runs, tasks)
    requires t in tasks && tasks[t].status == Pending
    requires |SlotTasks(c, runs, tasks, c.Spec(t.run).project)| < limit
    requires LimitOk(c, t.run, limit)
    ensures CapacityOk(c, runs, tasks[t := TaskRow(Running, 1)])
  {
    forall p, b | BoundsLimits(c, p, b) ensures |SlotTasks(c, runs, tasks[t := TaskRow(Running, 1)], p)| <= b {
      DispatchSlots(c, runs, tasks, t, p);
    }
  }

  lemma DispatchStatus(c: Config, runs: Runs, tasks: Rows, t: TaskId)
    requires StatusOk(c, runs, tasks)
    requires t in tasks && tasks[t].status == Pending
    requires t.key in c.Spec(t.run).Selected()
    ensures StatusOk(c, runs, tasks[t := TaskRow(Running, 1)])
    ensures CleanOk(c, runs, tasks) ==> CleanOk(c, runs, tasks[t := TaskRow(Running, 1)])
  {
    var tasks' := tasks[t := TaskRow(Running, 1)];
    forall r | r in runs && runs[r] == RunFailed ensures SomeRow(c, tasks', r, Failed) {
      var k :| k in c.Spec(r).plan && TaskId(r, k) in tasks && tasks[TaskId(r, k)].status == Failed;
      assert tasks'[TaskId(r, k)].status == Failed;
    }
    forall r | r in runs && runs[r] == RunSuccess ensures AllSucceeded(c, tasks', r) {
      assert AllSucceeded(c, tasks, r);
      assert t.run == r ==> TaskId(r, t.key) == t;
    }
    if CleanOk(c, runs, tasks) {
      forall r | r in runs && runs[r] == RunRunning ensures Clean(c, tasks', r) {
        assert Clean(c, tasks, r);
      }
    }
  }

  lemma DispatchRows(c: Config, runs: Runs, tasks: Rows, runQueue: seq<RunId>, t: TaskId)
    requires QueueOk(c, runs, tasks, runQueue) && RowsOk(c, tasks)
    requires t in tasks
    ensures QueueOk(c, runs, tasks[t := TaskRow(Running, 1)], runQueue)
    ensures RowsOk(c, tasks[t := TaskRow(Running, 1)])
  {
    SameKeysQueue(c, runs, tasks, tasks[t := TaskRow(Running, 1)], runQueue);
    hide QueueOk;
    var b := tasks[t := TaskRow(Running, 1)];
    forall u | u in b ensures Complete(c, b, u.run) {
      assert Complete(c, tasks, u.run);
    }
  }

  /** The queue part of the invariant depends on which rows exist only. */
  lemma SameKeysQueue(c: Config, runs: Runs, a: Rows, b: Rows, runQueue: seq<RunId>)
    requires QueueOk(c, runs, a, runQueue) && b.Keys == a.Keys
    ensures QueueOk(c, runs, b, runQueue)
  {
    forall t | t in b ensures t in a {
      assert t in b.Keys;
    }
  }

  lemma DispatchKeeps(c: Config, s: State, t: TaskId, limit: int)
    requires Core(c, s)
    requires t in s.tasks && s.tasks[t].status == Pending
    requires t.key in c.Spec(t.run).Selected() && DepsDone(s.tasks, t.run, c.Spec(t.run).Deps(t.key))
    requires SlotsUsed(c, s, c.Spec(t.run).project) < limit
    requires LimitOk(c, t.run, limit)
    ensures Core(c, Dispatch(c, s, t, 1))
    ensures CleanOk(c, s.runs, s.tasks) ==> CleanOk(c, s.runs, Dispatch(c, s, t, 1).tasks)
  {
    DispatchPending(c, s, t);
    DispatchHistory(c, s.tasks, s.log, t);
    DispatchMessages(s.tasks, Outstanding(s), s.log, t);
    DispatchRows(c, s.runs, s.tasks, s.runQueue, t);
    DispatchCapacity(c, s.runs, s.tasks, t, limit);
    DispatchStatus(c, s.runs, s.tasks, t);
  }

  // ----- the dispatch loop -----

  /** The keys still to be visited look in the current rows as they did in the snapshot. */
  ghost predicate Fresh(c: Config, tasks: Rows, r: RunId, keys: seq<Key>, rows: Rows) {
    && Distinct(keys)
    && Settled(rows, tasks)
    && forall k :: k in keys ==>
         && k in c.Spec(r).Selected()
         && TaskId(r, k) in rows && TaskId(r, k) in tasks && tasks[TaskId(r, k)] == rows[TaskId(r, k)]
  }

  /** What a handler step that only works on run `r` leaves alone. */
  ghost predicate SameQueues(s: State, s': State) {
    s'.runQueue == s.runQueue && s'.dlq == s.dlq && s'.blocked == s.blocked
  }

  lemma FreshTail(c: Config, tasks: Rows, r: RunId, keys: seq<Key>, rows: Rows)
    requires keys != [] && Fresh(c, tasks, r, keys, rows)
    ensures Fresh(c, tasks, r, keys[1..], rows)
    ensures TaskId(r, keys[0]) in tasks && Lookup(rows, r, keys[0]) == tasks[TaskId(r, keys[0])]
    ensures keys[0] in c.Spec(r).Selected() && keys[0] !in keys[1..]
  {
    assert keys[0] in keys;
  }

  lemma FreshAfterUpdate(c: Config, tasks: Rows, r: RunId, keys: seq<Key>, rows: Rows, key: Key, row: TaskRow)
    requires Fresh(c, tasks, r, keys, rows) && key !in keys
    requires TaskId(r, key) in tasks && !Terminal(tasks[TaskId(r, key)].status)
    ensures Fresh(c, tasks[TaskId(r, key) := row], r, keys, rows)
  {
    var t, tasks' := TaskId(r, key), tasks[TaskId(r, key) := row];
    forall u | u in rows ensures u in tasks' && (Terminal(rows[u].status) ==> tasks'[u] == rows[u]) {
      assert u in tasks;
      assert Terminal(rows[u].status) ==> tasks[u] == rows[u];
    }
  }

  lemma {:induction false} ScheduleLoopKeeps(
      c: Config, s: State, r: RunId, limit: int, keys: seq<Key>, rows: Rows)
    requires Core(c, s) && Fresh(c, s.tasks, r, keys, rows) && LimitOk(c, r, limit)
    ensures var (s', failed) := ScheduleLoop(c, s, r, limit, keys, rows, false);
      && !failed && Core(c, s') && s'.runs == s.runs && SameQueues(s, s')
      && (CleanOk(c, s.runs, s.tasks) ==> CleanOk(c, s.runs, s'.tasks))
    decreases keys
  {
    hide QueueOk, RowsOk, MessagesOk, LogOk, StatusOk, CapacityOk, CleanOk, Fresh, LimitOk;
    if keys != [] {
      FreshTail(c, s.tasks, r, keys, rows);
      var t := TaskId(r, keys[0]);
      if !Ready(c, rows, r, keys[0]) {
        ScheduleLoopKeeps(c, s, r, limit, keys[1..], rows);
      } else if SlotsUsed(c, s, c.Spec(r).project) < limit {
        PendingAttempt(c, s.tasks, t);
        SettledKeepsDeps(rows, s.tasks, r, c.Spec(r).Deps(keys[0]));
        DispatchKeeps(c, s, t, limit);
        DispatchPending(c, s, t);
        FreshAfterUpdate(c, s.tasks, r, keys[1..], rows, keys[0], TaskRow(Running, 1));
        ScheduleLoopKeeps(c, Dispatch(c, s, t, 1), r, limit, keys[1..], rows);
      }
    }
  }

  lemma PendingAttempt(c: Config, tasks: Rows, t: TaskId)
    requires RowsOk(c, tasks) && t in tasks && tasks[t].status == Pending
    ensures tasks[t] == TaskRow(Pending, 1)
  {
  }

  /** `_schedule_ready_tasks` for a started run that is not cancelled. */
  lemma ScheduleReadyKeeps(c: Config, s: State, r: RunId, limit: int)
    requires Core(c, s) && LimitOk(c, r, limit)
    requires !IsCancelled(s, r) && Complete(c, s.tasks, r)
    ensures var s' := ScheduleReady(c, s, r, limit);
      && Core(c, s') && s'.runs == s.runs && SameQueues(s, s')
      && (CleanOk(c, s.runs, s.tasks) ==> CleanOk(c, s.runs, s'.tasks))
    ensures ScheduleReady(c, s, r, limit)
            == ScheduleLoop(c, s, r, limit, SortedKeys(c.Spec(r).Selected()), s.tasks, false).0
  {
    hide QueueOk, RowsOk, MessagesOk, LogOk, StatusOk, CapacityOk, CleanOk, LimitOk;
    ScheduleLoopKeeps(c, s, r, limit, SortedKeys(c.Spec(r).Selected()), s.tasks);
  }

  // ----- cancelling rows -----

  lemma CancelTasksKeeps(c: Config, s: State, r: RunId)
    requires Core(c, s) && IsCancelled(s, r)
    ensures Core(c, CancelTasks(s, r, false))
    ensures CleanOk(c, s.runs, s.tasks) ==> CleanOk(c, s.runs, CancelTasks(s, r, false).tasks)
    ensures Settled(s.tasks, CancelTasks(s, r, false).tasks)
  {
    hide QueueOk, RowsOk, MessagesOk, LogOk, StatusOk, CapacityOk, CleanOk;
    var tasks' := CancelTasks(s, r, false).tasks;
    CancelTasksRows(c, s, r);
    CancelTasksMessages(s, r);
    CancelTasksLog(c, s, r);
    CancelTasksStatus(c, s, r);
    forall p ensures SlotTasks(c, s.runs, tasks', p) <= SlotTasks(c, s.runs, s.tasks, p) {}
    SlotsShrink(c, s.runs, s.tasks, s.runs, tasks');
  }

  lemma CancelTasksRows(c: Config, s: State, r: RunId)
    requires QueueOk(c, s.runs, s.tasks, s.runQueue) && RowsOk(c, s.tasks)
    ensures QueueOk(c, s.runs, CancelTasks(s, r, false).tasks, s.runQueue)
    ensures RowsOk(c, CancelTasks(s, r, false).tasks)
    ensures Settled(s.tasks, CancelTasks(s, r, false).tasks)
  {
    var tasks' := CancelTasks(s, r, false).tasks;
    assert tasks'.Keys == s.tasks.Keys;
    SameKeysQueue(c, s.runs, s.tasks, tasks', s.runQueue);
    hide QueueOk, RowsOk, Settled;
    RowsSettle(c, s.tasks, tasks');
  }

  lemma CompleteSameKeys(c: Config, a: Rows, b: Rows, r: RunId)
    requires Complete(c, a, r) && b.Keys == a.Keys
    ensures Complete(c, b, r)
  {
    forall k | k in c.Spec(r).plan ensures TaskId(r, k) in b {
      assert TaskId(r, k) in a.Keys;
    }
  }

  /** Rows that settle, or stay, keep the row part of the invariant. */
  lemma RowsSettle(c: Config, a: Rows, b: Rows)
    requires RowsOk(c, a) && b.Keys == a.Keys
    requires forall t :: t in a ==> b[t] == a[t] || (!Terminal(a[t].status) && Terminal(b[t].status))
    ensures RowsOk(c, b) && Settled(a, b)
  {
    hide Complete;
    forall t | t in b
      ensures t.key in c.Spec(t.run).plan && Complete(c, b, t.run)
      ensures b[t].status !in {Queued, Retry} && (b[t].status == Pending ==> b[t].attempt == 1)
    {
      assert t in a.Keys;
      CompleteSameKeys(c, a, b, t.run);
    }
    forall t | t in a ensures t in b && (Terminal(a[t].status) ==> b[t] == a[t]) {
      assert t in b.Keys;
    }
  }

  lemma CancelTasksMessages(s: State, r: RunId)
    requires MessagesOk(s.tasks, Outstanding(s), s.log)
    ensures var s' := CancelTasks(s, r, false); MessagesOk(s'.tasks, Outstanding(s'), s'.log)
  {
    var s' := CancelTasks(s, r, false);
    assert Outstanding(s') == Outstanding(s);
    forall m | m in Outstanding(s) ensures MessageOk(s'.tasks, s.log, m) {
      assert MessageOk(s.tasks, s.log, m);
    }
  }

  lemma CancelTasksLog(c: Config, s: State, r: RunId)
    requires LogOk(c, s.tasks, s.log)
    ensures LogOk(c, CancelTasks(s, r, false).tasks, s.log)
  {
    SettledKeepsLog(c, s.tasks, CancelTasks(s, r, false).tasks, s.log);
  }

  /** Rows of other runs are untouched, and a cancelled run promises nothing about its rows. */
  lemma CancelTasksStatus(c: Config, s: State, r: RunId)
    requires StatusOk(c, s.runs, s.tasks) && IsCancelled(s, r)
    ensures StatusOk(c, s.runs, CancelTasks(s, r, false).tasks)
    ensures CleanOk(c, s.runs, s.tasks) ==> CleanOk(c, s.runs, CancelTasks(s, r, false).tasks)
  {
    var tasks' := CancelTasks(s, r, false).tasks;
    OtherRunsStatus(c, s.runs, s.tasks, tasks', r);
  }

  ghost predicate SameElsewhere(a: Rows, b: Rows, r: RunId) {
    && (forall t :: t in a <==> t in b)
    && (forall t :: t in a && t.run != r ==> b[t] == a[t])
  }

  lemma OtherRunsStatus(c: Config, runs: Runs, a: Rows, b: Rows, r: RunId)
    requires StatusOk(c, runs, a) && SameElsewhere(a, b, r) && Settled(a, b)
    ensures StatusOk(c, runs, b)
    ensures CleanOk(c, runs, a) && (r in runs ==> runs[r] != RunRunning) ==> CleanOk(c, runs, b)
  {
    forall q | q in runs && runs[q] == RunFailed ensures SomeRow(c, b, q, Failed) {
      var k :| k in c.Spec(q).plan && TaskId(q, k) in a && a[TaskId(q, k)].status == Failed;
      assert b[TaskId(q, k)].status == Failed;
    }
    forall q | q in runs && runs[q] == RunSuccess ensures AllSucceeded(c, b, q) {
      assert AllSucceeded(c, a, q);
    }
    forall q | q in runs && runs[q] in {RunRunning, RunSuccess, RunFailed} ensures Complete(c, b, q) {
      assert Complete(c, a, q);
    }
    if CleanOk(c, runs, a) && (r in runs ==> runs[r] != RunRunning) {
      forall q | q in runs && runs[q] == RunRunning ensures Clean(c, b, q) {
        assert Clean(c, a, q);
      }
    }
  }

  // ----- settling one row -----

  /** One row without message becomes terminal: PENDING to CANCELLED, or the row of a handled message. */
  ghost predicate SettlesOne(a: Rows, b: Rows, t: TaskId) {
    && t in a && !Terminal(a[t].status)
    && exists row: TaskRow :: Terminal(row.status) && b == a[t := row]
  }

  lemma SettleOneKeeps(c: Config, a: Rows, b: Rows, t: TaskId, runs: Runs, runQueue: seq<RunId>, log: seq<Msg>)
    requires SettlesOne(a, b, t)
    requires QueueOk(c, runs, a, runQueue) && RowsOk(c, a) && LogOk(c, a, log)
    requires StatusOk(c, runs, a) && CapacityOk(c, runs, a)
    requires t in b && b[t].status == Success ==> |Attempts(log, t)| > 0
    ensures QueueOk(c, runs, b, runQueue) && RowsOk(c, b) && LogOk(c, b, log)
    ensures StatusOk(c, runs, b) && CapacityOk(c, runs, b)
    ensures Settled(a, b)
  {
    hide QueueOk, RowsOk, LogOk, StatusOk, CapacityOk;
    SettleOneRows(c, a, b, t, runs, runQueue);
    SettledKeepsLog(c, a, b, log);
    OtherRunsStatus(c, runs, a, b, t.run);
    forall p ensures SlotTasks(c, runs, b, p) <= SlotTasks(c, runs, a, p) {}
    SlotsShrink(c, runs, a, runs, b);
  }

  lemma SettleOneRows(c: Config, a: Rows, b: Rows, t: TaskId, runs: Runs, runQueue: seq<RunId>)
    requires SettlesOne(a, b, t)
    requires QueueOk(c, runs, a, runQueue) && RowsOk(c, a)
    ensures QueueOk(c, runs, b, runQueue) && RowsOk(c, b) && SameElsewhere(a, b, t.run) && Settled(a, b)
  {
    assert b.Keys == a.Keys;
    SameKeysQueue(c, runs, a, b, runQueue);
    hide QueueOk, RowsOk, Settled;
    RowsSettle(c, a, b);
  }

  /** Cancelling a PENDING task keeps everything except the cleanness of its run. */
  lemma CancelPendingKeeps(c: Config, s: State, t: TaskId)
    requires Core(c, s)
    requires t in s.tasks && s.tasks[t].status == Pending
    ensures var s' := Upsert(s, t, Cancelled, s.tasks[t].attempt);
      && Core(c, s') && s'.runs == s.runs && SameQueues(s, s') && Settled(s.tasks, s'.tasks)
      && s'.tasks == s.tasks[t := s.tasks[t].(status := Cancelled)]
      && SameElsewhere(s.tasks, s'.tasks, t.run)
  {
    hide QueueOk, RowsOk, MessagesOk, LogOk, StatusOk, CapacityOk;
    var s' := Upsert(s, t, Cancelled, s.tasks[t].attempt);
    assert SettlesOne(s.tasks, s'.tasks, t) by {
      assert s'.tasks == s.tasks[t := TaskRow(Cancelled, s.tasks[t].attempt)];
    }
    SettleOneKeeps(c, s.tasks, s'.tasks, t, s.runs, s.runQueue, s.log);
    CancelPendingMessages(s.tasks, Outstanding(s), s.log, t);
    assert Outstanding(s') == Outstanding(s);
  }

  lemma CancelPendingMessages(tasks: Rows, msgs: multiset<Msg>, log: seq<Msg>, t: TaskId)
    requires MessagesOk(tasks, msgs, log)
    requires t in tasks && tasks[t].status == Pending
    ensures MessagesOk(tasks[t := TaskRow(Cancelled, tasks[t].attempt)], msgs, log)
  {
    forall m | m in msgs ensures MessageOk(tasks[t := TaskRow(Cancelled, tasks[t].attempt)], log, m) {
      assert MessageOk(tasks, log, m);
    }
  }

  // ----- the cancellation loop and the run status -----

  lemma {:induction false} CancelBlockedKeeps(c: Config, s: State, r: RunId, keys: seq<Key>, rows: Rows)
    requires Core(c, s) && Fresh(c, s.tasks, r, keys, rows)
    ensures var s' := CancelBlocked(c, s, r, keys, rows);
      && Core(c, s') && s'.runs == s.runs && SameQueues(s, s')
      && Settled(s.tasks, s'.tasks) && SameElsewhere(s.tasks, s'.tasks, r)
    decreases keys
  {
    hide QueueOk, RowsOk, MessagesOk, LogOk, StatusOk, CapacityOk, Fresh;
    if keys != [] {
      FreshTail(c, s.tasks, r, keys, rows);
      var t := TaskId(r, keys[0]);
      if Blocked(c, rows, r, keys[0]) {
        CancelPendingKeeps(c, s, t);
        FreshAfterUpdate(c, s.tasks, r, keys[1..], rows, keys[0], s.tasks[t].(status := Cancelled));
        CancelBlockedKeeps(c, Upsert(s, t, Cancelled, s.tasks[t].attempt), r, keys[1..], rows);
      } else {
        CancelBlockedKeeps(c, s, r, keys[1..], rows);
      }
    }
  }

  lemma {:induction false} NothingBlocked(c: Config, s: State, r: RunId, keys: seq<Key>, rows: Rows)
    requires forall k :: k in keys ==> !Blocked(c, rows, r, k)
    ensures CancelBlocked(c, s, r, keys, rows) == s
    decreases keys
  {
    if keys != [] {
      assert keys[0] in keys;
      NothingBlocked(c, s, r, keys[1..], rows);
    }
  }

  lemma CleanMeansNothingBlocked(c: Config, tasks: Rows, r: RunId, k: Key)
    requires RowsOk(c, tasks) && Clean(c, tasks, r)
    ensures !Blocked(c, tasks, r, k)
  {
    forall d | d in c.Spec(r).Deps(k) ensures Lookup(tasks, r, d).status !in {Failed, Cancelled} {
      if TaskId(r, d) in tasks {
        assert d in c.Spec(r).plan;
      }
    }
  }

  ghost predicate CleanExcept(c: Config, runs: Runs, tasks: Rows, r: RunId) {
    forall q :: q in runs && q != r && runs[q] == RunRunning ==> Clean(c, tasks, q)
  }

  /** `_sync_run_status_after_task`: a run that is no longer clean stops being RUNNING. */
  lemma SyncRunKeeps(c: Config, s: State, r: RunId)
    requires Core(c, s) && CleanExcept(c, s.runs, s.tasks, r)
    requires r in s.runs && s.runs[r] != RunPending && Complete(c, s.tasks, r)
    requires s.runs[r] == RunRunning ==> Clean(c, s.tasks, r) || AnySelected(c, s.tasks, r, Failed)
    ensures Inv(c, SyncRun(c, s, r)) && SameQueues(s, SyncRun(c, s, r))
  {
    hide QueueOk, RowsOk, MessagesOk, LogOk, StatusOk, CapacityOk, CleanOk, CleanExcept, Clean;
    hide Complete, Settled, SameElsewhere, CancelBlocked, AllSelected, AnySelected;
    var s1 := CancelBlocked(c, s, r, SortedKeys(c.Spec(r).Selected()), s.tasks);
    CancelPassKeeps(c, s, r);
    if AllSelected(c, s.tasks, r, Success) {
      AllSelectedNoneFailed(c, s.tasks, r);
    }
    if c.Spec(r).Selected() != {} && AllSelected(c, s.tasks, r, Success) {
      if s.runs[r] == RunRunning {
        CompleteRun(c, s, r);
      } else {
        CleanWhenNotRunning(c, s1.runs, s1.tasks, r);
      }
    } else if AnySelected(c, s.tasks, r, Failed) {
      FailRun(c, s, s1, r);
    } else if s.runs[r] == RunRunning {
      CleanTogether(c, s.runs, s.tasks, r);
    } else {
      CleanWhenNotRunning(c, s1.runs, s1.tasks, r);
    }
  }

  /** One cancellation pass; on a clean run it does nothing. */
  lemma CancelPassKeeps(c: Config, s: State, r: RunId)
    requires Core(c, s) && CleanExcept(c, s.runs, s.tasks, r) && Complete(c, s.tasks, r)
    ensures var s1 := CancelBlocked(c, s, r, SortedKeys(c.Spec(r).Selected()), s.tasks);
      && Core(c, s1) && s1.runs == s.runs && SameQueues(s, s1) && Settled(s.tasks, s1.tasks)
      && CleanExcept(c, s1.runs, s1.tasks, r) && Complete(c, s1.tasks, r)
      && (Clean(c, s.tasks, r) ==> s1 == s)
  {
    hide QueueOk, RowsOk, MessagesOk, LogOk, StatusOk, CapacityOk, CleanOk, CleanExcept, Clean;
    var keys := SortedKeys(c.Spec(r).Selected());
    var s1 := CancelBlocked(c, s, r, keys, s.tasks);
    CancelBlockedKeeps(c, s, r, keys, s.tasks);
    CleanElsewhere(c, s.runs, s.tasks, s1.tasks, r);
    if Clean(c, s.tasks, r) {
      forall k | k in keys ensures !Blocked(c, s.tasks, r, k) {
        CleanMeansNothingBlocked(c, s.tasks, r, k);
      }
      NothingBlocked(c, s, r, keys, s.tasks);
    }
  }

  lemma AllSelectedNoneFailed(c: Config, tasks: Rows, r: RunId)
    requires AllSelected(c, tasks, r, Success)
    ensures !AnySelected(c, tasks, r, Failed)
  {
  }

  lemma CleanElsewhere(c: Config, runs: Runs, a: Rows, b: Rows, r: RunId)
    requires CleanExcept(c, runs, a, r) && SameElsewhere(a, b, r)
    ensures CleanExcept(c, runs, b, r)
  {
    forall q | q in runs && q != r && runs[q] == RunRunning ensures Clean(c, b, q) {
      assert Clean(c, a, q);
    }
  }

  lemma CleanTogether(c: Config, runs: Runs, tasks: Rows, r: RunId)
    requires CleanExcept(c, runs, tasks, r) && Clean(c, tasks, r)
    ensures CleanOk(c, runs, tasks)
  {
  }

  lemma CleanWhenNotRunning(c: Config, runs: Runs, tasks: Rows, r: RunId)
    requires CleanExcept(c, runs, tasks, r) && (r in runs ==> runs[r] != RunRunning)
    ensures CleanOk(c, runs, tasks)
  {
  }

  lemma SelectedMeansAll(c: Config, tasks: Rows, r: RunId)
    requires Clean(c, tasks, r) && Complete(c, tasks, r) && AllSelected(c, tasks, r, Success)
    ensures AllSucceeded(c, tasks, r)
  {
    forall k | k in c.Spec(r).plan ensures tasks[TaskId(r, k)].status == Success {
      assert k in c.Spec(r).Selected() || k in c.Spec(r).Skipped();
      assert k in c.Spec(r).Selected() ==> Lookup(tasks, r, k).status == Success;
    }
  }

  lemma StartedLeavesQueue(c: Config, runs: Runs, tasks: Rows, runQueue: seq<RunId>, r: RunId, to: RunStatus)
    requires QueueOk(c, runs, tasks, runQueue) && r in runs && runs[r] == RunRunning && to in {RunSuccess, RunFailed}
    ensures QueueOk(c, runs[r := to], tasks, runQueue)
  {
  }

  lemma EndedFreesSlots(c: Config, runs: Runs, tasks: Rows, r: RunId, to: RunStatus)
    requires CapacityOk(c, runs, tasks) && r in runs && to in {RunSuccess, RunFailed}
    ensures CapacityOk(c, runs[r := to], tasks)
  {
    hide CapacityOk;
    forall p ensures SlotTasks(c, runs[r := to], tasks, p) <= SlotTasks(c, runs, tasks, p) {}
    SlotsShrink(c, runs, tasks, runs[r := to], tasks);
  }

  lemma EndedExcept(c: Config, runs: Runs, tasks: Rows, r: RunId, to: RunStatus)
    requires CleanExcept(c, runs, tasks, r) && to in {RunSuccess, RunFailed}
    ensures CleanExcept(c, runs[r := to], tasks, r)
  {
  }

  lemma CompleteRun(c: Config, s: State, r: RunId)
    requires Core(c, s) && CleanExcept(c, s.runs, s.tasks, r)
    requires r in s.runs && s.runs[r] == RunRunning && Clean(c, s.tasks, r)
    requires Complete(c, s.tasks, r) && AllSelected(c, s.tasks, r, Success)
    ensures Inv(c, TransitionRun(s, r, RunSuccess))
  {
    hide RowsOk, MessagesOk, LogOk, CapacityOk, Outstanding, Clean, AllSelected, AllSucceeded, QueueOk, CleanExcept, CleanOk;
    var s' := TransitionRun(s, r, RunSuccess);
    SelectedMeansAll(c, s.tasks, r);
    SameOutstanding(s, s');
    StartedLeavesQueue(c, s.runs, s.tasks, s.runQueue, r, RunSuccess);
    EndedFreesSlots(c, s.runs, s.tasks, r, RunSuccess);
    EndedExcept(c, s.runs, s.tasks, r, RunSuccess);
    CleanWhenNotRunning(c, s'.runs, s'.tasks, r);
  }

  /** A run with a failed selected task ends up FAILED unless its status is final already. */
  lemma FailRun(c: Config, s: State, s1: State, r: RunId)
    requires Core(c, s1) && CleanExcept(c, s1.runs, s1.tasks, r)
    requires r in s1.runs && s1.runs[r] != RunPending && Complete(c, s1.tasks, r)
    requires RowsOk(c, s.tasks) && Settled(s.tasks, s1.tasks) && AnySelected(c, s.tasks, r, Failed)
    ensures Inv(c, TransitionRun(s1, r, RunFailed))
  {
    hide RowsOk, MessagesOk, LogOk, CapacityOk, Settled, Outstanding;
    var s' := TransitionRun(s1, r, RunFailed);
    if s1.runs[r] == RunRunning {
      SomeFailed(c, s.tasks, s1.tasks, r);
      SameOutstanding(s1, s');
      forall p ensures SlotTasks(c, s'.runs, s'.tasks, p) <= SlotTasks(c, s1.runs, s1.tasks, p) {}
      SlotsShrink(c, s1.runs, s1.tasks, s'.runs, s'.tasks);
      CleanWhenNotRunning(c, s'.runs, s'.tasks, r);
    } else {
      assert s' == s1;
      CleanWhenNotRunning(c, s1.runs, s1.tasks, r);
    }
  }

  lemma SomeFailed(c: Config, a: Rows, b: Rows, r: RunId)
    requires RowsOk(c, a) && Settled(a, b) && AnySelected(c, a, r, Failed)
    ensures SomeRow(c, b, r, Failed)
  {
    var k :| k in c.Spec(r).Selected() && Lookup(a, r, k).status == Failed;
    assert TaskId(r, k) in a;
    assert k in c.Spec(r).plan && b[TaskId(r, k)].status == Failed;
  }
}
