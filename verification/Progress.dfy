/**
 No run is stranded: a RUNNING run with an executable plan always has a task under
 way, if the runs of its project have one limit; and the exact condition under which
 the handler of a done message leaves its run without one.
*/
module Progress {
  import opened Invariant
  import opened KeyOrder
  import opened Messages
  import opened Protocol
  import opened RetryPolicy
  import opened Safety

  /** The dependencies of the selected tasks are tasks of the plan and form no cycle among the selected ones. */
  ghost predicate Executable(c: Config, r: RunId) {
    var spec := c.Spec(r);
    && (forall k, d :: k in spec.Selected() && d in spec.Deps(k) ==> d in spec.plan)
    && exists rank: map<Key, nat> :: Ranks(spec, rank)
  }

  ghost predicate Ranks(spec: RunSpec, rank: map<Key, nat>) {
    && spec.Selected() <= rank.Keys
    && forall k, d :: k in spec.Selected() && d in spec.Deps(k) && d in spec.Selected() ==> rank[d] < rank[k]
  }

  /** An executable run with at least one task, as every built plan has. */
  ghost predicate Planned(c: Config, r: RunId) {
    Executable(c, r) && c.Spec(r).plan.Keys != {}
  }

  /** All runs of a project have one limit, at least 1. */
  ghost predicate OneLimit(c: Config, project: string) {
    && (forall r :: r in c.specs && c.specs[r].project == project ==> c.specs[r].limit >= 1)
    && (forall r, q :: r in c.specs && q in c.specs && c.specs[r].project == project && c.specs[q].project == project
          ==> c.specs[r].limit == c.specs[q].limit)
  }

  /** A RUNNING run without a RUNNING task: no message of it will ever be handled again. */
  ghost predicate Stranded(c: Config, runs: Runs, tasks: Rows, r: RunId) {
    r in runs && runs[r] == RunRunning && !SomeRow(c, tasks, r, Running)
  }

  // ----- rows that stay -----

  /** Rows of other runs are untouched and RUNNING rows stay RUNNING. */
  ghost predicate KeepsRunning(a: Rows, b: Rows, r: RunId) {
    && SameElsewhere(a, b, r)
    && (forall t :: t in a && a[t].status == Running ==> b[t].status == Running)
  }

  /** What one dispatch loop does to rows and messages. */
  ghost predicate LoopFrame(s: State, s': State, r: RunId) {
    && KeepsRunning(s.tasks, s'.tasks, r)
    && s'.runs == s.runs && s'.done == s.done && s'.inFlight == s.inFlight && s'.runQueue == s.runQueue
    && QueueLength(s') - QueueLength(s) == |s'.log| - |s.log|
    && |s.log| <= |s'.log|
    && Settled(s.tasks, s'.tasks)
    && SameHistoryElsewhere(s.log, s'.log, r)
  }

  /** Nothing was dispatched for runs other than `r`. */
  ghost predicate SameHistoryElsewhere(a: seq<Msg>, b: seq<Msg>, r: RunId) {
    forall t: TaskId :: t.run != r ==> Attempts(b, t) == Attempts(a, t)
  }

  function QueueLength(s: State): nat {
    |s.high| + |s.normal| + |s.low|
  }

  lemma DispatchFrame(c: Config, s: State, t: TaskId)
    requires t in s.tasks && s.tasks[t] == TaskRow(Pending, 1)
    ensures LoopFrame(s, Dispatch(c, s, t, 1), t.run)
  {
    hide Attempts, Outstanding, Push;
    AttemptsPush(s.log, Msg(t, 1));
    DispatchPending(c, s, t);
    PushLength(Upsert(s, t, Running, 1), c.Spec(t.run).priority, Msg(t, 1));
  }

  lemma PushLength(s: State, priority: Priority, m: Msg)
    ensures var s' := Push(s, priority, m);
      QueueLength(s') == QueueLength(s) + 1 && s'.inFlight == s.inFlight && s'.done == s.done
  {
  }

  lemma {:induction false} ScheduleLoopFrame(
      c: Config, s: State, r: RunId, limit: int, keys: seq<Key>, rows: Rows)
    requires !c.external && Fresh(c, s.tasks, r, keys, rows) && RowsOk(c, rows)
    ensures LoopFrame(s, ScheduleLoop(c, s, r, limit, keys, rows, false).0, r)
    decreases keys
  {
    hide Fresh, LoopFrame, RowsOk;
    if keys == [] {
      LoopFrameRefl(s, r);
    } else {
      FreshTail(c, s.tasks, r, keys, rows);
      var t := TaskId(r, keys[0]);
      if !Ready(c, rows, r, keys[0]) {
        ScheduleLoopFrame(c, s, r, limit, keys[1..], rows);
      } else if SlotsUsed(c, s, c.Spec(r).project) < limit {
        FreshRow(c, s.tasks, r, keys, rows);
        DispatchFrame(c, s, t);
        DispatchPending(c, s, t);
        FreshAfterUpdate(c, s.tasks, r, keys[1..], rows, keys[0], TaskRow(Running, 1));
        var s' := Dispatch(c, s, t, 1);
        ScheduleLoopFrame(c, s', r, limit, keys[1..], rows);
        LoopFrameTrans(s, s', ScheduleLoop(c, s', r, limit, keys[1..], rows, false).0, r);
      } else {
        LoopFrameRefl(s, r);
      }
    }
  }

  lemma FreshRow(c: Config, tasks: Rows, r: RunId, keys: seq<Key>, rows: Rows)
    requires keys != [] && Fresh(c, tasks, r, keys, rows) && RowsOk(c, rows)
    requires Lookup(rows, r, keys[0]).status == Pending
    ensures TaskId(r, keys[0]) in tasks && tasks[TaskId(r, keys[0])] == TaskRow(Pending, 1)
    ensures Lookup(rows, r, keys[0]).attempt == 1
  {
    assert keys[0] in keys;
  }

  lemma LoopFrameRefl(s: State, r: RunId)
    ensures LoopFrame(s, s, r)
  {
  }

  lemma LoopFrameTrans(a: State, b: State, d: State, r: RunId)
    requires LoopFrame(a, b, r) && LoopFrame(b, d, r)
    ensures LoopFrame(a, d, r)
  {
  }

  /** If some key is ready and a slot is free, the loop leaves a RUNNING task. */
  lemma {:induction false} ScheduleLoopDispatches(
      c: Config, s: State, r: RunId, limit: int, keys: seq<Key>, rows: Rows, k: Key)
    requires !c.external && Fresh(c, s.tasks, r, keys, rows) && RowsOk(c, rows)
    requires k in keys && Ready(c, rows, r, k)
    requires SlotsUsed(c, s, c.Spec(r).project) < limit
    ensures SomeRow(c, ScheduleLoop(c, s, r, limit, keys, rows, false).0.tasks, r, Running)
    decreases keys
  {
    hide Fresh, RowsOk, SomeRow;
    FreshTail(c, s.tasks, r, keys, rows);
    var t := TaskId(r, keys[0]);
    if !Ready(c, rows, r, keys[0]) {
      assert keys == [keys[0]] + keys[1..];
      ScheduleLoopDispatches(c, s, r, limit, keys[1..], rows, k);
    } else {
      FreshRow(c, s.tasks, r, keys, rows);
      DispatchPending(c, s, t);
      FreshAfterUpdate(c, s.tasks, r, keys[1..], rows, keys[0], TaskRow(Running, 1));
      var s' := Dispatch(c, s, t, 1);
      ScheduleLoopFrame(c, s', r, limit, keys[1..], rows);
      StillRunning(c, s', ScheduleLoop(c, s', r, limit, keys[1..], rows, false).0, r, keys[0]);
    }
  }

  lemma StillRunning(c: Config, a: State, b: State, r: RunId, k: Key)
    requires LoopFrame(a, b, r) && k in c.Spec(r).Selected()
    requires TaskId(r, k) in a.tasks && a.tasks[TaskId(r, k)].status == Running
    ensures SomeRow(c, b.tasks, r, Running)
  {
    assert b.tasks[TaskId(r, k)].status == Running;
  }

  // ----- a ready task exists -----

  /** Among the selected PENDING tasks one of least rank waits for no selected PENDING task. */
  lemma {:induction false} LeastPending(spec: RunSpec, rank: map<Key, nat>, pending: set<Key>, k: Key) returns (least: Key)
    requires Ranks(spec, rank) && pending <= spec.Selected() && k in pending
    ensures least in pending
    ensures forall d :: d in spec.Deps(least) ==> d !in pending
    decreases rank[k]
  {
    if d :| d in spec.Deps(k) && d in pending {
      least := LeastPending(spec, rank, pending, d);
    } else {
      least := k;
    }
  }

  lemma ReadyExists(c: Config, tasks: Rows, r: RunId) returns (k: Key)
    requires Executable(c, r) && RowsOk(c, tasks) && Complete(c, tasks, r) && Clean(c, tasks, r)
    requires !SomeRow(c, tasks, r, Running)
    requires !AllSelected(c, tasks, r, Success)
    ensures k in c.Spec(r).Selected() && Ready(c, tasks, r, k)
  {
    var spec := c.Spec(r);
    var pending := set k | k in spec.Selected() && tasks[TaskId(r, k)].status == Pending;
    var bad :| bad in spec.Selected() && Lookup(tasks, r, bad).status != Success;
    PendingOrSuccess(c, tasks, r);
    assert bad in pending;
    var rank :| Ranks(spec, rank);
    k := LeastPending(spec, rank, pending, bad);
    forall d | d in spec.Deps(k) ensures Lookup(tasks, r, d).status == Success {
      assert d in spec.plan;
      assert d in spec.Selected() || d in spec.Skipped();
    }
  }

  lemma PendingOrSuccess(c: Config, tasks: Rows, r: RunId)
    requires RowsOk(c, tasks) && Complete(c, tasks, r) && Clean(c, tasks, r)
    requires !SomeRow(c, tasks, r, Running)
    ensures forall k :: k in c.Spec(r).plan ==> tasks[TaskId(r, k)].status in {Pending, Success}
  {
    forall k | k in c.Spec(r).plan ensures tasks[TaskId(r, k)].status in {Pending, Success} {
      var t := TaskId(r, k);
      assert t in tasks && tasks[t].status != Running;
    }
  }

  // ----- what synchronising and scheduling do to a clean RUNNING run -----

  lemma SyncClean(c: Config, s: State, r: RunId)
    requires RowsOk(c, s.tasks) && Clean(c, s.tasks, r) && c.Spec(r).Selected() != {}
    ensures SyncRun(c, s, r) == if AllSelected(c, s.tasks, r, Success) then TransitionRun(s, r, RunSuccess) else s
  {
    hide RowsOk, Clean;
    var keys := SortedKeys(c.Spec(r).Selected());
    forall k | k in keys ensures !Blocked(c, s.tasks, r, k) {
      CleanMeansNothingBlocked(c, s.tasks, r, k);
    }
    NothingBlocked(c, s, r, keys, s.tasks);
    CleanHasNoFailed(c, s.tasks, r);
  }

  lemma CleanHasNoFailed(c: Config, tasks: Rows, r: RunId)
    requires Clean(c, tasks, r)
    ensures !AnySelected(c, tasks, r, Failed)
  {
    forall k | k in c.Spec(r).Selected() ensures Lookup(tasks, r, k).status != Failed {
      assert k in c.Spec(r).plan;
    }
  }

  /** Without a free slot the loop dispatches nothing. */
  lemma {:induction false} FullLoop(c: Config, s: State, r: RunId, limit: int, keys: seq<Key>, rows: Rows)
    requires SlotsUsed(c, s, c.Spec(r).project) >= limit
    ensures ScheduleLoop(c, s, r, limit, keys, rows, false).0 == s
    decreases keys
  {
    if keys != [] && !Ready(c, rows, r, keys[0]) {
      FullLoop(c, s, r, limit, keys[1..], rows);
    }
  }

  lemma {:induction false} IdleLoop(c: Config, s: State, r: RunId, limit: int, keys: seq<Key>, rows: Rows)
    requires forall k :: k in keys ==> !Ready(c, rows, r, k)
    ensures ScheduleLoop(c, s, r, limit, keys, rows, false).0 == s
    decreases keys
  {
    if keys != [] {
      assert keys[0] in keys;
      IdleLoop(c, s, r, limit, keys[1..], rows);
    }
  }

  lemma FreshAtStart(c: Config, tasks: Rows, r: RunId)
    requires Complete(c, tasks, r)
    ensures Fresh(c, tasks, r, SortedKeys(c.Spec(r).Selected()), tasks)
  {
  }

  lemma ScheduleReadyFrame(c: Config, s: State, r: RunId, limit: int)
    requires Core(c, s) && LimitOk(c, r, limit) && !IsCancelled(s, r) && Complete(c, s.tasks, r)
    ensures LoopFrame(s, ScheduleReady(c, s, r, limit), r)
  {
    hide QueueOk, RowsOk, MessagesOk, LogOk, StatusOk, CapacityOk, LoopFrame, ScheduleReady, SlotTasks, LimitOk;
    hide ScheduleLoop, CleanOk, Outstanding;
    ScheduleReadyKeeps(c, s, r, limit);
    FreshAtStart(c, s.tasks, r);
    hide Fresh, Complete;
    ScheduleLoopFrame(c, s, r, limit, SortedKeys(c.Spec(r).Selected()), s.tasks);
  }

  /** No selected task can be dispatched: each is under way or finished, or waits for a task that is not SUCCESS. */
  ghost predicate NoneReady(c: Config, tasks: Rows, r: RunId) {
    forall k :: k in c.Spec(r).Selected() ==> !Ready(c, tasks, r, k)
  }

  /** Nothing is dispatched without a free slot, nor when no task is ready. */
  lemma ScheduleReadyIdle(c: Config, s: State, r: RunId, limit: int)
    requires Core(c, s) && LimitOk(c, r, limit) && !IsCancelled(s, r) && Complete(c, s.tasks, r)
    ensures SlotsUsed(c, s, c.Spec(r).project) >= limit ==> ScheduleReady(c, s, r, limit) == s
    ensures NoneReady(c, s.tasks, r) ==> ScheduleReady(c, s, r, limit) == s
    ensures AllSelected(c, s.tasks, r, Success) ==> NoneReady(c, s.tasks, r)
  {
    hide QueueOk, RowsOk, MessagesOk, LogOk, StatusOk, CapacityOk, ScheduleReady, SlotTasks, LimitOk;
    var keys := SortedKeys(c.Spec(r).Selected());
    ScheduleReadyKeeps(c, s, r, limit);
    if SlotsUsed(c, s, c.Spec(r).project) >= limit {
      FullLoop(c, s, r, limit, keys, s.tasks);
    }
    if NoneReady(c, s.tasks, r) {
      IdleLoop(c, s, r, limit, keys, s.tasks);
    }
  }

  lemma ScheduleReadyDispatches(c: Config, s: State, r: RunId, limit: int, k: Key)
    requires Core(c, s) && LimitOk(c, r, limit) && !IsCancelled(s, r) && Complete(c, s.tasks, r)
    requires k in c.Spec(r).Selected() && Ready(c, s.tasks, r, k)
    requires SlotsUsed(c, s, c.Spec(r).project) < limit
    ensures SomeRow(c, ScheduleReady(c, s, r, limit).tasks, r, Running)
  {
    hide QueueOk, RowsOk, MessagesOk, LogOk, StatusOk, CapacityOk, ScheduleReady, SomeRow;
    var keys := SortedKeys(c.Spec(r).Selected());
    ScheduleReadyKeeps(c, s, r, limit);
    ScheduleLoopDispatches(c, s, r, limit, keys, s.tasks, k);
  }

  /** The state of a RUNNING run in which the success of its task `t` has just been recorded. */
  ghost predicate Recorded(c: Config, s: State, r: RunId, limit: int) {
    && Inv(c, s) && LimitOk(c, r, limit) && c.Spec(r).Selected() != {}
    && r in s.runs && s.runs[r] == RunRunning && Complete(c, s.tasks, r) && Clean(c, s.tasks, r)
  }

  lemma RunningNotAllSuccess(c: Config, tasks: Rows, r: RunId)
    requires Clean(c, tasks, r) && SomeRow(c, tasks, r, Running)
    ensures !AllSelected(c, tasks, r, Success)
  {
    var k :| k in c.Spec(r).plan && TaskId(r, k) in tasks && tasks[TaskId(r, k)].status == Running;
    assert k in c.Spec(r).Selected() || k in c.Spec(r).Skipped();
    assert Lookup(tasks, r, k).status == Running;
  }

  lemma KeptRunning(c: Config, a: State, b: State, r: RunId)
    requires LoopFrame(a, b, r) && SomeRow(c, a.tasks, r, Running)
    ensures SomeRow(c, b.tasks, r, Running)
  {
    var k :| k in c.Spec(r).plan && TaskId(r, k) in a.tasks && a.tasks[TaskId(r, k)].status == Running;
    assert b.tasks[TaskId(r, k)].status == Running;
  }

  /**
   Scheduling and synchronising leave a RUNNING run without a RUNNING task exactly
   when it had none, is not finished, and either the project has no free slot or no
   task is ready.
  */
  lemma StrandedIff(c: Config, s: State, r: RunId, limit: int)
    requires Recorded(c, s, r, limit)
    ensures var s' := SyncRun(c, ScheduleReady(c, s, r, limit), r);
      Stranded(c, s'.runs, s'.tasks, r) <==>
        && !SomeRow(c, s.tasks, r, Running)
        && !AllSelected(c, s.tasks, r, Success)
        && (SlotsUsed(c, s, c.Spec(r).project) >= limit || NoneReady(c, s.tasks, r))
  {
    hide QueueOk, RowsOk, MessagesOk, LogOk, StatusOk, CapacityOk, CleanOk, Clean, Complete, SomeRow, AllSelected;
    hide ScheduleReady, SyncRun, LoopFrame, LimitOk, Ready;
    var s2 := ScheduleReady(c, s, r, limit);
    ScheduleReadyKeeps(c, s, r, limit);
    ScheduleReadyFrame(c, s, r, limit);
    ScheduleReadyIdle(c, s, r, limit);
    LoopFrameRuns(s, s2, r);
    RunningIsClean(c, s2.runs, s2.tasks, r);
    SyncClean(c, s2, r);
    SelectedNotBoth(c, s2.tasks, r);
    if SomeRow(c, s.tasks, r, Running) {
      KeptRunning(c, s, s2, r);
    } else if !NoneReady(c, s.tasks, r) && SlotsUsed(c, s, c.Spec(r).project) < limit {
      var k :| k in c.Spec(r).Selected() && Ready(c, s.tasks, r, k);
      ScheduleReadyDispatches(c, s, r, limit, k);
    }
  }

  lemma LoopFrameRuns(s: State, s': State, r: RunId)
    requires LoopFrame(s, s', r)
    ensures s'.runs == s.runs
  {
  }

  lemma SelectedNotBoth(c: Config, tasks: Rows, r: RunId)
    requires Clean(c, tasks, r)
    ensures SomeRow(c, tasks, r, Running) ==> !AllSelected(c, tasks, r, Success)
  {
    if SomeRow(c, tasks, r, Running) {
      RunningNotAllSuccess(c, tasks, r);
    }
  }

  // ----- handlers leave other runs alone -----

  ghost predicate OthersSame(s: State, s': State, r: RunId) {
    && SameElsewhere(s.tasks, s'.tasks, r)
    && (forall q :: q in s.runs <==> q in s'.runs)
    && (forall q :: q in s.runs && q != r ==> s'.runs[q] == s.runs[q])
  }

  lemma OthersSameTrans(a: State, b: State, d: State, r: RunId)
    requires OthersSame(a, b, r) && OthersSame(b, d, r)
    ensures OthersSame(a, d, r)
  {
  }

  lemma OthersNotStranded(c: Config, s: State, s': State, r: RunId, q: RunId)
    requires OthersSame(s, s', r) && q != r
    ensures Stranded(c, s'.runs, s'.tasks, q) <==> Stranded(c, s.runs, s.tasks, q)
  {
    forall k ensures TaskId(q, k) in s.tasks ==> s'.tasks[TaskId(q, k)] == s.tasks[TaskId(q, k)] {
      assert TaskId(q, k).run == q;
    }
  }

  lemma TransitionOthers(s: State, s1: State, r: RunId, to: RunStatus)
    requires SameElsewhere(s.tasks, s1.tasks, r) && s1.runs == s.runs && SameChannels(s, s1)
    ensures OthersSame(s, TransitionRun(s1, r, to), r) && SameChannels(s, TransitionRun(s1, r, to))
    ensures OthersSame(s, s1, r)
  {
  }

  lemma SyncRunFrame(c: Config, s: State, r: RunId)
    requires Core(c, s) && CleanExcept(c, s.runs, s.tasks, r) && Complete(c, s.tasks, r)
    ensures OthersSame(s, SyncRun(c, s, r), r)
    ensures SameChannels(s, SyncRun(c, s, r))
  {
    hide QueueOk, RowsOk, MessagesOk, LogOk, StatusOk, CapacityOk, CleanExcept, CancelBlocked, AllSelected, AnySelected;
    hide OthersSame, SameChannels, SameElsewhere, TransitionRun, Settled, Complete;
    var keys := SortedKeys(c.Spec(r).Selected());
    var s1 := CancelBlocked(c, s, r, keys, s.tasks);
    CancelAllSelected(c, s, r);
    CancelBlockedChannels(c, s, r, keys, s.tasks);
    TransitionOthers(s, s1, r, RunSuccess);
    TransitionOthers(s, s1, r, RunFailed);
  }

  lemma CancelAllSelected(c: Config, s: State, r: RunId)
    requires Core(c, s) && Complete(c, s.tasks, r)
    ensures var s1 := CancelBlocked(c, s, r, SortedKeys(c.Spec(r).Selected()), s.tasks);
      Core(c, s1) && SameElsewhere(s.tasks, s1.tasks, r) && Settled(s.tasks, s1.tasks)
  {
    hide QueueOk, RowsOk, MessagesOk, LogOk, StatusOk, CapacityOk;
    CancelBlockedKeeps(c, s, r, SortedKeys(c.Spec(r).Selected()), s.tasks);
  }

  /** No message was sent or received. */
  ghost predicate SameChannels(s: State, s': State) {
    && s'.high == s.high && s'.normal == s.normal && s'.low == s.low
    && s'.inFlight == s.inFlight && s'.done == s.done && s'.log == s.log && s'.runQueue == s.runQueue
  }

  lemma {:induction false} CancelBlockedChannels(c: Config, s: State, r: RunId, keys: seq<Key>, rows: Rows)
    ensures SameChannels(s, CancelBlocked(c, s, r, keys, rows)) && CancelBlocked(c, s, r, keys, rows).runs == s.runs
    decreases keys
  {
    if keys != [] {
      if Blocked(c, rows, r, keys[0]) {
        CancelBlockedChannels(c, Upsert(s, TaskId(r, keys[0]), Cancelled, Lookup(rows, r, keys[0]).attempt), r, keys[1..], rows);
      } else {
        CancelBlockedChannels(c, s, r, keys[1..], rows);
      }
    }
  }

  lemma LoopFrameOthers(s: State, s': State, r: RunId)
    requires LoopFrame(s, s', r)
    ensures OthersSame(s, s', r)
  {
  }

  lemma AfterSuccessFrame(c: Config, s: State, r: RunId, limit: int)
    requires Inv(c, s) && LimitOk(c, r, limit)
    requires r in s.runs && s.runs[r] !in {RunPending, RunCancelled} && Complete(c, s.tasks, r)
    ensures OthersSame(s, SyncRun(c, ScheduleReady(c, s, r, limit), r), r)
    ensures LoopFrame(s, ScheduleReady(c, s, r, limit), r)
    ensures SameChannels(ScheduleReady(c, s, r, limit), SyncRun(c, ScheduleReady(c, s, r, limit), r))
  {
    hide QueueOk, RowsOk, MessagesOk, LogOk, StatusOk, CapacityOk, CleanOk, CleanExcept, Complete, SyncRun, ScheduleReady;
    hide LoopFrame, OthersSame, LimitOk;
    var s2 := ScheduleReady(c, s, r, limit);
    ScheduleReadyKeeps(c, s, r, limit);
    ScheduleReadyFrame(c, s, r, limit);
    LoopFrameOthers(s, s2, r);
    LoopFrameRuns(s, s2, r);
    StartedIsComplete(c, s2.runs, s2.tasks, r);
    CleanGivesExcept(c, s2.runs, s2.tasks, r);
    SyncRunFrame(c, s2, r);
    OthersSameTrans(s, s2, SyncRun(c, s2, r), r);
  }

  /** The state in which the scheduler works after recording the success at the head of the done queue. */
  function AfterRecord(s: State): State
    requires s.done != []
  {
    Upsert(s.(done := s.done[1..]), s.done[0].msg.task, Success, s.done[0].msg.attempt)
  }

  lemma RecordOthers(s: State, to: TaskStatus)
    requires s.done != [] && s.done[0].msg.task in s.tasks
    ensures OthersSame(s, Upsert(s.(done := s.done[1..]), s.done[0].msg.task, to, s.done[0].msg.attempt), s.done[0].msg.task.run)
  {
  }

  lemma CancelOthers(s: State, r: RunId)
    ensures OthersSame(s, CancelTasks(s, r, false), r)
  {
  }

  lemma SuccessOthers(c: Config, s: State)
    requires Inv(c, s) && s.done != [] && s.done[0].ok
    ensures OthersSame(s, Handle(c, s), s.done[0].msg.task.run)
  {
    hide QueueOk, RowsOk, MessagesOk, LogOk, StatusOk, CapacityOk, CleanOk, CleanExcept, Complete, MessageOk;
    hide SyncRun, ScheduleReady, OthersSame, CancelTasks, LoopFrame, SameChannels, Settled;
    var r := s.done[0].msg.task.run;
    var s1 := AfterRecord(s);
    HeadMessage(c, s);
    SettleKeeps(c, s, Success);
    RecordOthers(s, Success);
    if IsCancelled(s1, r) {
      CancelOthers(s1, r);
      OthersSameTrans(s, s1, CancelTasks(s1, r, false), r);
    } else {
      LimitAtLeastOne(c, r);
      AfterSuccessFrame(c, s1, r, Max(1, c.Spec(r).limit));
      OthersSameTrans(s, s1, SyncRun(c, ScheduleReady(c, s1, r, Max(1, c.Spec(r).limit)), r), r);
    }
  }

  lemma ExhaustedOthers(c: Config, s: State)
    requires Inv(c, s) && s.done != [] && !s.done[0].ok
    requires var m := s.done[0].msg; !ShouldRetry(m.attempt, c.Spec(m.task.run).MaxAttempts(m.task.key))
    ensures OthersSame(s, Handle(c, s), s.done[0].msg.task.run)
  {
    hide QueueOk, RowsOk, MessagesOk, LogOk, StatusOk, CapacityOk, CleanOk, CleanExcept, Complete, MessageOk;
    hide SyncRun, OthersSame, SameChannels, Settled;
    var m := s.done[0].msg;
    var s1 := Upsert(s.(done := s.done[1..]), m.task, Failed, m.attempt);
    var s2 := s1.(dlq := s1.dlq + [m]);
    HeadMessage(c, s);
    SettleKeeps(c, s, Failed);
    RecordOthers(s, Failed);
    SameOutstanding(s1, s2);
    DlqOthers(s, s1, s2, m.task.run);
    SyncRunFrame(c, s2, m.task.run);
    OthersSameTrans(s, s2, SyncRun(c, s2, m.task.run), m.task.run);
  }

  lemma DlqOthers(s: State, s1: State, s2: State, r: RunId)
    requires OthersSame(s, s1, r) && s2.runs == s1.runs && s2.tasks == s1.tasks
    ensures OthersSame(s, s2, r)
  {
  }

  lemma RetryOthers(c: Config, s: State)
    requires Inv(c, s) && s.done != [] && !s.done[0].ok
    requires var m := s.done[0].msg; ShouldRetry(m.attempt, c.Spec(m.task.run).MaxAttempts(m.task.key))
    ensures OthersSame(s, Handle(c, s), s.done[0].msg.task.run)
    ensures SomeRow(c, s.tasks, s.done[0].msg.task.run, Running)
            ==> SomeRow(c, Handle(c, s).tasks, s.done[0].msg.task.run, Running)
  {
    hide Inv, Outstanding;
    var m := s.done[0].msg;
    RetryShape(c, s);
    hide Handle;
    var tasks' := Handle(c, s).tasks;
    if SomeRow(c, s.tasks, m.task.run, Running) {
      var k :| k in c.Spec(m.task.run).plan && TaskId(m.task.run, k) in s.tasks
               && s.tasks[TaskId(m.task.run, k)].status == Running;
      assert tasks'[TaskId(m.task.run, k)].status == Running;
    }
  }

  // ----- the exact condition under which a handler strands its run -----

  ghost predicate OtherRunning(c: Config, tasks: Rows, t: TaskId) {
    exists k :: k in c.Spec(t.run).plan && k != t.key && TaskId(t.run, k) in tasks && tasks[TaskId(t.run, k)].status == Running
  }

  ghost predicate OtherUnfinished(c: Config, tasks: Rows, t: TaskId) {
    exists k :: k in c.Spec(t.run).Selected() && k != t.key && Lookup(tasks, t.run, k).status != Success
  }

  lemma RecordedRows(c: Config, tasks: Rows, t: TaskId, attempt: int)
    requires t in tasks && t.key in c.Spec(t.run).plan
    ensures var tasks' := tasks[t := TaskRow(Success, attempt)];
      && (SomeRow(c, tasks', t.run, Running) <==> OtherRunning(c, tasks, t))
      && (AllSelected(c, tasks', t.run, Success) <==> !OtherUnfinished(c, tasks, t))
  {
    var tasks' := tasks[t := TaskRow(Success, attempt)];
    forall k ensures k != t.key && TaskId(t.run, k) in tasks ==> tasks'[TaskId(t.run, k)] == tasks[TaskId(t.run, k)] {}
    forall k ensures k != t.key ==> Lookup(tasks', t.run, k) == Lookup(tasks, t.run, k) {}
    assert Lookup(tasks', t.run, t.key).status == Success by {
      assert TaskId(t.run, t.key) == t;
    }
    if SomeRow(c, tasks', t.run, Running) {
      var k :| k in c.Spec(t.run).plan && TaskId(t.run, k) in tasks' && tasks'[TaskId(t.run, k)].status == Running;
      assert k != t.key;
    }
    if OtherRunning(c, tasks, t) {
      var k :| k in c.Spec(t.run).plan && k != t.key && TaskId(t.run, k) in tasks && tasks[TaskId(t.run, k)].status == Running;
      assert tasks'[TaskId(t.run, k)].status == Running;
    }
  }

  lemma RecordedSlots(c: Config, runs: Runs, tasks: Rows, t: TaskId, attempt: int)
    requires t in tasks && tasks[t].status == Running && t.run in runs && runs[t.run] == RunRunning
    ensures |SlotTasks(c, runs, tasks[t := TaskRow(Success, attempt)], c.Spec(t.run).project)|
            == |SlotTasks(c, runs, tasks, c.Spec(t.run).project)| - 1
  {
    var p := c.Spec(t.run).project;
    var before := SlotTasks(c, runs, tasks, p);
    assert t in before;
    assert SlotTasks(c, runs, tasks[t := TaskRow(Success, attempt)], p) == before - {t};
  }

  lemma RecordedIsRecorded(c: Config, s: State)
    requires Inv(c, s) && s.done != [] && s.done[0].ok
    requires var r := s.done[0].msg.task.run; r in s.runs && s.runs[r] == RunRunning
    ensures var m := s.done[0].msg;
      && Recorded(c, AfterRecord(s), m.task.run, Max(1, c.Spec(m.task.run).limit))
      && m.task in s.tasks && s.tasks[m.task].status == Running && m.task.key in c.Spec(m.task.run).plan
      && AfterRecord(s).tasks == s.tasks[m.task := TaskRow(Success, m.attempt)]
      && Handle(c, s) == SyncRun(c, ScheduleReady(c, AfterRecord(s), m.task.run, Max(1, c.Spec(m.task.run).limit)), m.task.run)
  {
    hide QueueOk, RowsOk, MessagesOk, LogOk, StatusOk, CapacityOk, CleanOk, CleanExcept, Complete, MessageOk;
    hide SyncRun, ScheduleReady, Settled, Clean, LimitOk;
    var m := s.done[0].msg;
    HeadMessage(c, s);
    HeadRow(s, m);
    SettleKeeps(c, s, Success);
    LimitAtLeastOne(c, m.task.run);
    RunningIsClean(c, s.runs, AfterRecord(s).tasks, m.task.run);
  }

  /**
   A handler of a success leaves its RUNNING run without a RUNNING task exactly when the
   finished task was the last one running, others remain, and either the project's other
   runs still fill this run's limit or no remaining task is ready.
  */
  lemma HandleStrandsIff(c: Config, s: State)
    requires Inv(c, s) && s.done != [] && s.done[0].ok
    requires var r := s.done[0].msg.task.run; r in s.runs && s.runs[r] == RunRunning
    ensures var t := s.done[0].msg.task; var s' := Handle(c, s);
      Stranded(c, s'.runs, s'.tasks, t.run) <==>
        && !OtherRunning(c, s.tasks, t)
        && OtherUnfinished(c, s.tasks, t)
        && (SlotsUsed(c, s, c.Spec(t.run).project) - 1 >= Max(1, c.Spec(t.run).limit)
            || NoneReady(c, AfterRecord(s).tasks, t.run))
  {
    hide Inv, Recorded, SyncRun, ScheduleReady, Handle, OtherRunning, OtherUnfinished, Stranded, SlotTasks, AllSelected, SomeRow;
    hide NoneReady;
    var m := s.done[0].msg;
    var r := m.task.run;
    RecordedIsRecorded(c, s);
    RecordedRows(c, s.tasks, m.task, m.attempt);
    RecordedSlots(c, s.runs, s.tasks, m.task, m.attempt);
    StrandedIff(c, AfterRecord(s), r, Max(1, c.Spec(r).limit));
  }

  /** With an executable plan some remaining task is ready. */
  lemma RecordedHasReady(c: Config, s: State, r: RunId, limit: int)
    requires Recorded(c, s, r, limit) && Executable(c, r)
    requires !SomeRow(c, s.tasks, r, Running) && !AllSelected(c, s.tasks, r, Success)
    ensures !NoneReady(c, s.tasks, r)
  {
    hide QueueOk, RowsOk, MessagesOk, LogOk, StatusOk, CapacityOk, CleanOk, Clean, Complete, SomeRow, AllSelected;
    hide Executable, Ready, LimitOk;
    var k := ReadyExists(c, s.tasks, r);
  }

  // ----- steps that concern another run -----

  /** The step handles a message of run `r`, starts it or cancels it. */
  predicate Concerns(s: State, step: Step, r: RunId) {
    match step
    case ConsumeRun => s.runQueue != [] && s.runQueue[0] == r
    case HandleDone => s.done != [] && s.done[0].msg.task.run == r
    case ApiMarkCancelled(q) => q == r
    case _ => false
  }

  lemma HandleElsewhere(c: Config, s: State, r: RunId)
    requires Inv(c, s) && s.done != [] && s.done[0].msg.task.run != r
    ensures Stranded(c, Handle(c, s).runs, Handle(c, s).tasks, r) <==> Stranded(c, s.runs, s.tasks, r)
  {
    hide Inv, OthersSame, Handle, Stranded;
    var m := s.done[0].msg;
    if s.done[0].ok {
      SuccessOthers(c, s);
    } else if ShouldRetry(m.attempt, c.Spec(m.task.run).MaxAttempts(m.task.key)) {
      RetryOthers(c, s);
    } else {
      ExhaustedOthers(c, s);
    }
    OthersNotStranded(c, s, Handle(c, s), m.task.run, r);
  }

  lemma NothingDone(c: Config, s: State)
    requires s.done == []
    ensures Handle(c, s) == s
  {
  }

  ghost predicate SameOutside(a: Rows, b: Rows, r: RunId) {
    forall t: TaskId :: t.run != r ==> (t in b <==> t in a) && (t in a ==> b[t] == a[t])
  }

  lemma StrandedElsewhere(c: Config, s: State, s2: State, r: RunId, q: RunId)
    requires q != r && SameOutside(s.tasks, s2.tasks, r)
    requires q in s2.runs <==> q in s.runs
    requires q in s.runs ==> s2.runs[q] == s.runs[q]
    ensures Stranded(c, s2.runs, s2.tasks, q) <==> Stranded(c, s.runs, s.tasks, q)
  {
    forall k ensures TaskId(q, k) in s.tasks <==> TaskId(q, k) in s2.tasks {
      assert TaskId(q, k).run == q;
    }
    forall k | TaskId(q, k) in s.tasks ensures s2.tasks[TaskId(q, k)] == s.tasks[TaskId(q, k)] {
      assert TaskId(q, k).run == q;
    }
  }

  lemma StartedOthers(c: Config, s: State)
    requires Inv(c, s) && s.runQueue != [] && s.runs[s.runQueue[0]] == RunPending
    ensures SameOutside(s.tasks, Started(c, s.(runQueue := s.runQueue[1..]), s.runQueue[0]).tasks, s.runQueue[0])
  {
    hide QueueOk, RowsOk, MessagesOk, LogOk, StatusOk, CapacityOk, CleanOk, StartRows, Started;
    var r := s.runQueue[0];
    var s0 := s.(runQueue := s.runQueue[1..]);
    QueuedHasNoRows(c, s);
    StartedShape(c, s0, r);
    StartRowsAre(c, TransitionRun(s0, r, RunRunning), s.tasks, r);
  }

  lemma StartElsewhere(c: Config, s: State, r: RunId)
    requires Inv(c, s) && s.runQueue != [] && s.runs[s.runQueue[0]] == RunPending && s.runQueue[0] != r
    ensures var s' := StartRun(c, s.(runQueue := s.runQueue[1..]), s.runQueue[0]);
      Stranded(c, s'.runs, s'.tasks, r) <==> Stranded(c, s.runs, s.tasks, r)
  {
    hide QueueOk, RowsOk, MessagesOk, LogOk, StatusOk, CapacityOk, CleanOk, CleanExcept, Clean, Complete;
    hide ScheduleReady, InitRows, GateAccepts, SomeRow, InitialStatus, Stranded, OthersSame, SameOutside, LoopFrame;
    var q := s.runQueue[0];
    var s0 := s.(runQueue := s.runQueue[1..]);
    var s2 := Started(c, s0, q);
    QueuedHasNoRows(c, s);
    StartedKeeps(c, s);
    StartedOthers(c, s);
    StrandedElsewhere(c, s, s2, q, r);
    if GateAccepts(c, TransitionRun(s0, q, RunRunning), q) {
      KnownRun(c, s, q);
      LimitAtLeastOne(c, q);
      ScheduleReadyFrame(c, s2, q, c.Spec(q).limit);
      LoopFrameOthers(s2, ScheduleReady(c, s2, q, c.Spec(q).limit), q);
      OthersNotStranded(c, s2, ScheduleReady(c, s2, q, c.Spec(q).limit), q, r);
    } else {
      FailedNotStranded(c, s2, q);
      OthersNotStranded(c, s2, TransitionRun(s2, q, RunFailed), q, r);
    }
  }

  lemma FailedNotStranded(c: Config, s: State, r: RunId)
    requires r in s.runs && s.runs[r] == RunRunning
    ensures var s' := TransitionRun(s, r, RunFailed); OthersSame(s, s', r) && !Stranded(c, s'.runs, s'.tasks, r)
  {
  }

  lemma CancelElsewhere(c: Config, s: State, q: RunId, r: RunId)
    requires IsCancelled(s, q)
    ensures var s' := CancelTasks(s, q, false); Stranded(c, s'.runs, s'.tasks, r) <==> Stranded(c, s.runs, s.tasks, r)
  {
    hide SomeRow;
    var s' := CancelTasks(s, q, false);
    if q != r {
      StrandedElsewhere(c, s, s', q, r);
    }
  }

  lemma ConsumeElsewhere(c: Config, s: State, r: RunId)
    requires Inv(c, s) && (s.runQueue == [] || s.runQueue[0] != r)
    ensures Stranded(c, Consume(c, s).runs, Consume(c, s).tasks, r) <==> Stranded(c, s.runs, s.tasks, r)
  {
    hide QueueOk, RowsOk, MessagesOk, LogOk, StatusOk, CapacityOk, CleanOk, Outstanding, StartRun, SlotTasks, SomeRow, CancelTasks;
    if s.runQueue != [] {
      QueuedHasNoRows(c, s);
      var q, s0 := s.runQueue[0], s.(runQueue := s.runQueue[1..]);
      if IsCancelled(s0, q) {
        CancelElsewhere(c, s0, q, r);
      }
      if s.runs[q] == RunPending {
        StartElsewhere(c, s, r);
      }
    }
  }

  /** A step that does not concern a run neither strands it nor helps it. */
  lemma UnconcernedSame(c: Config, s: State, step: Step, r: RunId)
    requires Inv(c, s) && !Concerns(s, step, r)
    ensures Stranded(c, Next(c, s, step).runs, Next(c, s, step).tasks, r) <==> Stranded(c, s.runs, s.tasks, r)
  {
    hide Inv, Consume, Handle, Take, Finish, CancelTasks, SomeRow;
    match step
    case Submit(q) =>
    case RotateRuns =>
    case ConsumeRun => ConsumeElsewhere(c, s, r);
    case ExecutorTake => TakeFrame(s);
    case ExecutorFinish(m, ok) => FinishFrame(s, m, ok);
    case HandleDone =>
      if s.done == [] {
        NothingDone(c, s);
      } else {
        HandleElsewhere(c, s, r);
      }
    case ApiMarkCancelled(q) =>
    case ApiCancelTasks(q) =>
      if IsCancelled(s, q) {
        CancelElsewhere(c, s, q, r);
      }
  }

  // ----- a stranded run stays stranded -----

  /** No message of a stranded run is left that could be handled, and it is not queued again. */
  lemma StrandedIsNotServed(c: Config, s: State, step: Step, r: RunId)
    requires Inv(c, s) && Stranded(c, s.runs, s.tasks, r) && Concerns(s, step, r)
    ensures step == ApiMarkCancelled(r)
  {
    hide RowsOk, LogOk, StatusOk, CapacityOk, CleanOk, Complete, Outstanding;
    if step.HandleDone? {
      var t := s.done[0].msg.task;
      HeadMessage(c, s);
    } else if step.ConsumeRun? {
      QueuedHasNoRows(c, s);
    }
  }

  /** Only the cancel endpoint ends the wait of a stranded run. */
  lemma StrandedStays(c: Config, s: State, step: Step, r: RunId)
    requires Inv(c, s) && Stranded(c, s.runs, s.tasks, r)
    ensures var s' := Next(c, s, step);
      if step == ApiMarkCancelled(r) then IsCancelled(s', r) else Stranded(c, s'.runs, s'.tasks, r)
  {
    hide Inv, Consume, Handle, Take, Finish, CancelTasks, SomeRow;
    if Concerns(s, step, r) {
      StrandedIsNotServed(c, s, step, r);
    } else {
      UnconcernedSame(c, s, step, r);
    }
  }

  // ----- a run is not stranded by its own messages -----

  lemma LimitBoundsProject(c: Config, r: RunId)
    requires r in c.specs && OneLimit(c, c.specs[r].project)
    ensures BoundsLimits(c, c.Spec(r).project, c.Spec(r).limit) && c.Spec(r).limit >= 1
  {
  }

  lemma SlotsBounded(c: Config, s: State, r: RunId)
    requires CapacityOk(c, s.runs, s.tasks) && BoundsLimits(c, c.Spec(r).project, c.Spec(r).limit)
    ensures SlotsUsed(c, s, c.Spec(r).project) <= c.Spec(r).limit
  {
  }

  lemma SuccessKeepsLive(c: Config, s: State, r: RunId)
    requires Inv(c, s) && s.done != [] && s.done[0].ok && s.done[0].msg.task.run == r
    requires r in c.specs && OneLimit(c, c.specs[r].project) && Executable(c, r)
    ensures !Stranded(c, Handle(c, s).runs, Handle(c, s).tasks, r)
  {
    hide QueueOk, RowsOk, MessagesOk, LogOk, StatusOk, CapacityOk, CleanOk, Handle, Executable, OneLimit, SlotTasks;
    hide SomeRow, AllSelected, OtherRunning, OtherUnfinished, NoneReady, Recorded, ScheduleReady, SyncRun;
    HeadMessage(c, s);
    LimitBoundsProject(c, r);
    SlotsBounded(c, s, r);
    if s.runs[r] == RunRunning {
      var m := s.done[0].msg;
      HandleStrandsIff(c, s);
      RecordedIsRecorded(c, s);
      RecordedRows(c, s.tasks, m.task, m.attempt);
      if !OtherRunning(c, s.tasks, m.task) && OtherUnfinished(c, s.tasks, m.task) {
        RecordedHasReady(c, AfterRecord(s), r, Max(1, c.Spec(r).limit));
      }
    } else {
      NotRunningStays(c, s, r);
    }
  }

  /** Only the start of a run makes it RUNNING. */
  lemma NotRunningStays(c: Config, s: State, r: RunId)
    requires Inv(c, s) && s.done != [] && r == s.done[0].msg.task.run
    requires r in s.runs && s.runs[r] != RunRunning
    ensures r in Handle(c, s).runs ==> Handle(c, s).runs[r] != RunRunning
  {
    hide QueueOk, RowsOk, MessagesOk, LogOk, StatusOk, CapacityOk, CleanOk, CleanExcept, Complete, Settled;
    hide ScheduleReady, CancelBlocked, SyncRun, Outstanding, UpsertRow;
    var m := s.done[0].msg;
    HeadMessage(c, s);
    if s.done[0].ok {
      var s1 := AfterRecord(s);
      SettleKeeps(c, s, Success);
      if !IsCancelled(s1, r) {
        LimitAtLeastOne(c, r);
        ScheduleReadyKeeps(c, s1, r, Max(1, c.Spec(r).limit));
        SyncKeepsNotRunning(c, ScheduleReady(c, s1, r, Max(1, c.Spec(r).limit)), r);
      }
    } else if !ShouldRetry(m.attempt, c.Spec(r).MaxAttempts(m.task.key)) {
      SyncKeepsNotRunning(c, Upsert(s.(done := s.done[1..]), m.task, Failed, m.attempt).(dlq := s.dlq + [Msg(m.task, m.attempt)]), r);
    }
  }

  lemma SyncKeepsNotRunning(c: Config, s: State, r: RunId)
    requires r in s.runs && s.runs[r] != RunRunning
    ensures r in SyncRun(c, s, r).runs ==> SyncRun(c, s, r).runs[r] != RunRunning
  {
    hide CancelBlocked, AllSelected, AnySelected;
    CancelBlockedChannels(c, s, r, SortedKeys(c.Spec(r).Selected()), s.tasks);
  }

  /** A failed selected task ends a RUNNING run. */
  lemma SyncFailsRun(c: Config, s: State, r: RunId)
    requires r in s.runs && AnySelected(c, s.tasks, r, Failed)
    ensures r in SyncRun(c, s, r).runs && SyncRun(c, s, r).runs[r] != RunRunning
  {
    hide CancelBlocked, AllSelected, AnySelected;
    CancelBlockedChannels(c, s, r, SortedKeys(c.Spec(r).Selected()), s.tasks);
    if AllSelected(c, s.tasks, r, Success) {
      AllSelectedNoneFailed(c, s.tasks, r);
    }
  }

  lemma ExhaustedNotStranded(c: Config, s: State)
    requires Inv(c, s) && s.done != [] && !s.done[0].ok
    requires var m := s.done[0].msg; !ShouldRetry(m.attempt, c.Spec(m.task.run).MaxAttempts(m.task.key))
    ensures var r := s.done[0].msg.task.run; r in Handle(c, s).runs ==> Handle(c, s).runs[r] != RunRunning
  {
    hide QueueOk, RowsOk, MessagesOk, LogOk, StatusOk, CapacityOk, CleanOk, CleanExcept, Complete, Settled;
    hide SyncRun, UpsertRow, AnySelected;
    var m := s.done[0].msg;
    var r := m.task.run;
    HeadMessage(c, s);
    if s.runs[r] == RunRunning {
      SettleKeeps(c, s, Failed);
      var s2 := Upsert(s.(done := s.done[1..]), m.task, Failed, m.attempt).(dlq := s.dlq + [Msg(m.task, m.attempt)]);
      FailedRow(s.tasks, m.task, m.attempt);
      FailedSelected(c, s2.tasks, m.task);
      SyncFailsRun(c, s2, r);
    } else {
      NotRunningStays(c, s, r);
    }
  }

  lemma FailedRow(tasks: Rows, t: TaskId, attempt: int)
    requires t in tasks
    ensures t in UpsertRow(tasks, t, Failed, attempt)
  {
  }

  lemma NotRunningNotStranded(c: Config, s: State, r: RunId)
    requires r in s.runs ==> s.runs[r] != RunRunning
    ensures !Stranded(c, s.runs, s.tasks, r)
  {
  }

  lemma RetryNotStranded(c: Config, s: State)
    requires Inv(c, s) && s.done != [] && !s.done[0].ok && !Stranded(c, s.runs, s.tasks, s.done[0].msg.task.run)
    requires var m := s.done[0].msg; ShouldRetry(m.attempt, c.Spec(m.task.run).MaxAttempts(m.task.key))
    ensures !Stranded(c, Handle(c, s).runs, Handle(c, s).tasks, s.done[0].msg.task.run)
  {
    hide Inv, OthersSame, Handle, SomeRow;
    RetryOthers(c, s);
    RetryRuns(c, s);
  }

  lemma RetryRuns(c: Config, s: State)
    requires Inv(c, s) && s.done != [] && !s.done[0].ok
    requires var m := s.done[0].msg; ShouldRetry(m.attempt, c.Spec(m.task.run).MaxAttempts(m.task.key))
    ensures Handle(c, s).runs == s.runs
  {
    hide Inv, Handle;
    RetryShape(c, s);
  }

  lemma HandleKeepsLive(c: Config, s: State, r: RunId)
    requires Inv(c, s) && s.done != [] && s.done[0].msg.task.run == r && !Stranded(c, s.runs, s.tasks, r)
    requires r in c.specs && OneLimit(c, c.specs[r].project) && Executable(c, r)
    ensures !Stranded(c, Handle(c, s).runs, Handle(c, s).tasks, r)
  {
    hide Inv, OneLimit, Executable, Handle, Stranded;
    var m := s.done[0].msg;
    if s.done[0].ok {
      SuccessKeepsLive(c, s, r);
    } else if ShouldRetry(m.attempt, c.Spec(r).MaxAttempts(m.task.key)) {
      RetryNotStranded(c, s);
    } else {
      ExhaustedNotStranded(c, s);
      NotRunningNotStranded(c, Handle(c, s), r);
    }
  }

  // ----- starting a run -----

  /** The rows of run `r` right after its initialisation. */
  ghost predicate JustStarted(c: Config, s1: State, tasks: Rows, r: RunId) {
    forall k :: k in c.Spec(r).plan ==>
      TaskId(r, k) in tasks && tasks[TaskId(r, k)] == TaskRow(InitialStatus(c, s1, r, k), 1)
  }

  lemma JustStartedFacts(c: Config, s1: State, tasks: Rows, r: RunId)
    requires JustStarted(c, s1, tasks, r) && c.Spec(r).plan.Keys != {}
    ensures !SomeRow(c, tasks, r, Running)
    ensures !AllSelected(c, tasks, r, Success)
  {
    ReplaySelection.SelectedStart(c.Spec(r).plan, c.Spec(r).replayFrom);
    var k :| k in c.Spec(r).Selected();
    assert Lookup(tasks, r, k).status == Pending;
  }

  lemma StartSlots(c: Config, s: State, s2: State, r: RunId)
    requires !c.external && r in s.runs && s.runs[r] == RunPending && s2.runs == s.runs[r := RunRunning]
    requires RowsOk(c, s2.tasks) && SameOutside(s.tasks, s2.tasks, r) && !SomeRow(c, s2.tasks, r, Running)
    ensures SlotsUsed(c, s2, c.Spec(r).project) <= SlotsUsed(c, s, c.Spec(r).project)
  {
    forall t | t in s2.tasks && t.run == r ensures s2.tasks[t].status != Running {
      assert t == TaskId(r, t.key);
    }
    SubsetSize(SlotTasks(c, s2.runs, s2.tasks, c.Spec(r).project), SlotTasks(c, s.runs, s.tasks, c.Spec(r).project));
  }

  lemma StartAcceptedLive(c: Config, s: State, s1: State, s2: State, r: RunId)
    requires Inv(c, s2) && r in c.specs && Planned(c, r)
    requires r in s.runs && s.runs[r] == RunPending && s2.runs == s.runs[r := RunRunning]
    requires SameOutside(s.tasks, s2.tasks, r) && Complete(c, s2.tasks, r) && Clean(c, s2.tasks, r)
    requires JustStarted(c, s1, s2.tasks, r)
    requires SlotsUsed(c, s, c.Spec(r).project) < c.Spec(r).limit
    ensures var s' := ScheduleReady(c, s2, r, c.Spec(r).limit);
      !Stranded(c, s'.runs, s'.tasks, r) && OthersSame(s2, s', r)
  {
    hide QueueOk, RowsOk, MessagesOk, LogOk, StatusOk, CapacityOk, CleanOk, Clean, Complete, OthersSame, LoopFrame;
    hide ScheduleReady, SomeRow, Executable, SlotTasks, AllSelected, JustStarted, LimitOk;
    LimitAtLeastOne(c, r);
    ScheduleReadyFrame(c, s2, r, c.Spec(r).limit);
    LoopFrameOthers(s2, ScheduleReady(c, s2, r, c.Spec(r).limit), r);
    JustStartedFacts(c, s1, s2.tasks, r);
    StartSlots(c, s, s2, r);
    var k := ReadyExists(c, s2.tasks, r);
    ScheduleReadyDispatches(c, s2, r, c.Spec(r).limit, k);
  }

  /** A run that starts below its limit has a task under way at once. */
  lemma StartRunLive(c: Config, s: State)
    requires Inv(c, s) && s.runQueue != [] && s.runs[s.runQueue[0]] == RunPending
    requires var r := s.runQueue[0]; Planned(c, r) && SlotsUsed(c, s, c.Spec(r).project) < c.Spec(r).limit
    ensures var s' := StartRun(c, s.(runQueue := s.runQueue[1..]), s.runQueue[0]);
      !Stranded(c, s'.runs, s'.tasks, s.runQueue[0])
  {
    hide QueueOk, RowsOk, MessagesOk, LogOk, StatusOk, CapacityOk, CleanOk, CleanExcept, Clean, Complete, Planned;
    hide ScheduleReady, InitRows, GateAccepts, SomeRow, InitialStatus, SlotTasks, AllSelected, Stranded, OthersSame;
    hide SameOutside;
    var r := s.runQueue[0];
    var s0 := s.(runQueue := s.runQueue[1..]);
    var s1 := TransitionRun(s0, r, RunRunning);
    var s2 := Started(c, s0, r);
    QueuedHasNoRows(c, s);
    StartedKeeps(c, s);
    StartedOthers(c, s);
    CompleteRows(c, s2.tasks, r);
    if GateAccepts(c, s1, r) {
      AcceptedIsClean(c, s1, s2.tasks, r);
      CleanTogether(c, s2.runs, s2.tasks, r);
      KnownRun(c, s, r);
      StartAcceptedLive(c, s, s1, s2, r);
    } else {
      FailedNotStranded(c, s2, r);
    }
  }

  lemma ConsumeOwn(c: Config, s: State, r: RunId)
    requires Inv(c, s) && s.runQueue != [] && s.runQueue[0] == r && Planned(c, r)
    ensures !Stranded(c, Consume(c, s).runs, Consume(c, s).tasks, r)
  {
    hide QueueOk, RowsOk, MessagesOk, LogOk, StatusOk, CapacityOk, CleanOk, Outstanding, StartRun, Planned, SlotTasks, SomeRow;
    hide CancelTasks;
    QueuedHasNoRows(c, s);
    var s0 := s.(runQueue := s.runQueue[1..]);
    if IsCancelled(s0, r) {
      CancelElsewhere(c, s0, r, r);
    } else if SlotsUsed(c, s0, c.Spec(r).project) < c.Spec(r).limit {
      StartRunLive(c, s);
    }
  }

  // ----- all steps -----

  lemma NextKeepsLive(c: Config, s: State, step: Step, r: RunId)
    requires Inv(c, s) && !Stranded(c, s.runs, s.tasks, r)
    requires r in c.specs && OneLimit(c, c.specs[r].project) && Planned(c, r)
    ensures !Stranded(c, Next(c, s, step).runs, Next(c, s, step).tasks, r)
  {
    hide Inv, OneLimit, Executable, Consume, Handle, Take, Finish, CancelTasks, SubmitRun, FinishCancel, SomeRow;
    if !Concerns(s, step, r) {
      UnconcernedSame(c, s, step, r);
    } else if step.ConsumeRun? {
      ConsumeOwn(c, s, r);
    } else if step.HandleDone? {
      HandleKeepsLive(c, s, r);
    }
  }

  /**
   A run whose plan is executable and whose project has one limit is never stranded,
   whatever the plans and limits of the other projects are.
  */
  lemma {:induction false} NoRunIsStranded(c: Config, steps: seq<Step>, r: RunId)
    requires !c.external && r in c.specs && OneLimit(c, c.specs[r].project) && Planned(c, r)
    ensures !Stranded(c, Execute(c, steps).runs, Execute(c, steps).tasks, r)
  {
    hide Inv, OneLimit, Planned, Next;
    if steps != [] {
      var before := steps[..|steps| - 1];
      ReachableInv(c, before);
      NoRunIsStranded(c, before, r);
      NextKeepsLive(c, Execute(c, before), steps[|steps| - 1], r);
    }
  }
}
