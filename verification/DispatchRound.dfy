/**
 One round of dispatching: which tasks it picks in internal mode, and that it never
 exceeds the limit it was given, in either execution mode and from any state.
*/
module DispatchRound {
  import opened Invariant
  import opened KeyOrder
  import Progress
  import opened Protocol
  import opened RetryPolicy

  // ----- which tasks are picked -----

  /** The keys that the snapshot allows to dispatch, in the order in which they are visited. */
  function ReadyKeys(c: Config, rows: Rows, r: RunId, keys: seq<Key>): (ready: seq<Key>)
    ensures |ready| <= |keys|
  {
    if keys == [] then []
    else (if Ready(c, rows, r, keys[0]) then [keys[0]] else []) + ReadyKeys(c, rows, r, keys[1..])
  }

  /** How many of `n` ready tasks fit: a run that does not count against the limit is not held back by its own tasks. */
  function Fitting(n: nat, counted: bool, used: nat, limit: int): (k: nat)
    ensures k <= n
  {
    if used >= limit then 0
    else if !counted || n <= limit - used then n
    else limit - used
  }

  function FirstMessages(r: RunId, keys: seq<Key>): (ms: seq<Msg>)
    ensures |ms| == |keys|
  {
    seq(|keys|, i requires 0 <= i < |keys| => Msg(TaskId(r, keys[i]), 1))
  }

  lemma FirstMessagesCons(r: RunId, k: Key, keys: seq<Key>)
    ensures FirstMessages(r, [k] + keys) == [Msg(TaskId(r, k), 1)] + FirstMessages(r, keys)
  {
  }

  lemma {:induction false} LoopPicks(c: Config, s: State, r: RunId, limit: int, keys: seq<Key>, rows: Rows)
    requires !c.external && Fresh(c, s.tasks, r, keys, rows) && RowsOk(c, rows)
    ensures var ready := ReadyKeys(c, rows, r, keys);
      var p := c.Spec(r).project;
      var n := Fitting(|ready|, Counted(c, s.runs, r, p), SlotsUsed(c, s, p), limit);
      ScheduleLoop(c, s, r, limit, keys, rows, false).0.log == s.log + FirstMessages(r, ready[..n])
    decreases keys
  {
    hide Fresh, RowsOk, SlotTasks, Counted, Ready;
    if keys == [] {
    } else if !Ready(c, rows, r, keys[0]) {
      FreshTail(c, s.tasks, r, keys, rows);
      LoopPicks(c, s, r, limit, keys[1..], rows);
    } else if SlotsUsed(c, s, c.Spec(r).project) < limit {
      LoopPicksFirst(c, s, r, limit, keys, rows);
    }
  }

  /** The loop dispatches its first key and goes on. */
  lemma LoopStep(c: Config, s: State, r: RunId, limit: int, keys: seq<Key>, rows: Rows)
    requires !c.external && Fresh(c, s.tasks, r, keys, rows) && RowsOk(c, rows)
    requires keys != [] && Ready(c, rows, r, keys[0]) && SlotsUsed(c, s, c.Spec(r).project) < limit
    ensures var t := TaskId(r, keys[0]); var s1 := Dispatch(c, s, t, 1);
      && ScheduleLoop(c, s, r, limit, keys, rows, false) == ScheduleLoop(c, s1, r, limit, keys[1..], rows, false)
      && Fresh(c, s1.tasks, r, keys[1..], rows)
      && s1.runs == s.runs && s1.log == s.log + [Msg(t, 1)]
      && SlotsUsed(c, s1, c.Spec(r).project)
         == SlotsUsed(c, s, c.Spec(r).project) + (if Counted(c, s.runs, r, c.Spec(r).project) then 1 else 0)
  {
    hide Fresh, RowsOk, SlotTasks, Counted;
    var t := TaskId(r, keys[0]);
    FreshTail(c, s.tasks, r, keys, rows);
    Progress.FreshRow(c, s.tasks, r, keys, rows);
    DispatchPending(c, s, t);
    DispatchSlots(c, s.runs, s.tasks, t, c.Spec(r).project);
    FreshAfterUpdate(c, s.tasks, r, keys[1..], rows, keys[0], TaskRow(Running, 1));
  }

  lemma PicksCons(log: seq<Msg>, r: RunId, k: Key, rest: seq<Key>, n: nat)
    requires 1 <= n <= |rest| + 1
    ensures log + [Msg(TaskId(r, k), 1)] + FirstMessages(r, rest[..n - 1]) == log + FirstMessages(r, ([k] + rest)[..n])
  {
    assert ([k] + rest)[..n] == [k] + rest[..n - 1];
    FirstMessagesCons(r, k, rest[..n - 1]);
  }

  lemma {:induction false} LoopPicksFirst(c: Config, s: State, r: RunId, limit: int, keys: seq<Key>, rows: Rows)
    requires !c.external && Fresh(c, s.tasks, r, keys, rows) && RowsOk(c, rows)
    requires keys != [] && Ready(c, rows, r, keys[0]) && SlotsUsed(c, s, c.Spec(r).project) < limit
    ensures var ready := ReadyKeys(c, rows, r, keys);
      var p := c.Spec(r).project;
      var n := Fitting(|ready|, Counted(c, s.runs, r, p), SlotsUsed(c, s, p), limit);
      ScheduleLoop(c, s, r, limit, keys, rows, false).0.log == s.log + FirstMessages(r, ready[..n])
    decreases keys, 0
  {
    hide Fresh, RowsOk, SlotsUsed, Counted, Dispatch, ScheduleLoop, Ready, FirstMessages;
    var k, p := keys[0], c.Spec(r).project;
    LoopStep(c, s, r, limit, keys, rows);
    var s1 := Dispatch(c, s, TaskId(r, k), 1);
    LoopPicks(c, s1, r, limit, keys[1..], rows);
    var rest := ReadyKeys(c, rows, r, keys[1..]);
    hide ReadyKeys;
    PicksCons(s.log, r, k, rest, Fitting(1 + |rest|, Counted(c, s.runs, r, p), SlotsUsed(c, s, p), limit));
  }

  /**
   A dispatch round pushes exactly the first messages of the ready tasks in sorted
   order, as many as the free slots of the project allow.
  */
  lemma RoundPicksFirstReady(c: Config, s: State, r: RunId, limit: int)
    requires Core(c, s) && LimitOk(c, r, limit) && !IsCancelled(s, r) && Complete(c, s.tasks, r)
    ensures var ready := ReadyKeys(c, s.tasks, r, SortedKeys(c.Spec(r).Selected()));
      var p := c.Spec(r).project;
      var n := Fitting(|ready|, Counted(c, s.runs, r, p), SlotsUsed(c, s, p), limit);
      ScheduleReady(c, s, r, limit).log == s.log + FirstMessages(r, ready[..n])
  {
    hide QueueOk, RowsOk, MessagesOk, LogOk, StatusOk, CapacityOk, ScheduleReady, ReadyKeys, FirstMessages, LimitOk;
    hide SlotsUsed, Counted, Fitting, ScheduleLoop, CleanOk;
    ScheduleReadyKeeps(c, s, r, limit);
    LoopPicks(c, s, r, limit, SortedKeys(c.Spec(r).Selected()), s.tasks);
  }

  // ----- the limit, in both modes and from any state -----

  ghost predicate SameBut(a: Rows, b: Rows, t: TaskId) {
    forall u :: u != t ==> (u in a <==> u in b) && (u in a ==> b[u] == a[u])
  }

  lemma UpsertFrame(rows: Rows, t: TaskId, to: TaskStatus, attempt: int)
    ensures SameBut(rows, UpsertRow(rows, t, to, attempt), t)
  {
    hide TaskAllowed;
  }

  lemma SameButTrans(a: Rows, b: Rows, d: Rows, t: TaskId)
    requires SameBut(a, b, t) && SameBut(b, d, t)
    ensures SameBut(a, d, t)
  {
  }

  lemma UpdateSlots(c: Config, runs: Runs, a: Rows, b: Rows, t: TaskId, p: string)
    requires SameBut(a, b, t)
    ensures |SlotTasks(c, runs, b, p)| <= |SlotTasks(c, runs, a, p)| + (if c.Spec(t.run).project == p then 1 else 0)
  {
    if c.Spec(t.run).project == p {
      SubsetSize(SlotTasks(c, runs, b, p), SlotTasks(c, runs, a, p) + {t});
    } else {
      SubsetSize(SlotTasks(c, runs, b, p), SlotTasks(c, runs, a, p));
    }
  }

  /** An enqueue changes at most the row of its task. */
  lemma EnqueueFrame(c: Config, s: State, t: TaskId, attempt: int)
    ensures var s' := Enqueue(c, s, t, attempt).0;
      s'.runs == s.runs && SameBut(s.tasks, s'.tasks, t)
  {
    hide UpsertRow, SameBut;
    UpsertFrame(s.tasks, t, Running, attempt);
    var queued := UpsertRow(s.tasks, t, Queued, attempt);
    UpsertFrame(s.tasks, t, Queued, attempt);
    UpsertFrame(queued, t, Failed, attempt);
    SameButTrans(s.tasks, queued, UpsertRow(queued, t, Failed, attempt), t);
  }

  ghost predicate WithinLimit(c: Config, s: State, s': State, limit: int) {
    forall p :: SlotsUsed(c, s', p) <= Max(SlotsUsed(c, s, p), limit)
  }

  lemma {:induction false} LoopWithinLimit(
      c: Config, s: State, r: RunId, limit: int, keys: seq<Key>, rows: Rows, failed: bool)
    ensures WithinLimit(c, s, ScheduleLoop(c, s, r, limit, keys, rows, failed).0, limit)
    decreases keys
  {
    hide SlotTasks, Ready, Enqueue;
    if keys == [] {
    } else if !Ready(c, rows, r, keys[0]) {
      LoopWithinLimit(c, s, r, limit, keys[1..], rows, failed);
    } else if SlotsUsed(c, s, c.Spec(r).project) < limit {
      var t, attempt := TaskId(r, keys[0]), Lookup(rows, r, keys[0]).attempt;
      var (s1, ok) := Enqueue(c, s, t, attempt);
      EnqueueFrame(c, s, t, attempt);
      forall p {
        UpdateSlots(c, s.runs, s.tasks, s1.tasks, t, p);
      }
      LoopWithinLimit(c, s1, r, limit, keys[1..], rows, failed || !ok);
    }
  }

  lemma FewerSlots(c: Config, s: State, s': State)
    requires forall p :: SlotTasks(c, s'.runs, s'.tasks, p) <= SlotTasks(c, s.runs, s.tasks, p)
    ensures forall p :: SlotsUsed(c, s', p) <= SlotsUsed(c, s, p)
  {
    forall p {
      SubsetSize(SlotTasks(c, s'.runs, s'.tasks, p), SlotTasks(c, s.runs, s.tasks, p));
    }
  }

  lemma CancelRowSlots(c: Config, s: State, t: TaskId, attempt: int)
    ensures forall p :: SlotTasks(c, s.runs, Upsert(s, t, Cancelled, attempt).tasks, p) <= SlotTasks(c, s.runs, s.tasks, p)
  {
  }

  lemma {:induction false} CancelBlockedSlots(c: Config, s: State, r: RunId, keys: seq<Key>, rows: Rows)
    ensures var s' := CancelBlocked(c, s, r, keys, rows);
      && s'.runs == s.runs
      && forall p :: SlotTasks(c, s'.runs, s'.tasks, p) <= SlotTasks(c, s.runs, s.tasks, p)
    decreases keys
  {
    hide SlotTasks, Blocked;
    if keys != [] {
      if Blocked(c, rows, r, keys[0]) {
        var t, attempt := TaskId(r, keys[0]), Lookup(rows, r, keys[0]).attempt;
        CancelRowSlots(c, s, t, attempt);
        CancelBlockedSlots(c, Upsert(s, t, Cancelled, attempt), r, keys[1..], rows);
      } else {
        CancelBlockedSlots(c, s, r, keys[1..], rows);
      }
    }
  }

  lemma TransitionSlots(c: Config, s: State, r: RunId, to: RunStatus)
    requires to in {RunSuccess, RunFailed}
    ensures var s' := TransitionRun(s, r, to);
      forall p :: SlotTasks(c, s'.runs, s'.tasks, p) <= SlotTasks(c, s.runs, s.tasks, p)
  {
  }

  lemma SyncSlots(c: Config, s: State, r: RunId)
    ensures forall p :: SlotsUsed(c, SyncRun(c, s, r), p) <= SlotsUsed(c, s, p)
  {
    hide SlotTasks, CancelBlocked, AllSelected, AnySelected, TransitionRun;
    var keys := SortedKeys(c.Spec(r).Selected());
    var s1 := CancelBlocked(c, s, r, keys, s.tasks);
    CancelBlockedSlots(c, s, r, keys, s.tasks);
    FewerSlots(c, s, s1);
    TransitionSlots(c, s1, r, RunSuccess);
    FewerSlots(c, s1, TransitionRun(s1, r, RunSuccess));
    TransitionSlots(c, s1, r, RunFailed);
    FewerSlots(c, s1, TransitionRun(s1, r, RunFailed));
  }

  lemma CancelTasksSlots(c: Config, s: State, r: RunId)
    ensures forall p :: SlotsUsed(c, CancelTasks(s, r, false), p) <= SlotsUsed(c, s, p)
  {
    FewerSlots(c, s, CancelTasks(s, r, false));
  }

  /**
   From any state, in internal mode (RUNNING tasks) and in external mode (QUEUED and
   RUNNING tasks), one call leaves at most as many slots taken as there were, or the limit.
  */
  lemma RoundWithinLimit(c: Config, s: State, r: RunId, limit: int)
    ensures WithinLimit(c, s, ScheduleReady(c, s, r, limit), limit)
  {
    hide SlotsUsed, ScheduleLoop, SyncRun, CancelTasks;
    if IsCancelled(s, r) {
      CancelTasksSlots(c, s, r);
    } else {
      var keys := SortedKeys(c.Spec(r).Selected());
      LoopWithinLimit(c, s, r, limit, keys, s.tasks, false);
      SyncSlots(c, ScheduleLoop(c, s, r, limit, keys, s.tasks, false).0, r);
    }
  }

  // ----- expired leases of external workers -----

  /** The reaper's UPDATE: RUNNING tasks whose lease has expired are PENDING again. */
  function ExpireLeases(s: State, expired: set<TaskId>): State {
    s.(tasks := map t | t in s.tasks ::
      if t in expired && s.tasks[t].status == Running then s.tasks[t].(status := Pending) else s.tasks[t])
  }

  function ReapLimit(spec: RunSpec): int {
    if spec.limit == 0 then 1 else spec.limit
  }

  ghost function RescheduleAll(c: Config, s: State, runs: seq<RunId>): State
    decreases runs
  {
    if runs == [] then s
    else RescheduleAll(c, ScheduleReady(c, s, runs[0], ReapLimit(c.Spec(runs[0]))), runs[1..])
  }

  /** `_requeue_expired_leases`, for the expired leases and the order of runs the database reports. */
  ghost function ReapLeases(c: Config, s: State, expired: set<TaskId>, runs: seq<RunId>): State {
    if !c.external then s else RescheduleAll(c, ExpireLeases(s, expired), runs)
  }

  lemma {:induction false} RescheduleWithinLimit(c: Config, s: State, runs: seq<RunId>, bound: int)
    requires forall r :: r in runs ==> ReapLimit(c.Spec(r)) <= bound
    ensures WithinLimit(c, s, RescheduleAll(c, s, runs), bound)
    decreases runs
  {
    hide SlotsUsed, ScheduleReady;
    if runs != [] {
      var s1 := ScheduleReady(c, s, runs[0], ReapLimit(c.Spec(runs[0])));
      RoundWithinLimit(c, s, runs[0], ReapLimit(c.Spec(runs[0])));
      RescheduleWithinLimit(c, s1, runs[1..], bound);
    }
  }

  /** Reaping leases never takes more slots than were taken, or the largest limit involved. */
  lemma ReapWithinLimit(c: Config, s: State, expired: set<TaskId>, runs: seq<RunId>, bound: int)
    requires forall r :: r in runs ==> ReapLimit(c.Spec(r)) <= bound
    ensures WithinLimit(c, s, ReapLeases(c, s, expired, runs), bound)
  {
    var s1 := ExpireLeases(s, expired);
    FewerSlots(c, s, s1);
    hide SlotsUsed, RescheduleAll, ExpireLeases, ReapLimit;
    RescheduleWithinLimit(c, s1, runs, bound);
  }
}
