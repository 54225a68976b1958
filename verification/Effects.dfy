/**
 What the steps do to single rows, runs, slots and queues, with every status written out.
*/
module Effects {
  import opened BlockedTasks
  import opened DispatchRound
  import opened Invariant
  import opened KeyOrder
  import opened Messages
  import opened Progress
  import opened Protocol
  import opened Safety
  import Guarantees

  // ----- rows -----

  /** The pairs of statuses between which runs and tasks may change. */
  lemma TransitionTables(a: RunStatus, b: RunStatus, x: TaskStatus, y: TaskStatus)
    ensures RunAllowed(a, b) <==> (a, b) in {
      (RunPending, RunRunning), (RunPending, RunFailed), (RunPending, RunCancelled),
      (RunRunning, RunSuccess), (RunRunning, RunFailed), (RunRunning, RunCancelled),
      (RunFailed, RunRunning)}
    ensures TaskAllowed(x, y) <==> (x, y) in {
      (Pending, Running), (Pending, Queued), (Pending, Failed), (Pending, Success), (Pending, Cancelled),
      (Queued, Running), (Queued, Failed), (Queued, Cancelled),
      (Running, Success), (Running, Failed), (Running, Pending), (Running, Cancelled),
      (Failed, Retry),
      (Retry, Running), (Retry, Queued), (Retry, Cancelled)}
  {
  }

  /** A row is inserted if there is none, changed if the table allows it, and otherwise left alone with its attempt. */
  lemma RowUpdate(rows: Rows, t: TaskId, to: TaskStatus, attempt: int, u: TaskId)
    ensures var rows' := UpsertRow(rows, t, to, attempt);
      && (t !in rows ==> rows'[t] == TaskRow(to, attempt))
      && (t in rows && rows[t].status != to && TaskAllowed(rows[t].status, to) ==> rows'[t] == TaskRow(to, attempt))
      && (t in rows && (rows[t].status == to || !TaskAllowed(rows[t].status, to)) ==> rows' == rows)
      && (u != t ==> (u in rows' <==> u in rows) && (u in rows ==> rows'[u] == rows[u]))
  {
    hide TaskAllowed;
  }

  /** Cancelling a run's tasks: all open rows, or only those that wait to be dispatched, become CANCELLED and keep their attempt. */
  lemma CancelledRows(s: State, r: RunId, onlyPendingLike: bool, t: TaskId)
    requires t in s.tasks
    ensures var s' := CancelTasks(s, r, onlyPendingLike); var row := s.tasks[t];
      && s' == s.(tasks := s'.tasks) && s'.tasks.Keys == s.tasks.Keys
      && s'.tasks[t] ==
           if t.run == r && (row.status in {Pending, Queued, Retry} || (row.status == Running && !onlyPendingLike))
           then TaskRow(Cancelled, row.attempt) else row
  {
  }

  // ----- slots -----

  /** The slots of a project: its RUNNING tasks, in external mode also its QUEUED ones, in runs that are PENDING or RUNNING. */
  lemma SlotsAre(c: Config, s: State, project: string)
    ensures SlotsUsed(c, s, project)
            == |set t | t in s.tasks && t.run in s.runs && (s.runs[t.run] == RunPending || s.runs[t.run] == RunRunning)
                        && c.Spec(t.run).project == project
                        && (s.tasks[t].status == Running || (c.external && s.tasks[t].status == Queued))|
  {
    assert SlotTasks(c, s.runs, s.tasks, project)
           == set t | t in s.tasks && t.run in s.runs && (s.runs[t.run] == RunPending || s.runs[t.run] == RunRunning)
                      && c.Spec(t.run).project == project
                      && (s.tasks[t].status == Running || (c.external && s.tasks[t].status == Queued));
  }

  // ----- dispatch -----

  /** A dispatch pushes its message behind all messages of its own or a higher priority and before all of a lower one. */
  lemma PushedInOrder(s: State, priority: Priority, m: Msg)
    ensures var s' := Push(s, priority, m);
      var waiting := s.high + s.normal + s.low;
      var place := match priority case High => |s.high| case Normal => |s.high| + |s.normal| case Low => |waiting|;
      && s'.high + s'.normal + s'.low == waiting[..place] + [m] + waiting[place..]
      && |s'.high| - |s.high| == (if priority == High then 1 else 0)
      && |s'.low| - |s.low| == (if priority == Low then 1 else 0)
      && s' == s.(high := s'.high, normal := s'.normal, low := s'.low, log := s.log + [m])
  {
    match priority
    case High => SplitAfter(s.high, s.normal + s.low, m);
    case Normal => SplitAfter(s.high + s.normal, s.low, m);
    case Low => SplitAfter(s.high + s.normal + s.low, [], m);
  }

  lemma SplitAfter(a: seq<Msg>, b: seq<Msg>, m: Msg)
    ensures (a + b)[..|a|] + [m] + (a + b)[|a|..] == a + [m] + b
  {
  }

  /** The executor takes the first waiting message, and waits if there is none. */
  lemma TakenInOrder(s: State)
    ensures var s' := Take(s);
      var waiting := s.high + s.normal + s.low;
      && (waiting == [] ==> s' == s)
      && (waiting != [] ==>
           && s'.high + s'.normal + s'.low == waiting[1..]
           && |s'.high| == (if s.high != [] then |s.high| - 1 else 0)
           && |s'.low| == (if s.high == [] && s.normal == [] then |s.low| - 1 else |s.low|)
           && s' == s.(high := s'.high, normal := s'.normal, low := s'.low, inFlight := s.inFlight + multiset{waiting[0]}))
  {
    if s.high != [] {
      FirstOf(s.high, s.normal + s.low);
    } else if s.normal != [] {
      FirstOf(s.normal, s.low);
    }
    assert s.high + s.normal + s.low == s.high + (s.normal + s.low);
  }

  lemma FirstOf(a: seq<Msg>, b: seq<Msg>)
    requires a != []
    ensures (a + b)[0] == a[0] && (a + b)[1..] == a[1..] + b
  {
  }

  /** In internal mode, and for HTTP tasks in both modes, a task becomes RUNNING and its message is pushed, whatever its row allowed. */
  lemma EnqueuedInternally(c: Config, s: State, t: TaskId, attempt: int)
    requires !c.external || t.key in c.Spec(t.run).http
    ensures var (s', ok) := Enqueue(c, s, t, attempt);
      && ok
      && s' == Push(s.(tasks := s'.tasks), c.Spec(t.run).priority, Msg(t, attempt))
      && s'.tasks == if t !in s.tasks || s.tasks[t].status in {Pending, Queued, Retry} then s.tasks[t := TaskRow(Running, attempt)]
                     else s.tasks
  {
    hide Push;
    PushKeepsRows(Upsert(s, t, Running, attempt), c.Spec(t.run).priority, Msg(t, attempt));
  }

  lemma PushKeepsRows(s: State, priority: Priority, m: Msg)
    ensures Push(s, priority, m).tasks == s.tasks
  {
  }

  /** For an external worker no message is pushed: with a plugin the task waits as QUEUED, without one it fails at once. */
  lemma EnqueuedExternally(c: Config, s: State, t: TaskId, attempt: int)
    requires c.external && t.key !in c.Spec(t.run).http
    ensures var (s', ok) := Enqueue(c, s, t, attempt);
      && (ok <==> t.key in c.Spec(t.run).plugins)
      && s' == s.(tasks := s'.tasks)
      && (t !in s.tasks || s.tasks[t].status in {Pending, Retry} ==>
           s'.tasks == s.tasks[t := TaskRow(if ok then Queued else Failed, attempt)])
      && (t in s.tasks && s.tasks[t].status in {Queued, Running} ==>
           s'.tasks == if ok then s.tasks else s.tasks[t := TaskRow(Failed, attempt)])
      && (t in s.tasks && s.tasks[t].status in {Success, Failed, Cancelled} ==> s'.tasks == s.tasks)
  {
  }

  /** The tasks that a round may dispatch, in the order in which it visits them: PENDING, with every dependency SUCCESS. */
  lemma ReadyInOrder(c: Config, rows: Rows, r: RunId, k: Key)
    ensures var ready := ReadyKeys(c, rows, r, SortedKeys(c.Spec(r).Selected()));
      && Ascending(ready)
      && (k in ready <==>
           && k in c.Spec(r).Selected()
           && (TaskId(r, k) in rows ==> rows[TaskId(r, k)].status == Pending)
           && forall d :: d in c.Spec(r).plan[k] ==> TaskId(r, d) in rows && rows[TaskId(r, d)].status == Success)
  {
    hide Ready;
    ReadyKeysFilter(c, rows, r, SortedKeys(c.Spec(r).Selected()), k);
    ReadyMeans(c, rows, r, k);
  }

  lemma ReadyMeans(c: Config, rows: Rows, r: RunId, k: Key)
    ensures Ready(c, rows, r, k) <==>
      && (TaskId(r, k) in rows ==> rows[TaskId(r, k)].status == Pending)
      && forall d :: d in c.Spec(r).Deps(k) ==> TaskId(r, d) in rows && rows[TaskId(r, d)].status == Success
  {
    if Ready(c, rows, r, k) {
      forall d | d in c.Spec(r).Deps(k) ensures TaskId(r, d) in rows && rows[TaskId(r, d)].status == Success {
        assert Lookup(rows, r, d).status == Success;
      }
    }
  }

  lemma {:induction false} ReadyKeysFilter(c: Config, rows: Rows, r: RunId, keys: seq<Key>, k: Key)
    requires Ascending(keys)
    ensures var ready := ReadyKeys(c, rows, r, keys);
      && Ascending(ready) && (k in ready <==> k in keys && Ready(c, rows, r, k))
      && forall x :: x in ready ==> x in keys
    decreases keys
  {
    hide Ready, LexLe;
    if keys != [] {
      ReadyKeysFilter(c, rows, r, keys[1..], k);
      var rest := ReadyKeys(c, rows, r, keys[1..]);
      assert keys == [keys[0]] + keys[1..];
      forall j | 0 <= j < |rest| ensures rest[j] != keys[0] && LexLe(keys[0], rest[j]) {
        assert rest[j] in keys[1..];
      }
    }
  }

  /** Expired leases: in external mode the RUNNING tasks among them are PENDING again, and each run is scheduled once more in turn. */
  lemma LeasesExpire(c: Config, s: State, expired: set<TaskId>, runs: seq<RunId>, r: RunId)
    ensures !c.external ==> ReapLeases(c, s, expired, runs) == s
    ensures c.external ==>
      && ReapLeases(c, s, expired, []).runs == s.runs && ReapLeases(c, s, expired, []).tasks.Keys == s.tasks.Keys
      && (forall t :: t in s.tasks ==>
           ReapLeases(c, s, expired, []).tasks[t]
           == if t in expired && s.tasks[t].status == Running then TaskRow(Pending, s.tasks[t].attempt) else s.tasks[t])
      && ReapLeases(c, s, expired, runs + [r])
         == ScheduleReady(c, ReapLeases(c, s, expired, runs), r, if c.Spec(r).limit == 0 then 1 else c.Spec(r).limit)
  {
    hide ScheduleReady;
    RescheduleLast(c, ExpireLeases(s, expired), runs, r);
  }

  lemma {:induction false} RescheduleLast(c: Config, s: State, runs: seq<RunId>, r: RunId)
    ensures RescheduleAll(c, s, runs + [r]) == ScheduleReady(c, RescheduleAll(c, s, runs), r, ReapLimit(c.Spec(r)))
    decreases |runs|
  {
    hide ScheduleReady, ReapLimit;
    if runs == [] {
      assert runs + [r] == [r] && [r][1..] == [];
    } else {
      var s1 := ScheduleReady(c, s, runs[0], ReapLimit(c.Spec(runs[0])));
      assert (runs + [r])[1..] == runs[1..] + [r];
      RescheduleLast(c, s1, runs[1..], r);
    }
  }

  // ----- the run queue -----

  /**
   The message at the head: of a cancelled run it is dropped, at the limit it goes to the
   tail, otherwise the run starts. A new run is PENDING and its message goes to the tail.
  */
  lemma RunMessagesInOrder(c: Config, s: State, r: RunId, rest: seq<RunId>, q: RunId)
    requires s.runQueue == [r] + rest
    ensures var spec := c.Spec(r); var cancelled := r in s.runs && s.runs[r] == RunCancelled;
      && (cancelled ==> Consume(c, s) == CancelTasks(s.(runQueue := rest), r, false))
      && (!cancelled && SlotsUsed(c, s, spec.project) >= spec.limit ==> Consume(c, s) == s.(runQueue := rest + [r]))
      && (!cancelled && SlotsUsed(c, s, spec.project) < spec.limit ==> Consume(c, s) == StartRun(c, s.(runQueue := rest), r))
    ensures q in c.specs && q !in s.runs ==> SubmitRun(c, s, q) == s.(runs := s.runs[q := RunPending], runQueue := [r] + rest + [q])
    ensures q !in c.specs || q in s.runs ==> SubmitRun(c, s, q) == s
  {
    hide StartRun, SlotTasks, CancelTasks;
    assert s.runQueue[1..] == rest;
  }

  // ----- synchronising a run -----

  /**
   The rows after a synchronisation: a selected task that is PENDING, or has no row yet, is
   CANCELLED iff one of the tasks it depends on is FAILED or CANCELLED; no other row changes.
  */
  lemma SyncRows(c: Config, s: State, r: RunId, t: TaskId)
    ensures var rows, after := s.tasks, SyncRun(c, s, r).tasks;
      if t.run == r && t.key in c.Spec(r).Selected() && (t in rows ==> rows[t].status == Pending)
         && exists d :: d in c.Spec(r).plan[t.key] && TaskId(r, d) in rows
                        && (rows[TaskId(r, d)].status == Failed || rows[TaskId(r, d)].status == Cancelled)
      then t in after && after[t] == TaskRow(Cancelled, if t in rows then rows[t].attempt else 1)
      else (t in after <==> t in rows) && (t in rows ==> after[t] == rows[t])
  {
    hide CancelBlocked, Blocked, AllSelected, AnySelected, TransitionRun;
    var keys := SortedKeys(c.Spec(r).Selected());
    LoopCancels(c, s, r, keys, s.tasks, t);
    BlockedIff(c, s.tasks, r, t.key);
    SyncIs(c, s, r);
  }

  lemma SyncIs(c: Config, s: State, r: RunId)
    ensures SyncRun(c, s, r).tasks == CancelBlocked(c, s, r, SortedKeys(c.Spec(r).Selected()), s.tasks).tasks
  {
    hide CancelBlocked, AllSelected, AnySelected;
  }

  /**
   The runs after a synchronisation: a RUNNING run whose selected tasks all were SUCCESS is
   SUCCESS; a PENDING or RUNNING run with a selected task that was FAILED is FAILED.
  */
  lemma SyncStatus(c: Config, s: State, r: RunId)
    ensures var rows, selected := s.tasks, c.Spec(r).Selected();
      var all := selected != {} && forall k :: k in selected ==> TaskId(r, k) in rows && rows[TaskId(r, k)].status == Success;
      var some := exists k :: k in selected && TaskId(r, k) in rows && rows[TaskId(r, k)].status == Failed;
      SyncRun(c, s, r).runs
      == if r in s.runs && s.runs[r] == RunRunning && all then s.runs[r := RunSuccess]
         else if r in s.runs && s.runs[r] in {RunPending, RunRunning} && some then s.runs[r := RunFailed]
         else s.runs
  {
    AllMeans(c, s.tasks, r);
    SomeMeans(c, s.tasks, r);
    SyncRuns(c, s, r);
    hide SyncRun, AnySelected;
    if AllSelected(c, s.tasks, r, Success) {
      AllSelectedNoneFailed(c, s.tasks, r);
    }
  }

  lemma SyncRuns(c: Config, s: State, r: RunId)
    ensures SyncRun(c, s, r).runs
            == if c.Spec(r).Selected() != {} && AllSelected(c, s.tasks, r, Success) then
                 if r in s.runs && s.runs[r] == RunRunning then s.runs[r := RunSuccess] else s.runs
               else if AnySelected(c, s.tasks, r, Failed) then
                 if r in s.runs && s.runs[r] in {RunPending, RunRunning} then s.runs[r := RunFailed] else s.runs
               else s.runs
  {
    hide CancelBlocked, AllSelected, AnySelected, TransitionRun;
    var s1 := CancelBlocked(c, s, r, SortedKeys(c.Spec(r).Selected()), s.tasks);
    CancelBlockedChannels(c, s, r, SortedKeys(c.Spec(r).Selected()), s.tasks);
    TransitionRuns(s1, r);
  }

  lemma TransitionRuns(s: State, r: RunId)
    ensures TransitionRun(s, r, RunSuccess).runs
            == if r in s.runs && s.runs[r] == RunRunning then s.runs[r := RunSuccess] else s.runs
    ensures TransitionRun(s, r, RunFailed).runs
            == if r in s.runs && s.runs[r] in {RunPending, RunRunning} then s.runs[r := RunFailed] else s.runs
  {
  }

  lemma AllMeans(c: Config, rows: Rows, r: RunId)
    ensures AllSelected(c, rows, r, Success)
            <==> forall k :: k in c.Spec(r).Selected() ==> TaskId(r, k) in rows && rows[TaskId(r, k)].status == Success
  {
    if AllSelected(c, rows, r, Success) {
      forall k | k in c.Spec(r).Selected() ensures TaskId(r, k) in rows && rows[TaskId(r, k)].status == Success {
        assert Lookup(rows, r, k).status == Success;
      }
    }
  }

  lemma SomeMeans(c: Config, rows: Rows, r: RunId)
    ensures AnySelected(c, rows, r, Failed)
            <==> exists k :: k in c.Spec(r).Selected() && TaskId(r, k) in rows && rows[TaskId(r, k)].status == Failed
  {
    if k :| k in c.Spec(r).Selected() && TaskId(r, k) in rows && rows[TaskId(r, k)].status == Failed {
      assert Lookup(rows, r, k).status == Failed;
    }
  }

  // ----- reports -----

  /** A report goes to the tail of the done queue, once for each message an executor holds. */
  lemma ReportedAtTail(s: State, m: Msg, ok: bool)
    ensures Finish(s, m, ok)
            == if s.inFlight[m] > 0 then s.(inFlight := s.inFlight[m := s.inFlight[m] - 1], done := s.done + [Done(m, ok)]) else s
  {
    assert m in s.inFlight ==> s.inFlight - multiset{m} == s.inFlight[m := s.inFlight[m] - 1];
  }

  /**
   A failure that used up its retry budget, three attempts where the task has none of its
   own: every selected PENDING task that depends on the failed one is CANCELLED.
  */
  lemma FailureCancelsDependents(c: Config, s: State, k: Key)
    requires Inv(c, s) && s.done != [] && !s.done[0].ok
    requires var m := s.done[0].msg; var spec := c.Spec(m.task.run);
      && m.attempt >= (if m.task.key in spec.maxAttempts then spec.maxAttempts[m.task.key] else 3)
      && k in spec.Selected() && m.task.key in spec.plan[k]
      && TaskId(m.task.run, k) in s.tasks && s.tasks[TaskId(m.task.run, k)].status == Pending
    ensures var r := s.done[0].msg.task.run; var s' := Handle(c, s);
      && TaskId(r, k) in s'.tasks && s'.tasks[TaskId(r, k)] == TaskRow(Cancelled, s.tasks[TaskId(r, k)].attempt)
  {
    hide Inv, SyncRun, Handle, Outstanding;
    var m := s.done[0].msg;
    var r, t := m.task.run, TaskId(m.task.run, k);
    HeadMessage(c, s);
    var s1 := Upsert(s.(done := s.done[1..]), m.task, Failed, m.attempt).(dlq := s.dlq + [m]);
    Guarantees.ExhaustedIs(c, s);
    HeadFails(s.tasks, s.log, m);
    assert m.task != t;
    SyncRows(c, s1, r, t);
  }

  /** The row of a task whose failure is recorded: FAILED, or CANCELLED as before. */
  lemma HeadFails(tasks: Rows, log: seq<Msg>, m: Msg)
    requires MessageOk(tasks, log, m)
    ensures m.task in tasks && tasks[m.task].status in {Running, Cancelled}
    ensures UpsertRow(tasks, m.task, Failed, m.attempt)
            == if tasks[m.task].status == Running then tasks[m.task := TaskRow(Failed, m.attempt)] else tasks
  {
  }

  /** The same failure makes the task's own row FAILED, unless it was CANCELLED, and a RUNNING run FAILED. */
  lemma FailureEndsRun(c: Config, s: State)
    requires Inv(c, s) && s.done != [] && !s.done[0].ok
    requires var m := s.done[0].msg; var spec := c.Spec(m.task.run);
      m.attempt >= (if m.task.key in spec.maxAttempts then spec.maxAttempts[m.task.key] else 3)
    ensures var m := s.done[0].msg; var s' := Handle(c, s);
      && m.task in s.tasks && m.task in s'.tasks
      && s'.tasks[m.task] == (if s.tasks[m.task].status == Running then TaskRow(Failed, m.attempt) else s.tasks[m.task])
      && s'.runs == (if s.runs[m.task.run] == RunRunning then s.runs[m.task.run := RunFailed] else s.runs)
      && s'.dlq == s.dlq + [m] && s'.log == s.log
  {
    hide Inv, SyncRun, Handle, Outstanding;
    var m := s.done[0].msg;
    var s1 := Upsert(s.(done := s.done[1..]), m.task, Failed, m.attempt).(dlq := s.dlq + [m]);
    HeadMessage(c, s);
    Guarantees.ExhaustedIs(c, s);
    HeadFails(s.tasks, s.log, m);
    SyncRows(c, s1, m.task.run, m.task);
    SyncStatus(c, s1, m.task.run);
    SyncChannels(c, s1, m.task.run);
  }

  lemma SyncChannels(c: Config, s: State, r: RunId)
    ensures SyncRun(c, s, r).dlq == s.dlq && SyncRun(c, s, r).log == s.log
  {
    hide CancelBlocked, AllSelected, AnySelected;
    CancelBlockedChannels(c, s, r, SortedKeys(c.Spec(r).Selected()), s.tasks);
    CancelBlockedLetters(c, s, r, SortedKeys(c.Spec(r).Selected()), s.tasks);
  }

  lemma {:induction false} CancelBlockedLetters(c: Config, s: State, r: RunId, keys: seq<Key>, rows: Rows)
    ensures CancelBlocked(c, s, r, keys, rows).dlq == s.dlq
    decreases keys
  {
    hide Blocked, UpsertRow;
    if keys != [] {
      CancelBlockedLetters(c, Upsert(s, TaskId(r, keys[0]), Cancelled, Lookup(rows, r, keys[0]).attempt), r, keys[1..], rows);
      CancelBlockedLetters(c, s, r, keys[1..], rows);
    }
  }

  // ----- tasks without a plugin in external mode -----

  lemma EnqueueFails(c: Config, s: State, t: TaskId, attempt: int, u: TaskId)
    requires Enqueue(c, s, t, attempt).1
    ensures var after := Enqueue(c, s, t, attempt).0.tasks;
      u in after && after[u].status == Failed ==> u in s.tasks && s.tasks[u].status == Failed
  {
    if IsExternal(c, t) {
      EnqueuedExternally(c, s, t, attempt);
    } else {
      EnqueuedInternally(c, s, t, attempt);
      PushKeepsRows(s.(tasks := Enqueue(c, s, t, attempt).0.tasks), c.Spec(t.run).priority, Msg(t, attempt));
    }
  }

  /** A loop that reports no failed enqueue leaves no task newly FAILED. */
  lemma {:induction false} LoopWithoutFailure(
      c: Config, s: State, r: RunId, limit: int, keys: seq<Key>, rows: Rows, failed: bool, u: TaskId)
    requires !ScheduleLoop(c, s, r, limit, keys, rows, failed).1
    ensures !failed
    ensures var after := ScheduleLoop(c, s, r, limit, keys, rows, failed).0.tasks;
      u in after && after[u].status == Failed ==> u in s.tasks && s.tasks[u].status == Failed
    decreases keys
  {
    hide Ready, SlotsUsed, Enqueue, Lookup;
    if keys == [] {
    } else if !Ready(c, rows, r, keys[0]) {
      LoopWithoutFailure(c, s, r, limit, keys[1..], rows, failed, u);
    } else if SlotsUsed(c, s, c.Spec(r).project) < limit {
      var t, attempt := TaskId(r, keys[0]), Lookup(rows, r, keys[0]).attempt;
      var (s1, ok) := Enqueue(c, s, t, attempt);
      LoopWithoutFailure(c, s1, r, limit, keys[1..], rows, failed || !ok, u);
      EnqueueFails(c, s, t, attempt, u);
    }
  }

  lemma {:induction false} LoopKeepsRuns(c: Config, s: State, r: RunId, limit: int, keys: seq<Key>, rows: Rows, failed: bool)
    ensures ScheduleLoop(c, s, r, limit, keys, rows, failed).0.runs == s.runs
    decreases keys
  {
    hide Ready, SlotsUsed, Enqueue, Lookup;
    if keys == [] {
    } else if !Ready(c, rows, r, keys[0]) {
      LoopKeepsRuns(c, s, r, limit, keys[1..], rows, failed);
    } else if SlotsUsed(c, s, c.Spec(r).project) < limit {
      var t, attempt := TaskId(r, keys[0]), Lookup(rows, r, keys[0]).attempt;
      var (s1, ok) := Enqueue(c, s, t, attempt);
      EnqueueFrame(c, s, t, attempt);
      LoopKeepsRuns(c, s1, r, limit, keys[1..], rows, failed || !ok);
    }
  }

  /** A RUNNING run one of whose tasks cannot be given to a worker in a round is FAILED after that round. */
  lemma FailedEnqueueFailsRun(c: Config, s: State, r: RunId, limit: int, k: Key)
    requires r in s.runs && s.runs[r] == RunRunning && k in c.Spec(r).Selected()
    requires TaskId(r, k) in s.tasks ==> s.tasks[TaskId(r, k)].status != Failed
    requires var after := ScheduleReady(c, s, r, limit).tasks; TaskId(r, k) in after && after[TaskId(r, k)].status == Failed
    ensures ScheduleReady(c, s, r, limit).runs == s.runs[r := RunFailed]
  {
    hide ScheduleLoop, SyncRun, CancelTasks;
    var keys := SortedKeys(c.Spec(r).Selected());
    var (s1, failed) := ScheduleLoop(c, s, r, limit, keys, s.tasks, false);
    LoopKeepsRuns(c, s, r, limit, keys, s.tasks, false);
    if !failed {
      LoopWithoutFailure(c, s, r, limit, keys, s.tasks, false, TaskId(r, k));
    }
    SyncRows(c, s1, r, TaskId(r, k));
    SyncStatus(c, s1, r);
  }

  /** A retry that no worker can take fails the task with its next attempt, and its run. */
  lemma RetryWithoutPlugin(c: Config, s: State)
    requires c.external && s.done != [] && !s.done[0].ok
    requires var m := s.done[0].msg; var spec := c.Spec(m.task.run);
      && m.attempt < (if m.task.key in spec.maxAttempts then spec.maxAttempts[m.task.key] else 3)
      && m.task.key !in spec.http && m.task.key !in spec.plugins && m.task.key in spec.Selected()
      && m.task in s.tasks && s.tasks[m.task].status == Running
      && m.task.run in s.runs && s.runs[m.task.run] == RunRunning
    ensures var m := s.done[0].msg; var s' := Handle(c, s);
      && m.task in s'.tasks && s'.tasks[m.task] == TaskRow(Failed, m.attempt + 1)
      && s'.runs == s.runs[m.task.run := RunFailed] && s'.log == s.log
  {
    hide SyncRun;
    var m := s.done[0].msg;
    var s2 := s.(done := s.done[1..], tasks := s.tasks[m.task := TaskRow(Failed, m.attempt + 1)]);
    RetryFailsRows(s.tasks, m.task, m.attempt);
    assert Handle(c, s) == SyncRun(c, s2, m.task.run);
    SyncRows(c, s2, m.task.run, m.task);
    SyncStatus(c, s2, m.task.run);
    SyncChannels(c, s2, m.task.run);
  }

  lemma RetryFailsRows(rows: Rows, t: TaskId, attempt: int)
    requires t in rows && rows[t].status == Running
    ensures UpsertRow(UpsertRow(UpsertRow(UpsertRow(rows, t, Failed, attempt), t, Retry, attempt + 1), t, Queued, attempt + 1),
                      t, Failed, attempt + 1)
            == rows[t := TaskRow(Failed, attempt + 1)]
  {
  }
}
