/**
 The dead-letter queue: which tasks end there, when, and how often; and the account of
 every dispatch that follows from it.
*/
module DeadLetters {
  import opened Guarantees
  import opened Invariant
  import opened KeyOrder
  import opened Messages
  import opened Progress
  import opened Protocol
  import opened ReplayRuns
  import opened RetryPolicy
  import opened Safety

  // ----- what pieces of handlers do to tasks that are not PENDING -----

  predicate Begun(tasks: Rows, t: TaskId) {
    t in tasks && tasks[t].status != Pending
  }

  /** Begun tasks stay begun, terminal rows stay as they are. */
  ghost predicate RowsForward(a: Rows, b: Rows) {
    && Settled(a, b)
    && forall t :: Begun(a, t) ==> Begun(b, t)
  }

  /** A row that is FAILED now was FAILED before, unless its task has never been dispatched and was refused by a gate. */
  ghost predicate NoNewFailure(a: Rows, s: State) {
    forall t :: t in s.tasks && s.tasks[t].status == Failed ==>
      (t in a && a[t].status == Failed) || (Attempts(s.log, t) == [] && t in s.blocked)
  }

  /** Begun tasks other than `but` get no attempts and no messages. */
  ghost predicate NoNewAttempts(s: State, s': State, but: set<TaskId>) {
    && (forall t :: Begun(s.tasks, t) && t !in but ==> Attempts(s'.log, t) == Attempts(s.log, t))
    && (forall m :: m in Outstanding(s') && Begun(s.tasks, m.task) && m.task !in but ==> m in Outstanding(s))
  }

  ghost predicate Calm(s: State, s': State, but: set<TaskId>) {
    && s'.dlq == s.dlq
    && s.blocked.Keys <= s'.blocked.Keys
    && RowsForward(s.tasks, s'.tasks)
    && NoNewFailure(s.tasks, s')
    && NoNewAttempts(s, s', but)
  }

  lemma CalmTrans(a: State, b: State, d: State, but: set<TaskId>)
    requires Calm(a, b, but) && Calm(b, d, but)
    requires forall t :: t in but && t in b.tasks ==> b.tasks[t].status != Failed
    ensures Calm(a, d, but)
  {
    hide Outstanding, Attempts, Begun;
    ForwardTrans(a.tasks, b.tasks, d.tasks);
    forall t | t in d.tasks && d.tasks[t].status == Failed
      ensures (t in a.tasks && a.tasks[t].status == Failed) || (Attempts(d.log, t) == [] && t in d.blocked)
    {
      assert t in b.tasks && b.tasks[t].status == Failed ==> Begun(b.tasks, t) by { FailedHasBegun(b.tasks, t); }
    }
  }

  lemma FailedHasBegun(tasks: Rows, t: TaskId)
    ensures t in tasks && tasks[t].status == Failed ==> Begun(tasks, t)
  {
  }

  lemma ForwardTrans(a: Rows, b: Rows, d: Rows)
    requires RowsForward(a, b) && RowsForward(b, d)
    ensures RowsForward(a, d)
  {
    hide Begun;
    SettledTrans(a, b, d);
  }

  /** The rows move on, everything else but the runs stays. */
  lemma RowsCalm(s: State, s': State)
    requires RowsForward(s.tasks, s'.tasks) && s'.log == s.log && s'.dlq == s.dlq && Outstanding(s') == Outstanding(s)
    requires s.blocked.Keys <= s'.blocked.Keys
    requires forall t :: t in s'.tasks && s'.tasks[t].status == Failed ==>
               (t in s.tasks && s.tasks[t].status == Failed) || (Attempts(s.log, t) == [] && t in s'.blocked)
    ensures Calm(s, s', {})
  {
    hide Outstanding, Attempts, RowsForward;
  }

  lemma UpsertForward(rows: Rows, t: TaskId, to: TaskStatus, attempt: int)
    requires to in {Running, Success, Cancelled}
    ensures RowsForward(rows, UpsertRow(rows, t, to, attempt))
    ensures forall u :: u in UpsertRow(rows, t, to, attempt) && UpsertRow(rows, t, to, attempt)[u].status == Failed ==>
              u in rows && rows[u].status == Failed
  {
  }

  lemma UpsertCalm(s: State, t: TaskId, to: TaskStatus, attempt: int)
    requires to in {Running, Success, Cancelled}
    ensures Calm(s, Upsert(s, t, to, attempt), {})
  {
    hide RowsForward, UpsertRow, Outstanding, Attempts, Calm;
    UpsertForward(s.tasks, t, to, attempt);
    SameOutstanding(s, Upsert(s, t, to, attempt));
    RowsCalm(s, Upsert(s, t, to, attempt));
  }

  lemma CancelCalm(s: State, r: RunId)
    ensures Calm(s, CancelTasks(s, r, false), {})
  {
    hide Outstanding, Attempts, Calm;
    SameOutstanding(s, CancelTasks(s, r, false));
    RowsCalm(s, CancelTasks(s, r, false));
  }

  lemma CalmRefl(s: State)
    ensures Calm(s, s, {})
  {
    hide Outstanding, Attempts;
  }

  lemma TransitionCalm(s: State, r: RunId, to: RunStatus)
    ensures Calm(s, TransitionRun(s, r, to), {})
  {
    hide Outstanding, Attempts, Calm;
    SameOutstanding(s, TransitionRun(s, r, to));
    RowsCalm(s, TransitionRun(s, r, to));
  }

  lemma {:induction false} CancelBlockedCalm(c: Config, s: State, r: RunId, keys: seq<Key>, rows: Rows)
    ensures Calm(s, CancelBlocked(c, s, r, keys, rows), {})
    decreases keys
  {
    hide Calm, Blocked, Upsert, Lookup;
    if keys == [] {
      CalmRefl(s);
    } else if Blocked(c, rows, r, keys[0]) {
      var s1 := Upsert(s, TaskId(r, keys[0]), Cancelled, Lookup(rows, r, keys[0]).attempt);
      UpsertCalm(s, TaskId(r, keys[0]), Cancelled, Lookup(rows, r, keys[0]).attempt);
      CancelBlockedCalm(c, s1, r, keys[1..], rows);
      CalmTrans(s, s1, CancelBlocked(c, s1, r, keys[1..], rows), {});
    } else {
      CancelBlockedCalm(c, s, r, keys[1..], rows);
    }
  }

  lemma SyncCalm(c: Config, s: State, r: RunId)
    ensures Calm(s, SyncRun(c, s, r), {})
  {
    hide Calm, CancelBlocked, AllSelected, AnySelected, TransitionRun;
    var keys := SortedKeys(c.Spec(r).Selected());
    var s1 := CancelBlocked(c, s, r, keys, s.tasks);
    CancelBlockedCalm(c, s, r, keys, s.tasks);
    TransitionCalm(s1, r, RunSuccess);
    TransitionCalm(s1, r, RunFailed);
    CalmTrans(s, s1, TransitionRun(s1, r, RunSuccess), {});
    CalmTrans(s, s1, TransitionRun(s1, r, RunFailed), {});
  }

  /** A dispatch of a task that the snapshot shows as PENDING disturbs no task that the snapshot shows as begun. */
  ghost predicate LoopCalm(s: State, s': State, rows: Rows) {
    && s'.dlq == s.dlq && s'.blocked == s.blocked
    && RowsForward(s.tasks, s'.tasks)
    && (forall t :: t in s'.tasks && s'.tasks[t].status == Failed ==> t in s.tasks && s.tasks[t].status == Failed)
    && (forall t :: Begun(rows, t) ==> Attempts(s'.log, t) == Attempts(s.log, t))
    && (forall m :: m in Outstanding(s') && Begun(rows, m.task) ==> m in Outstanding(s))
  }

  lemma LoopCalmTrans(a: State, b: State, d: State, rows: Rows)
    requires LoopCalm(a, b, rows) && LoopCalm(b, d, rows)
    ensures LoopCalm(a, d, rows)
  {
    hide Outstanding, Attempts, Begun, RowsForward;
    ForwardTrans(a.tasks, b.tasks, d.tasks);
  }

  lemma DispatchLoopCalm(c: Config, s: State, t: TaskId, attempt: int, rows: Rows)
    requires !Begun(rows, t)
    ensures LoopCalm(s, Dispatch(c, s, t, attempt), rows)
  {
    hide Outstanding, Attempts, RowsForward, UpsertRow, Push;
    var s1 := Upsert(s, t, Running, attempt);
    UpsertForward(s.tasks, t, Running, attempt);
    SameOutstanding(s, s1);
    PushOutstanding(s1, c.Spec(t.run).priority, Msg(t, attempt));
    AttemptsPush(s.log, Msg(t, attempt));
    PushFields(s1, c.Spec(t.run).priority, Msg(t, attempt));
  }

  lemma PushFields(s: State, priority: Priority, m: Msg)
    ensures var s' := Push(s, priority, m); s'.dlq == s.dlq && s'.blocked == s.blocked && s'.tasks == s.tasks && s'.log == s.log + [m]
  {
  }

  lemma {:induction false} ScheduleLoopCalm(c: Config, s: State, r: RunId, limit: int, keys: seq<Key>, rows: Rows)
    requires !c.external
    ensures LoopCalm(s, ScheduleLoop(c, s, r, limit, keys, rows, false).0, rows)
    decreases keys
  {
    hide LoopCalm, SlotsUsed, Dispatch, DepsDone;
    if keys == [] {
      LoopCalmRefl(s, rows);
    } else if !Ready(c, rows, r, keys[0]) {
      ScheduleLoopCalm(c, s, r, limit, keys[1..], rows);
    } else if SlotsUsed(c, s, c.Spec(r).project) < limit {
      var t, attempt := TaskId(r, keys[0]), Lookup(rows, r, keys[0]).attempt;
      var s1 := Dispatch(c, s, t, attempt);
      DispatchLoopCalm(c, s, t, attempt, rows);
      ScheduleLoopCalm(c, s1, r, limit, keys[1..], rows);
      LoopCalmTrans(s, s1, ScheduleLoop(c, s1, r, limit, keys[1..], rows, false).0, rows);
    } else {
      LoopCalmRefl(s, rows);
    }
  }

  lemma LoopCalmRefl(s: State, rows: Rows)
    ensures LoopCalm(s, s, rows)
  {
    hide Outstanding, Attempts;
  }

  lemma ScheduleCalm(c: Config, s: State, r: RunId, limit: int)
    requires !c.external
    ensures Calm(s, ScheduleReady(c, s, r, limit), {})
  {
    hide Outstanding, Attempts, RowsForward, ScheduleLoop, CancelTasks, Begun;
    if IsCancelled(s, r) {
      CancelCalm(s, r);
    } else {
      ScheduleLoopCalm(c, s, r, limit, SortedKeys(c.Spec(r).Selected()), s.tasks);
      LoopNeverFails(c, s, r, limit, SortedKeys(c.Spec(r).Selected()), s.tasks);
    }
  }

  lemma {:induction false} LoopNeverFails(c: Config, s: State, r: RunId, limit: int, keys: seq<Key>, rows: Rows)
    requires !c.external
    ensures !ScheduleLoop(c, s, r, limit, keys, rows, false).1
    decreases keys
  {
    hide SlotsUsed, Ready, Dispatch, Lookup;
    if keys != [] && !Ready(c, rows, r, keys[0]) {
      LoopNeverFails(c, s, r, limit, keys[1..], rows);
    } else if keys != [] && SlotsUsed(c, s, c.Spec(r).project) < limit {
      LoopNeverFails(c, Dispatch(c, s, TaskId(r, keys[0]), Lookup(rows, r, keys[0]).attempt), r, limit, keys[1..], rows);
    }
  }

  // ----- the invariant -----

  /** A dead letter is the last attempt its task's budget allows, and no message of the task is under way. */
  ghost predicate LetterOk(c: Config, s: State, m: Msg) {
    && m.task in s.tasks && s.tasks[m.task].status in {Failed, Cancelled}
    && |Attempts(s.log, m.task)| == m.attempt == Budget(c.Spec(m.task.run).MaxAttempts(m.task.key))
    && forall x :: x in Outstanding(s) ==> x.task != m.task
  }

  /** Every failed task has its dead letter, or was never dispatched and has its refusal recorded. */
  ghost predicate FailuresFiled(s: State) {
    forall t :: t in s.tasks && s.tasks[t].status == Failed ==> Filing(s, t)
  }

  ghost predicate Filing(s: State, t: TaskId) {
    if Attempts(s.log, t) == [] then t in s.blocked else exists m :: m in s.dlq && m.task == t
  }

  ghost predicate DlqOk(c: Config, s: State) {
    && (forall m :: m in s.dlq ==> LetterOk(c, s, m))
    && (forall i, j :: 0 <= i < j < |s.dlq| ==> s.dlq[i].task != s.dlq[j].task)
    && FailuresFiled(s)
  }

  lemma LetterStays(c: Config, s: State, s': State, but: set<TaskId>, m: Msg)
    requires LetterOk(c, s, m) && Calm(s, s', but) && m.task !in but
    ensures LetterOk(c, s', m)
  {
    hide Outstanding, Attempts;
    assert Begun(s.tasks, m.task);
  }

  lemma FilesStay(s: State, s': State, but: set<TaskId>)
    requires FailuresFiled(s) && Calm(s, s', but)
    requires forall t :: t in but && t in s.tasks ==> s.tasks[t].status != Failed
    ensures FailuresFiled(s')
  {
    hide Outstanding, Attempts, Settled;
    forall t | t in s'.tasks && s'.tasks[t].status == Failed ensures Filing(s', t) {
      if t in s.tasks && s.tasks[t].status == Failed {
        assert Begun(s.tasks, t) && Filing(s, t);
      }
    }
  }

  lemma CalmKeeps(c: Config, s: State, s': State, but: set<TaskId>)
    requires DlqOk(c, s) && Calm(s, s', but)
    requires forall m :: m in s.dlq ==> m.task !in but
    requires forall t :: t in but && t in s.tasks ==> s.tasks[t].status != Failed
    ensures DlqOk(c, s')
  {
    hide LetterOk, Calm, FailuresFiled;
    forall m | m in s'.dlq ensures LetterOk(c, s', m) {
      CalmDlq(s, s', but);
      LetterStays(c, s, s', but, m);
    }
    CalmDlq(s, s', but);
    FilesStay(s, s', but);
  }

  lemma CalmDlq(s: State, s': State, but: set<TaskId>)
    requires Calm(s, s', but)
    ensures s'.dlq == s.dlq
  {
  }

  // ----- handling a done message -----

  /** A task whose message is under way has no dead letter. */
  lemma NoLetterUnderWay(c: Config, s: State, m: Msg)
    requires DlqOk(c, s) && m in Outstanding(s)
    ensures forall x :: x in s.dlq ==> x.task != m.task
  {
    hide Outstanding, Attempts, FailuresFiled;
    forall x | x in s.dlq ensures x.task != m.task {
      assert LetterOk(c, s, x);
    }
  }

  lemma PopDoneCalm(s: State)
    requires s.done != []
    ensures Calm(s, s.(done := s.done[1..]), {})
  {
    PopDoneOutstanding(s);
    hide Outstanding, Attempts;
  }

  lemma SuccessCalm(c: Config, s: State)
    requires !c.external && s.done != [] && s.done[0].ok
    ensures Calm(s, Handle(c, s), {})
  {
    hide Calm, Upsert, CancelTasks, ScheduleReady, SyncRun;
    var m := s.done[0].msg;
    var r, s0 := m.task.run, s.(done := s.done[1..]);
    var s1 := Upsert(s0, m.task, Success, m.attempt);
    PopDoneCalm(s);
    UpsertCalm(s0, m.task, Success, m.attempt);
    CalmTrans(s, s0, s1, {});
    if IsCancelled(s1, r) {
      CancelCalm(s1, r);
      CalmTrans(s, s1, CancelTasks(s1, r, false), {});
    } else {
      var limit := Max(1, c.Spec(r).limit);
      var s2 := ScheduleReady(c, s1, r, limit);
      ScheduleCalm(c, s1, r, limit);
      SyncCalm(c, s2, r);
      CalmTrans(s, s1, s2, {});
      CalmTrans(s, s2, SyncRun(c, s2, r), {});
    }
  }

  lemma RetriedForward(tasks: Rows, t: TaskId, attempt: int)
    ensures RowsForward(tasks, RetriedRows(tasks, t, attempt))
    ensures forall u :: u in RetriedRows(tasks, t, attempt) && RetriedRows(tasks, t, attempt)[u].status == Failed ==>
              u in tasks && tasks[u].status == Failed
  {
  }

  lemma RetryCalm(c: Config, s: State)
    requires Inv(c, s) && s.done != [] && !s.done[0].ok
    requires var m := s.done[0].msg; ShouldRetry(m.attempt, c.Spec(m.task.run).MaxAttempts(m.task.key))
    ensures Calm(s, Handle(c, s), {s.done[0].msg.task})
  {
    hide Inv, Handle, Outstanding, Attempts, RowsForward, RetriedRows;
    var m := s.done[0].msg;
    RetryShape(c, s);
    RetryDlq(c, s);
    RetriedForward(s.tasks, m.task, m.attempt + 1);
    AttemptsPush(s.log, Msg(m.task, m.attempt + 1));
  }

  lemma RetryDlq(c: Config, s: State)
    requires Inv(c, s) && s.done != [] && !s.done[0].ok
    requires var m := s.done[0].msg; ShouldRetry(m.attempt, c.Spec(m.task.run).MaxAttempts(m.task.key))
    ensures Handle(c, s).dlq == s.dlq
  {
    hide QueueOk, RowsOk, MessagesOk, LogOk, StatusOk, CapacityOk, CleanOk, Handle, Outstanding, RetriedRows, Complete;
    HeadMessage(c, s);
    HeadRow(s, s.done[0].msg);
    RetryIsPush(c, s);
  }

  /** An exhausted task, before its run is synchronised. */
  ghost function Filed(s: State): State
    requires s.done != []
  {
    var m := s.done[0].msg;
    Upsert(s.(done := s.done[1..]), m.task, Failed, m.attempt).(dlq := s.dlq + [m])
  }

  lemma FiledRows(rows: Rows, m: Msg)
    requires m.task in rows && (rows[m.task].status == Cancelled || rows[m.task] == TaskRow(Running, m.attempt))
    ensures var b := UpsertRow(rows, m.task, Failed, m.attempt);
      && m.task in b && b[m.task].status in {Failed, Cancelled}
      && forall t :: t != m.task ==> (t in b <==> t in rows) && (t in rows ==> b[t] == rows[t])
  {
  }

  lemma NewLetterOk(c: Config, s: State)
    requires Inv(c, s) && s.done != [] && !s.done[0].ok
    requires var m := s.done[0].msg; !ShouldRetry(m.attempt, c.Spec(m.task.run).MaxAttempts(m.task.key))
    ensures LetterOk(c, Filed(s), s.done[0].msg)
  {
    hide QueueOk, RowsOk, LogOk, StatusOk, CapacityOk, CleanOk, Outstanding, UpsertRow, Attempts, Complete;
    var m := s.done[0].msg;
    HeadMessage(c, s);
    HeadRow(s, m);
    FiledRows(s.tasks, m);
    PopDoneOutstanding(s);
    SameOutstanding(s.(done := s.done[1..]), Filed(s));
    forall x | x in Outstanding(Filed(s)) ensures x.task != m.task {
      assert x in Outstanding(s) && MessageOk(s.tasks, s.log, x);
      assert x == m ==> Outstanding(s)[m] == 1;
      assert x.task == m.task ==> x == m;
    }
  }

  lemma OldLetterOk(c: Config, s: State, x: Msg)
    requires Inv(c, s) && s.done != [] && LetterOk(c, s, x) && x.task != s.done[0].msg.task
    ensures LetterOk(c, Filed(s), x)
  {
    hide QueueOk, RowsOk, LogOk, StatusOk, CapacityOk, CleanOk, Outstanding, UpsertRow, Attempts, Complete;
    HeadMessage(c, s);
    HeadRow(s, s.done[0].msg);
    FiledRows(s.tasks, s.done[0].msg);
    PopDoneOutstanding(s);
    SameOutstanding(s.(done := s.done[1..]), Filed(s));
  }

  lemma FiledFiles(c: Config, s: State)
    requires Inv(c, s) && s.done != [] && FailuresFiled(s)
    ensures FailuresFiled(Filed(s))
  {
    hide QueueOk, RowsOk, LogOk, StatusOk, CapacityOk, CleanOk, Outstanding, UpsertRow, Attempts, Complete;
    var m := s.done[0].msg;
    HeadMessage(c, s);
    HeadRow(s, m);
    FiledRows(s.tasks, m);
    var s' := Filed(s);
    assert m in s'.dlq;
    forall t | t in s'.tasks && s'.tasks[t].status == Failed ensures Filing(s', t) {
      if t != m.task {
        assert Filing(s, t);
        if Attempts(s.log, t) != [] {
          var x :| x in s.dlq && x.task == t;
          assert x in s'.dlq;
        }
      }
    }
  }

  lemma FiledOk(c: Config, s: State)
    requires Inv(c, s) && DlqOk(c, s) && s.done != [] && !s.done[0].ok
    requires var m := s.done[0].msg; !ShouldRetry(m.attempt, c.Spec(m.task.run).MaxAttempts(m.task.key))
    ensures DlqOk(c, Filed(s))
  {
    hide Inv, Outstanding, LetterOk, FailuresFiled, Upsert;
    var m := s.done[0].msg;
    PopDoneOutstanding(s);
    NoLetterUnderWay(c, s, m);
    NewLetterOk(c, s);
    FiledFiles(c, s);
    assert Filed(s).dlq == s.dlq + [m];
    forall x | x in s.dlq ensures LetterOk(c, Filed(s), x) {
      OldLetterOk(c, s, x);
    }
    forall i | 0 <= i < |s.dlq| ensures s.dlq[i].task != m.task {
      assert s.dlq[i] in s.dlq;
    }
  }

  lemma HandleFiles(c: Config, s: State)
    requires Inv(c, s) && DlqOk(c, s)
    ensures DlqOk(c, Handle(c, s))
  {
    hide QueueOk, RowsOk, MessagesOk, LogOk, StatusOk, CapacityOk, CleanOk;
    hide DlqOk, Calm, Handle, SyncRun, Filed, Outstanding, Complete;
    if s.done == [] {
      NothingDone(c, s);
    } else {
      var m := s.done[0].msg;
      if s.done[0].ok {
        SuccessCalm(c, s);
        CalmKeeps(c, s, Handle(c, s), {});
      } else if ShouldRetry(m.attempt, c.Spec(m.task.run).MaxAttempts(m.task.key)) {
        RetryCalm(c, s);
        HeadMessage(c, s);
        HeadRow(s, m);
        NoLetterUnderWay(c, s, m);
        CalmKeeps(c, s, Handle(c, s), {m.task});
      } else {
        ExhaustedFiles(c, s);
      }
    }
  }

  lemma ExhaustedFiles(c: Config, s: State)
    requires Inv(c, s) && DlqOk(c, s) && s.done != [] && !s.done[0].ok
    requires var m := s.done[0].msg; !ShouldRetry(m.attempt, c.Spec(m.task.run).MaxAttempts(m.task.key))
    ensures DlqOk(c, Handle(c, s))
  {
    hide Inv, DlqOk, Calm, Handle, SyncRun;
    ExhaustedIs(c, s);
    FiledOk(c, s);
    SyncCalm(c, Filed(s), s.done[0].msg.task.run);
    CalmKeeps(c, Filed(s), SyncRun(c, Filed(s), s.done[0].msg.task.run), {});
  }

  // ----- starting a run -----

  lemma StartedCalm(c: Config, s: State)
    requires Inv(c, s) && s.runQueue != [] && s.runs[s.runQueue[0]] == RunPending
    ensures Calm(s, Started(c, s.(runQueue := s.runQueue[1..]), s.runQueue[0]), {})
  {
    hide QueueOk, RowsOk, MessagesOk, LogOk, StatusOk, CapacityOk, CleanOk, Complete, Outstanding, Attempts, Calm;
    hide StartRows, Started, InitialStatus, Settled;
    var r, s0 := s.runQueue[0], s.(runQueue := s.runQueue[1..]);
    var s1, s2 := TransitionRun(s0, r, RunRunning), Started(c, s0, r);
    QueuedHasNoRows(c, s);
    QueuedNeverDispatched(c, s);
    StartedBlocks(c, s0, r);
    StartedShape(c, s0, r);
    StartRowsOk(c, s1, s.tasks, r);
    SameOutstanding(s, s2);
    StartRowsForward(s.tasks, s2.tasks, r);
    StartRowsAre(c, s1, s.tasks, r);
    forall t: TaskId | t in s2.tasks && t.run == r && s2.tasks[t].status == Failed
      ensures Attempts(s.log, t) == [] && t in s2.blocked
    {
      assert t == TaskId(r, t.key) && t.key in c.Spec(r).plan;
    }
    RowsCalm(s, s2);
  }

  lemma {:induction false} InitRowsBlocks(c: Config, s0: State, s: State, r: RunId, keys: seq<Key>)
    ensures s.blocked.Keys <= InitRows(c, s0, s, r, keys).blocked.Keys
    decreases keys
  {
    hide InitRow;
    if keys != [] {
      InitRowBlocks(c, s0, s, r, keys[0]);
      InitRowsBlocks(c, s0, InitRow(c, s0, s, r, keys[0]), r, keys[1..]);
    }
  }

  /** A task that starts as FAILED has its refusal recorded. */
  lemma StartedBlocks(c: Config, s: State, r: RunId)
    requires forall k :: TaskId(r, k) !in s.tasks
    ensures var s1 := TransitionRun(s, r, RunRunning);
      && s.blocked.Keys <= Started(c, s, r).blocked.Keys
      && forall k :: k in c.Spec(r).plan && InitialStatus(c, s1, r, k) == Failed ==> TaskId(r, k) in Started(c, s, r).blocked
  {
    hide InitRows, InitialStatus, Refusal;
    var s1, keys := TransitionRun(s, r, RunRunning), SortedKeys(c.Spec(r).plan.Keys);
    InitRowsBlocks(c, s1, s1, r, keys);
    InitRowsReasons(c, s1, s1, r, keys);
    assert forall k :: k in keys <==> k in c.Spec(r).plan;
  }

  lemma StartRowsForward(a: Rows, b: Rows, r: RunId)
    requires Settled(a, b) && forall k :: TaskId(r, k) !in a
    requires forall t :: t in b && t.run != r ==> t in a && b[t] == a[t]
    ensures RowsForward(a, b)
  {
    forall t | Begun(a, t) ensures Begun(b, t) {
      assert t == TaskId(t.run, t.key);
    }
  }

  lemma StartCalm(c: Config, s: State)
    requires Inv(c, s) && s.runQueue != [] && s.runs[s.runQueue[0]] == RunPending
    ensures Calm(s, StartRun(c, s.(runQueue := s.runQueue[1..]), s.runQueue[0]), {})
  {
    hide QueueOk, RowsOk, MessagesOk, LogOk, StatusOk, CapacityOk, CleanOk, Complete, Calm;
    hide ScheduleReady, InitRows, GateAccepts, TransitionRun;
    var r, s0 := s.runQueue[0], s.(runQueue := s.runQueue[1..]);
    var s2 := Started(c, s0, r);
    StartedCalm(c, s);
    ScheduleCalm(c, s2, r, c.Spec(r).limit);
    TransitionCalm(s2, r, RunFailed);
    CalmTrans(s, s2, ScheduleReady(c, s2, r, c.Spec(r).limit), {});
    CalmTrans(s, s2, TransitionRun(s2, r, RunFailed), {});
  }

  lemma ConsumeCalm(c: Config, s: State)
    requires Inv(c, s)
    ensures Calm(s, Consume(c, s), {})
  {
    hide QueueOk, RowsOk, MessagesOk, LogOk, StatusOk, CapacityOk, CleanOk, Outstanding, StartRun, Calm, SlotTasks, CancelTasks;
    CalmRefl(s);
    if s.runQueue != [] {
      QueuedHasNoRows(c, s);
      var r, s0 := s.runQueue[0], s.(runQueue := s.runQueue[1..]);
      QueueCalm(s, s0);
      QueueCalm(s, s0.(runQueue := s0.runQueue + [r]));
      CancelCalm(s0, r);
      CalmTrans(s, s0, CancelTasks(s0, r, false), {});
      if s.runs[r] == RunPending {
        StartCalm(c, s);
      }
    }
  }

  /** Only the run queue and the runs change. */
  lemma QueueCalm(s: State, s': State)
    requires s' == s.(runs := s'.runs, runQueue := s'.runQueue)
    ensures Calm(s, s', {})
  {
    hide Outstanding, Attempts, Calm;
    SameOutstanding(s, s');
    RowsCalm(s, s');
  }

  lemma ChannelsCalm(s: State, s': State)
    requires SameDatabase(s, s') && s'.log == s.log && Outstanding(s') == Outstanding(s)
    ensures Calm(s, s', {})
  {
    hide Outstanding, Attempts, Calm;
    RowsCalm(s, s');
  }

  // ----- every step -----

  lemma NextFiles(c: Config, s: State, step: Step)
    requires Inv(c, s) && DlqOk(c, s)
    ensures DlqOk(c, Next(c, s, step))
  {
    hide Inv, DlqOk, Calm, Consume, Handle, Take, Finish, CancelTasks, Outstanding;
    if step.HandleDone? {
      HandleFiles(c, s);
    } else {
      var s' := Next(c, s, step);
      CalmRefl(s);
      match step {
        case Submit(r) => QueueCalm(s, s');
        case RotateRuns => QueueCalm(s, s');
        case ConsumeRun => ConsumeCalm(c, s);
        case ExecutorTake =>
          TakeFrame(s);
          TakeOutstanding(s);
          ChannelsCalm(s, s');
        case ExecutorFinish(m, ok) =>
          FinishFrame(s, m, ok);
          FinishOutstanding(s, m, ok);
          ChannelsCalm(s, s');
        case ApiMarkCancelled(r) => QueueCalm(s, s');
        case ApiCancelTasks(r) => CancelCalm(s, r);
        case HandleDone =>
      }
      CalmKeeps(c, s, s', {});
    }
  }

  lemma {:induction false} ReachableFiles(c: Config, steps: seq<Step>)
    requires !c.external
    ensures DlqOk(c, Execute(c, steps))
  {
    hide Inv, DlqOk, Next;
    if steps == [] {
      InitialFiles(c);
    } else {
      var before := steps[..|steps| - 1];
      ReachableFiles(c, before);
      ReachableInv(c, before);
      NextFiles(c, Execute(c, before), steps[|steps| - 1]);
    }
  }

  lemma InitialFiles(c: Config)
    ensures DlqOk(c, INITIAL)
  {
  }

  // ----- main results -----

  /**
   In every reachable state a task has at most one dead letter. A task with one was
   dispatched as often as its budget allows and none of its messages is under way; and a
   task that failed after a dispatch has one.
  */
  lemma DeadLettersExact(c: Config, steps: seq<Step>, t: TaskId)
    requires !c.external
    ensures var s := Execute(c, steps); var n := |Attempts(s.log, t)|;
      && (forall i, j :: 0 <= i < j < |s.dlq| && s.dlq[i].task == t ==> s.dlq[j].task != t)
      && (forall m :: m in s.dlq && m.task == t ==>
           && m.attempt == n == Budget(c.Spec(t.run).MaxAttempts(t.key))
           && t in s.tasks && s.tasks[t].status in {Failed, Cancelled}
           && forall x :: x in Outstanding(s) ==> x.task != t)
      && (t in s.tasks && s.tasks[t].status == Failed && n > 0 ==> Msg(t, n) in s.dlq)
  {
    hide Execute, Outstanding, Attempts;
    ReachableFiles(c, steps);
    var s := Execute(c, steps);
    forall m | m in s.dlq && m.task == t ensures m == Msg(t, |Attempts(s.log, t)|) {
      assert LetterOk(c, s, m);
    }
  }

  /**
   Why a run or a task has failed: every FAILED row is that of a task that used up its
   budget and lies in the dead-letter queue, or of one that was never dispatched and whose
   refusal by the replay gate is recorded. A FAILED run has such a row.
  */
  lemma FailuresExplained(c: Config, steps: seq<Step>, r: RunId)
    requires !c.external
    ensures var s := Execute(c, steps);
      && (forall t: TaskId :: t in s.tasks && t.run == r && s.tasks[t].status == Failed ==>
           var n := |Attempts(s.log, t)|;
           if n == 0 then t in s.blocked
           else n == Budget(c.Spec(r).MaxAttempts(t.key)) && Msg(t, n) in s.dlq)
      && (r in s.runs && s.runs[r] == RunFailed ==> exists k :: TaskId(r, k) in s.tasks && s.tasks[TaskId(r, k)].status == Failed)
  {
    hide Execute, Outstanding, Attempts, RunAllowed;
    ReachableFiles(c, steps);
    var s := Execute(c, steps);
    forall t: TaskId | t in s.tasks && t.run == r && s.tasks[t].status == Failed && Attempts(s.log, t) != []
      ensures |Attempts(s.log, t)| == Budget(c.Spec(r).MaxAttempts(t.key)) && Msg(t, |Attempts(s.log, t)|) in s.dlq
    {
      assert Filing(s, t);
      var m :| m in s.dlq && m.task == t;
      assert LetterOk(c, s, m);
    }
    forall t: TaskId | t in s.tasks && s.tasks[t].status == Failed ensures Filing(s, t) {}
    if r in s.runs {
      RunStatusSound(c, steps, r);
    }
  }

  /**
   Every dispatch is accounted for: the last message of a dispatched task is under way,
   or its task is SUCCESS or CANCELLED, or the message is in the dead-letter queue.
  */
  lemma DispatchesAccountedFor(c: Config, steps: seq<Step>, t: TaskId)
    requires !c.external && Attempts(Execute(c, steps).log, t) != []
    ensures var s := Execute(c, steps); var last := Msg(t, |Attempts(s.log, t)|);
      && t in s.tasks
      && (last in Outstanding(s) || s.tasks[t].status in {Success, Cancelled} || last in s.dlq)
      && !(last in Outstanding(s) && (last in s.dlq || s.tasks[t].status == Success))
      && !(last in s.dlq && s.tasks[t].status == Success)
  {
    hide QueueOk, StatusOk, CapacityOk, CleanOk, Execute, Outstanding, Attempts, Ordered, Complete;
    var s := Execute(c, steps);
    ReachableInv(c, steps);
    DeadLettersExact(c, steps, t);
    assert HistoryOk(c, s.tasks, s.log, t);
    if s.tasks[t].status == Running {
      assert MessageOk(s.tasks, s.log, Msg(t, s.tasks[t].attempt));
    }
  }
}
