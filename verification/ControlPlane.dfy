/**
 The code of the scheduler, the executor's message protocol and the API's cancel
 endpoint, working step by step on the shared database rows and Redis lists.

 Each method is proved to change the shared state exactly as the corresponding
 function of module Protocol says, so the results about Protocol hold of this code.
*/
module ControlPlane {
  import opened KeyOrder
  import opened Protocol
  import opened ReplayGate
  import opened ReplaySelection
  import opened RetryPolicy
  import opened Wrappers

  lemma EnqueueLogs(c: Config, s: State, t: TaskId, attempt: int)
    ensures var (s', ok) := Enqueue(c, s, t, attempt); !c.external ==> ok && s'.log == s.log + [Msg(t, attempt)]
  {
    hide UpsertRow;
  }

  lemma LoopSkips(c: Config, s: State, r: RunId, limit: int, keys: seq<Key>, i: nat, rows: Rows, failed: bool)
    requires i < |keys| && !Ready(c, rows, r, keys[i])
    ensures ScheduleLoop(c, s, r, limit, keys[i..], rows, failed) == ScheduleLoop(c, s, r, limit, keys[i + 1..], rows, failed)
  {
    hide Ready, SlotsUsed, Enqueue, Lookup;
    assert keys[i..][1..] == keys[i + 1..];
  }

  lemma LoopStops(c: Config, s: State, r: RunId, limit: int, keys: seq<Key>, i: nat, rows: Rows, failed: bool)
    requires i <= |keys|
    requires i < |keys| ==> Ready(c, rows, r, keys[i]) && SlotsUsed(c, s, c.Spec(r).project) >= limit
    ensures ScheduleLoop(c, s, r, limit, keys[i..], rows, failed) == (s, failed)
  {
    hide Ready, SlotsUsed, Enqueue, Lookup;
  }

  lemma LoopDispatches(c: Config, s: State, r: RunId, limit: int, keys: seq<Key>, i: nat, rows: Rows, failed: bool)
    requires i < |keys| && Ready(c, rows, r, keys[i]) && SlotsUsed(c, s, c.Spec(r).project) < limit
    ensures var (s', ok) := Enqueue(c, s, TaskId(r, keys[i]), Lookup(rows, r, keys[i]).attempt);
      ScheduleLoop(c, s, r, limit, keys[i..], rows, failed)
      == ScheduleLoop(c, s', r, limit, keys[i + 1..], rows, failed || !ok)
  {
    hide Ready, SlotsUsed, Enqueue, Lookup;
    assert keys[i..][1..] == keys[i + 1..];
  }

  lemma InitNext(c: Config, s0: State, s: State, r: RunId, keys: seq<Key>, i: nat)
    requires i < |keys|
    ensures InitRows(c, s0, s, r, keys[i..]) == InitRows(c, s0, InitRow(c, s0, s, r, keys[i]), r, keys[i + 1..])
  {
    hide UpsertRow, Refusal;
    assert keys[i..][1..] == keys[i + 1..];
  }

  lemma InitStops(c: Config, s0: State, s: State, r: RunId, keys: seq<Key>)
    ensures InitRows(c, s0, s, r, keys[|keys|..]) == s
  {
  }

  /** The gate accepts the first `i` of the keys. */
  ghost predicate AcceptsFirst(c: Config, s0: State, r: RunId, keys: seq<Key>, i: nat)
    requires i <= |keys|
  {
    forall k :: k in keys[..i] && k in c.Spec(r).Skipped() ==> Refusal(c, s0, r, k).None?
  }

  lemma AcceptsNone(c: Config, s0: State, r: RunId, keys: seq<Key>)
    ensures AcceptsFirst(c, s0, r, keys, 0)
  {
  }

  lemma AcceptsNext(c: Config, s0: State, r: RunId, keys: seq<Key>, i: nat)
    requires i < |keys|
    ensures AcceptsFirst(c, s0, r, keys, i + 1)
            <==> AcceptsFirst(c, s0, r, keys, i) && (keys[i] in c.Spec(r).Skipped() ==> Refusal(c, s0, r, keys[i]).None?)
  {
    hide Refusal, Skipped;
    assert keys[..i + 1] == keys[..i] + [keys[i]];
  }

  lemma AcceptsAll(c: Config, s0: State, r: RunId)
    ensures var keys := SortedKeys(c.Spec(r).plan.Keys); AcceptsFirst(c, s0, r, keys, |keys|) <==> GateAccepts(c, s0, r)
  {
    hide Refusal, Selected;
    var keys := SortedKeys(c.Spec(r).plan.Keys);
    assert keys[..|keys|] == keys;
  }

  lemma CancelNext(c: Config, s: State, r: RunId, keys: seq<Key>, i: nat, rows: Rows)
    requires i < |keys|
    ensures CancelBlocked(c, s, r, keys[i..], rows)
            == CancelBlocked(c, if Blocked(c, rows, r, keys[i]) then Upsert(s, TaskId(r, keys[i]), Cancelled, Lookup(rows, r, keys[i]).attempt) else s,
                             r, keys[i + 1..], rows)
  {
    hide Blocked, Upsert, Lookup;
    assert keys[i..][1..] == keys[i + 1..];
  }

  lemma CancelStops(c: Config, s: State, r: RunId, keys: seq<Key>, rows: Rows)
    ensures CancelBlocked(c, s, r, keys[|keys|..], rows) == s
  {
  }

  /** The number of blocked tasks among the first `i` keys. */
  ghost function BlockedCount(c: Config, rows: Rows, r: RunId, keys: seq<Key>, i: nat): nat
    requires i <= |keys|
  {
    |set k | k in keys[..i] && Blocked(c, rows, r, k)|
  }

  lemma CountNone(c: Config, rows: Rows, r: RunId, keys: seq<Key>)
    ensures BlockedCount(c, rows, r, keys, 0) == 0
  {
    assert (set k | k in keys[..0] && Blocked(c, rows, r, k)) == {};
  }

  lemma BlockedMeans(c: Config, rows: Rows, r: RunId, k: Key)
    ensures Blocked(c, rows, r, k)
            <==>
              && Lookup(rows, r, k).status == Pending
              && exists d :: d in c.Spec(r).Deps(k) && Lookup(rows, r, d).status in {Failed, Cancelled}
  {
  }

  lemma CountAll(c: Config, rows: Rows, r: RunId, selected: set<Key>)
    ensures var keys := SortedKeys(selected);
      BlockedCount(c, rows, r, keys, |keys|)
      == |set k | k in selected && Lookup(rows, r, k).status == Pending
                  && (exists d :: d in c.Spec(r).Deps(k) && Lookup(rows, r, d).status in {Failed, Cancelled})|
  {
    hide Blocked, Lookup, SortedKeys;
    var keys := SortedKeys(selected);
    assert keys[..|keys|] == keys;
    var blocked := set k | k in keys && Blocked(c, rows, r, k);
    var counted := set k | k in selected && Lookup(rows, r, k).status == Pending
                           && exists d :: d in c.Spec(r).Deps(k) && Lookup(rows, r, d).status in {Failed, Cancelled};
    forall k ensures k in blocked <==> k in counted {
      BlockedMeans(c, rows, r, k);
    }
    assert blocked == counted;
  }

  lemma CountNext(c: Config, rows: Rows, r: RunId, keys: seq<Key>, i: nat)
    requires i < |keys| && Ascending(keys)
    ensures BlockedCount(c, rows, r, keys, i + 1)
            == BlockedCount(c, rows, r, keys, i) + (if Blocked(c, rows, r, keys[i]) then 1 else 0)
  {
    hide Blocked;
    var before := set k | k in keys[..i] && Blocked(c, rows, r, k);
    assert keys[..i + 1] == keys[..i] + [keys[i]];
    assert keys[i] !in keys[..i];
    assert (set k | k in keys[..i + 1] && Blocked(c, rows, r, k))
           == if Blocked(c, rows, r, keys[i]) then before + {keys[i]} else before;
  }

  class Platform {
    const config: Config
    var runs: Runs
    var tasks: Rows
    var runQueue: seq<RunId>
    var high: seq<Msg>
    var normal: seq<Msg>
    var low: seq<Msg>
    var inFlight: multiset<Msg>
    var done: seq<Done>
    var dlq: seq<Msg>
    var blocked: map<TaskId, GateReason>
    ghost var log: seq<Msg>

    ghost function Snapshot(): State
      reads this
    {
      State(runs, tasks, runQueue, high, normal, low, inFlight, done, dlq, blocked, log)
    }

    constructor (config: Config)
      ensures this.config == config && Snapshot() == INITIAL
    {
      this.config := config;
      runs, tasks, runQueue, high, normal, low := map[], map[], [], [], [], [];
      inFlight, done, dlq, blocked, log := multiset{}, [], [], map[], [];
    }

    // ----- rows -----

    method TransitionRunStatus(r: RunId, to: RunStatus)
      modifies `runs
      ensures Snapshot() == TransitionRun(old(Snapshot()), r, to)
    {
      if r !in runs {
        return;
      }
      if !RunAllowed(runs[r], to) {
        return;
      }
      runs := runs[r := to];
    }

    method UpsertOrTransitionTask(t: TaskId, to: TaskStatus, attempt: int)
      modifies `tasks
      ensures Snapshot() == Upsert(old(Snapshot()), t, to, attempt)
    {
      if t in tasks {
        var current := tasks[t].status;
        if current == to {
          return;
        }
        if !TaskAllowed(current, to) {
          return;
        }
      }
      tasks := tasks[t := TaskRow(to, attempt)];
    }

    /** One UPDATE statement; `n` is the number of rows it changed. */
    method CancelTasksForRun(r: RunId, onlyPendingLike: bool) returns (n: nat)
      modifies `tasks
      ensures Snapshot() == CancelTasks(old(Snapshot()), r, onlyPendingLike)
      ensures n == |set t | t in tasks && tasks[t] != old(tasks)[t]|
    {
      var changed := set t | t in tasks && t.run == r && Cancels(tasks[t].status, onlyPendingLike);
      n := |changed|;
      tasks := map t | t in tasks ::
        if t.run == r && Cancels(tasks[t].status, onlyPendingLike) then tasks[t].(status := Cancelled) else tasks[t];
      assert (set t | t in tasks && tasks[t] != old(tasks)[t]) == changed;
    }

    method ProjectRunningTasks(project: string) returns (n: nat)
      ensures n == SlotsUsed(config, Snapshot(), project)
    {
      n := |SlotTasks(config, runs, tasks, project)|;
    }

    // ----- dispatch -----

    method EnqueueTaskEvent(t: TaskId, attempt: int) returns (ok: bool)
      modifies this
      ensures (Snapshot(), ok) == Enqueue(config, old(Snapshot()), t, attempt)
    {
      var external := config.external && t.key !in config.Spec(t.run).http;
      UpsertOrTransitionTask(t, if external then Queued else Running, attempt);
      if external {
        if t.key !in config.Spec(t.run).plugins {
          UpsertOrTransitionTask(t, Failed, attempt);
          return false;
        }
        return true;
      }
      var m := Msg(t, attempt);
      match config.Spec(t.run).priority {
        case High => high := high + [m];
        case Normal => normal := normal + [m];
        case Low => low := low + [m];
      }
      log := log + [m];
      ok := true;
    }

    method ScheduleReadyTasks(r: RunId, limit: int) returns (scheduled: nat)
      modifies this
      ensures Snapshot() == ScheduleReady(config, old(Snapshot()), r, limit)
      ensures !config.external ==> |log| == |old(log)| + scheduled
    {
      hide Enqueue, SlotTasks, CancelTasks, SyncRun, Selected, Skipped, ScheduleLoop;
      scheduled := 0;
      if r in runs && runs[r] == RunCancelled {
        var _ := CancelTasksForRun(r, false);
        return;
      }
      var selected, _ := ApplyReplayFilter(config.Spec(r).plan, config.Spec(r).replayFrom);
      var states := tasks;
      var enqueueFailed: bool;
      scheduled, enqueueFailed := DispatchInOrder(r, limit, SortedKeys(selected), states);
      if enqueueFailed {
        SyncRunStatusAfterTask(r, selected);
      }
    }

    /** The loop of `_schedule_ready_tasks` over the sorted keys. */
    method DispatchInOrder(r: RunId, limit: int, keys: seq<Key>, states: Rows)
      returns (scheduled: nat, enqueueFailed: bool)
      modifies this
      ensures (Snapshot(), enqueueFailed) == ScheduleLoop(config, old(Snapshot()), r, limit, keys, states, false)
      ensures !config.external ==> |log| == |old(log)| + scheduled
    {
      hide Enqueue, SlotTasks, ScheduleLoop;
      scheduled, enqueueFailed := 0, false;
      ghost var target := ScheduleLoop(config, Snapshot(), r, limit, keys, states, false);
      assert keys[0..] == keys;
      var i := 0;
      while i < |keys|
        invariant 0 <= i <= |keys|
        invariant ScheduleLoop(config, Snapshot(), r, limit, keys[i..], states, enqueueFailed) == target
        invariant !config.external ==> |log| == |old(log)| + scheduled
      {
        var key := keys[i];
        if Lookup(states, r, key).status != Pending
           || exists d :: d in config.Spec(r).Deps(key) && Lookup(states, r, d).status != Success
        {
          LoopSkips(config, Snapshot(), r, limit, keys, i, states, enqueueFailed);
          i := i + 1;
          continue;
        }
        var used := ProjectRunningTasks(config.Spec(r).project);
        if used >= limit {
          break;
        }
        LoopDispatches(config, Snapshot(), r, limit, keys, i, states, enqueueFailed);
        EnqueueLogs(config, Snapshot(), TaskId(r, key), Lookup(states, r, key).attempt);
        var ok := EnqueueTaskEvent(TaskId(r, key), Lookup(states, r, key).attempt);
        if ok {
          scheduled := scheduled + 1;
        } else {
          enqueueFailed := true;
        }
        i := i + 1;
      }
      LoopStops(config, Snapshot(), r, limit, keys, i, states, enqueueFailed);
    }

    // ----- run status -----

    /** A PENDING task with a failed or cancelled dependency is cancelled. */
    method CancelIfBlocked(r: RunId, key: Key, states: Rows) returns (hit: bool)
      modifies `tasks
      ensures hit == Blocked(config, states, r, key)
      ensures Snapshot() == if hit then Upsert(old(Snapshot()), TaskId(r, key), Cancelled, Lookup(states, r, key).attempt)
                            else old(Snapshot())
    {
      hide Upsert, Lookup;
      var row := Lookup(states, r, key);
      if row.status != Pending {
        return false;
      }
      hit := exists d :: d in config.Spec(r).Deps(key) && Lookup(states, r, d).status in {Failed, Cancelled};
      if hit {
        UpsertOrTransitionTask(TaskId(r, key), Cancelled, row.attempt);
      }
    }

    method CancelUnreachableDownstreamTasks(r: RunId, selected: set<Key>, states: Rows) returns (cancelled: nat)
      modifies `tasks
      ensures Snapshot() == CancelBlocked(config, old(Snapshot()), r, SortedKeys(selected), states)
      ensures cancelled == |set k | k in selected && Lookup(states, r, k).status == Pending
                                    && (exists d :: d in config.Spec(r).Deps(k) && Lookup(states, r, d).status in {Failed, Cancelled})|
    {
      hide CancelBlocked, Upsert, Blocked, BlockedCount, Lookup;
      cancelled := 0;
      var keys := SortedKeys(selected);
      CountNone(config, states, r, keys);
      ghost var target := CancelBlocked(config, Snapshot(), r, keys, states);
      assert keys[0..] == keys;
      for i := 0 to |keys|
        invariant CancelBlocked(config, Snapshot(), r, keys[i..], states) == target
        invariant cancelled == BlockedCount(config, states, r, keys, i)
      {
        CancelNext(config, Snapshot(), r, keys, i, states);
        CountNext(config, states, r, keys, i);
        var hit := CancelIfBlocked(r, keys[i], states);
        if hit {
          cancelled := cancelled + 1;
        }
      }
      CancelStops(config, Snapshot(), r, keys, states);
      CountAll(config, states, r, selected);
    }

    method SyncRunStatusAfterTask(r: RunId, selected: set<Key>)
      requires selected == config.Spec(r).Selected()
      modifies `runs, `tasks
      ensures Snapshot() == SyncRun(config, old(Snapshot()), r)
    {
      hide CancelBlocked, Lookup, Selected;
      var states := tasks;
      var _ := CancelUnreachableDownstreamTasks(r, selected, states);
      if selected != {} && forall k :: k in selected ==> Lookup(states, r, k).status == Success {
        TransitionRunStatus(r, RunSuccess);
        return;
      }
      if exists k :: k in selected && Lookup(states, r, k).status == Failed {
        TransitionRunStatus(r, RunFailed);
      }
    }

    // ----- starting a run -----

    /** Without a parent run a skipped task counts as done. */
    method InitPlain(r: RunId, skipped: set<Key>, key: Key, ghost s0: State)
      requires key in config.Spec(r).plan && skipped == config.Spec(r).Skipped() && config.Spec(r).replay.None?
      modifies this
      ensures Snapshot() == InitRow(config, s0, old(Snapshot()), r, key)
    {
      hide Upsert, Selected;
      if key in skipped {
        UpsertOrTransitionTask(TaskId(r, key), Success, 1);
      } else {
        UpsertOrTransitionTask(TaskId(r, key), Pending, 1);
      }
    }

    method InitRunTasks(r: RunId, selected: set<Key>, skipped: set<Key>)
      requires selected == config.Spec(r).Selected() && skipped == config.Spec(r).Skipped()
      requires config.Spec(r).replay.None?
      modifies this
      ensures var s0 := old(Snapshot()); Snapshot() == InitRows(config, s0, s0, r, SortedKeys(config.Spec(r).plan.Keys))
    {
      hide InitRow, InitRows, Selected, Skipped;
      var keys := SortedKeys(config.Spec(r).plan.Keys);
      ghost var s0 := Snapshot();
      assert keys[0..] == keys;
      for i := 0 to |keys|
        invariant InitRows(config, s0, Snapshot(), r, keys[i..]) == InitRows(config, s0, s0, r, keys)
      {
        InitNext(config, s0, Snapshot(), r, keys, i);
        InitPlain(r, skipped, keys[i], s0);
      }
      InitStops(config, s0, Snapshot(), r, keys);
    }

    /** A skipped task is taken over from the parent run, or fails with the reason of the first gate it misses. */
    method InitGated(r: RunId, replay: Replay, parentSuccess: set<Key>, skipped: set<Key>, key: Key, ghost s0: State)
      returns (ok: bool)
      requires key in config.Spec(r).plan && skipped == config.Spec(r).Skipped()
      requires config.Spec(r).replay == Some(replay) && parentSuccess == ParentSuccess(s0, replay.parent)
      modifies this
      ensures Snapshot() == InitRow(config, s0, old(Snapshot()), r, key)
      ensures ok <==> (key in skipped ==> Refusal(config, s0, r, key).None?)
    {
      hide Upsert, Selected, GateFailure, ParentSuccess;
      var t := TaskId(r, key);
      ok := true;
      if key in skipped {
        var failure := GateFailure(replay.gate, parentSuccess, key);
        if failure.None? {
          UpsertOrTransitionTask(t, Success, 1);
        } else {
          UpsertOrTransitionTask(t, Failed, 1);
          blocked := blocked[t := failure.value];
          ok := false;
        }
      } else {
        UpsertOrTransitionTask(t, Pending, 1);
      }
    }

    method InitReplayTasksWithGating(r: RunId, replay: Replay, selected: set<Key>, skipped: set<Key>) returns (gatingOk: bool)
      requires selected == config.Spec(r).Selected() && skipped == config.Spec(r).Skipped()
      requires config.Spec(r).replay == Some(replay)
      modifies this
      ensures var s0 := old(Snapshot());
        && Snapshot() == InitRows(config, s0, s0, r, SortedKeys(config.Spec(r).plan.Keys))
        && gatingOk == GateAccepts(config, s0, r)
    {
      hide InitRows, InitRow, Selected, Skipped, ParentSuccess, AcceptsFirst, GateAccepts, Refusal, SortedKeys;
      ghost var s0 := Snapshot();
      var parentSuccess := LoadParentSuccessTasks(replay.parent);
      gatingOk := true;
      var keys := SortedKeys(config.Spec(r).plan.Keys);
      assert keys[0..] == keys;
      AcceptsNone(config, s0, r, keys);
      for i := 0 to |keys|
        invariant InitRows(config, s0, Snapshot(), r, keys[i..]) == InitRows(config, s0, s0, r, keys)
        invariant gatingOk == AcceptsFirst(config, s0, r, keys, i)
      {
        InitNext(config, s0, Snapshot(), r, keys, i);
        AcceptsNext(config, s0, r, keys, i);
        var ok := InitGated(r, replay, parentSuccess, skipped, keys[i], s0);
        gatingOk := gatingOk && ok;
      }
      InitStops(config, s0, Snapshot(), r, keys);
      AcceptsAll(config, s0, r);
    }

    method LoadParentSuccessTasks(parent: RunId) returns (keys: set<Key>)
      ensures keys == ParentSuccess(Snapshot(), parent)
    {
      keys := set t | t in tasks && t.run == parent && tasks[t].status == Success :: t.key;
    }

    // ----- the scheduler's main loop -----

    /** The first half of the loop, on the message at the head of the run queue. */
    method ConsumeRun()
      modifies this
      ensures Snapshot() == Next(config, old(Snapshot()), Step.ConsumeRun)
    {
      hide StartRun, CancelTasks, SlotTasks;
      if runQueue == [] {
        return;
      }
      var r := runQueue[0];
      runQueue := runQueue[1..];
      if r in runs && runs[r] == RunCancelled {
        var _ := CancelTasksForRun(r, false);
        return;
      }
      var used := ProjectRunningTasks(config.Spec(r).project);
      if used >= config.Spec(r).limit {
        runQueue := runQueue + [r];
      } else {
        Start(r);
      }
    }

    method Start(r: RunId)
      modifies this
      ensures Snapshot() == StartRun(config, old(Snapshot()), r)
    {
      hide InitRows, ScheduleReady, Selected;
      TransitionRunStatus(r, RunRunning);
      var selected, skipped := ApplyReplayFilter(config.Spec(r).plan, config.Spec(r).replayFrom);
      var replay := config.Spec(r).replay;
      if replay.Some? {
        var gatingOk := InitReplayTasksWithGating(r, replay.value, selected, skipped);
        if !gatingOk {
          TransitionRunStatus(r, RunFailed);
          return;
        }
      } else {
        InitRunTasks(r, selected, skipped);
      }
      var _ := ScheduleReadyTasks(r, config.Spec(r).limit);
    }

    /** The second half of the loop, on the message at the head of the done queue. */
    method HandleDone()
      modifies this
      ensures Snapshot() == Next(config, old(Snapshot()), Step.HandleDone)
    {
      hide DoneSuccess, DoneFailed;
      if done == [] {
        return;
      }
      var d := done[0];
      done := done[1..];
      if d.ok {
        RecordSuccess(d.msg.task, d.msg.attempt);
      } else {
        RecordFailure(d.msg.task, d.msg.attempt);
      }
    }

    method RecordSuccess(t: TaskId, attempt: int)
      modifies this
      ensures Snapshot() == DoneSuccess(config, old(Snapshot()), t, attempt)
    {
      hide Upsert, CancelTasks, ScheduleReady, SyncRun, Selected;
      UpsertOrTransitionTask(t, Success, attempt);
      if t.run in runs && runs[t.run] == RunCancelled {
        var _ := CancelTasksForRun(t.run, false);
        return;
      }
      var _ := ScheduleReadyTasks(t.run, Max(1, config.Spec(t.run).limit));
      var selected, _ := ApplyReplayFilter(config.Spec(t.run).plan, config.Spec(t.run).replayFrom);
      SyncRunStatusAfterTask(t.run, selected);
    }

    method RecordFailure(t: TaskId, attempt: int)
      modifies this
      ensures Snapshot() == DoneFailed(config, old(Snapshot()), t, attempt)
    {
      hide Upsert, Enqueue, SyncRun, Selected;
      UpsertOrTransitionTask(t, Failed, attempt);
      if ShouldRetry(attempt, config.Spec(t.run).MaxAttempts(t.key)) {
        var retryAttempt := NextAttempt(attempt);
        UpsertOrTransitionTask(t, Retry, retryAttempt);
        var retryOk := EnqueueTaskEvent(t, retryAttempt);
        if !retryOk {
          var selected, _ := ApplyReplayFilter(config.Spec(t.run).plan, config.Spec(t.run).replayFrom);
          SyncRunStatusAfterTask(t.run, selected);
        }
      } else {
        dlq := dlq + [Msg(t, attempt)];
        var selected, _ := ApplyReplayFilter(config.Spec(t.run).plan, config.Spec(t.run).replayFrom);
        SyncRunStatusAfterTask(t.run, selected);
      }
    }

    // ----- the executor -----

    /** The blocking pop over the three task queues, highest priority first. */
    method TakeTask() returns (m: Option<Msg>)
      modifies this
      ensures Snapshot() == Next(config, old(Snapshot()), ExecutorTake)
      ensures m.Some? ==> inFlight == old(inFlight) + multiset{m.value}
      ensures m.None? <==> old(high) == [] && old(normal) == [] && old(low) == []
    {
      if high != [] {
        m := Some(high[0]);
        high := high[1..];
      } else if normal != [] {
        m := Some(normal[0]);
        normal := normal[1..];
      } else if low != [] {
        m := Some(low[0]);
        low := low[1..];
      } else {
        return None;
      }
      inFlight := inFlight + multiset{m.value};
    }

    /** The executor pushes one done event for the task message it holds. */
    method ReportTask(m: Msg, ok: bool)
      requires m in inFlight
      modifies this
      ensures Snapshot() == Next(config, old(Snapshot()), ExecutorFinish(m, ok))
    {
      inFlight := inFlight - multiset{m};
      done := done + [Done(m, ok)];
    }

    // ----- the API -----

    /** The endpoint's two transactions; it reports whether the run exists. */
    method CancelRunAndTasks(r: RunId) returns (ok: bool)
      modifies this
      ensures Snapshot() == Next(config, Next(config, old(Snapshot()), ApiMarkCancelled(r)), ApiCancelTasks(r))
      ensures ok <==> r in old(runs)
    {
      if r !in runs {
        return false;
      }
      runs := runs[r := RunCancelled];
      var _ := CancelTasksForRun(r, false);
      ok := true;
    }
  }
}
