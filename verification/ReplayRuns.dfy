/**
 Gated replay does exactly the right work: an accepted gate takes over the skipped
 tasks without running them and runs only the start and what depends on it; a
 refused gate runs nothing at all and says why.
*/
module ReplayRuns {
  import opened Cancellation
  import opened Guarantees
  import opened Invariant
  import opened KeyOrder
  import opened Messages
  import opened Progress
  import opened Protocol
  import opened ReplayGate
  import opened ReplaySelection
  import opened Safety
  import opened TaskPlan
  import opened Wrappers

  // ----- the gate -----

  /** The gate accepts exactly when every skipped task is SUCCESS in the parent run and has each evidence that is demanded. */
  lemma GateAcceptsIff(c: Config, s: State, r: RunId)
    requires c.Spec(r).replay.Some?
    ensures var Replay(parent, g) := c.Spec(r).replay.value;
      GateAccepts(c, s, r) <==>
        forall k :: k in c.Spec(r).Skipped() ==>
          && TaskId(parent, k) in s.tasks && s.tasks[TaskId(parent, k)].status == Success
          && (g.requireEvidence ==> k in g.artifact)
          && (g.requireChecksum ==> k in g.checksum)
          && (g.requireSigned ==> k in g.manifest)
  {
    var Replay(parent, g) := c.Spec(r).replay.value;
    forall k ensures Refusal(c, s, r, k).None? <==>
        && TaskId(parent, k) in s.tasks && s.tasks[TaskId(parent, k)].status == Success
        && (g.requireEvidence ==> k in g.artifact)
        && (g.requireChecksum ==> k in g.checksum)
        && (g.requireSigned ==> k in g.manifest)
    {
      assert k in ParentSuccess(s, parent) <==> TaskId(parent, k) in s.tasks && s.tasks[TaskId(parent, k)].status == Success;
    }
  }

  lemma InitRowBlocks(c: Config, s0: State, s: State, r: RunId, key: Key)
    ensures InitRow(c, s0, s, r, key).blocked
            == if InitialStatus(c, s0, r, key) == Failed then s.blocked[TaskId(r, key) := Refusal(c, s0, r, key).value]
               else s.blocked
  {
    hide InitialStatus, Refusal, UpsertRow;
  }

  /** The recorded reasons: one for every refused task, and nothing else changes. */
  lemma {:induction false} InitRowsReasons(c: Config, s0: State, s: State, r: RunId, keys: seq<Key>)
    requires Distinct(keys)
    requires forall k :: k in keys ==> TaskId(r, k) !in s.tasks
    ensures var s' := InitRows(c, s0, s, r, keys);
      && (forall k :: k in keys && InitialStatus(c, s0, r, k) == Failed ==>
           TaskId(r, k) in s'.blocked && Some(s'.blocked[TaskId(r, k)]) == Refusal(c, s0, r, k))
      && (forall t: TaskId :: (t.run != r || t.key !in keys) ==>
           (t in s'.blocked <==> t in s.blocked) && (t in s.blocked ==> s'.blocked[t] == s.blocked[t]))
    decreases keys
  {
    hide Refusal;
    if keys != [] {
      var s1 := InitRow(c, s0, s, r, keys[0]);
      assert keys == [keys[0]] + keys[1..];
      InitRowOfFresh(c, s0, s, r, keys[0]);
      InitRowBlocks(c, s0, s, r, keys[0]);
      hide InitRow;
      InitRowsReasons(c, s0, s1, r, keys[1..]);
      assert keys[0] !in keys[1..];
      var s' := InitRows(c, s0, s1, r, keys[1..]);
      forall t: TaskId | t.run != r || t.key !in keys
        ensures (t in s'.blocked <==> t in s.blocked) && (t in s.blocked ==> s'.blocked[t] == s.blocked[t])
      {
        assert t.run != r || t.key !in keys[1..];
        assert t != TaskId(r, keys[0]);
      }
    }
  }

  // ----- a refused replay -----

  /** The run message at the head of the queue starts its run now. */
  predicate Starts(c: Config, s: State) {
    && s.runQueue != []
    && !IsCancelled(s, s.runQueue[0])
    && SlotsUsed(c, s, c.Spec(s.runQueue[0]).project) < c.Spec(s.runQueue[0]).limit
  }

  /** The state that the gate inspects: the run is already RUNNING. */
  function GateState(s: State): State
    requires s.runQueue != []
  {
    TransitionRun(s.(runQueue := s.runQueue[1..]), s.runQueue[0], RunRunning)
  }

  lemma ConsumeStarts(c: Config, s: State)
    requires Inv(c, s) && Starts(c, s)
    ensures s.runs[s.runQueue[0]] == RunPending
    ensures Consume(c, s) == StartRun(c, s.(runQueue := s.runQueue[1..]), s.runQueue[0])
  {
    hide RowsOk, MessagesOk, LogOk, StatusOk, CapacityOk, CleanOk, Outstanding, StartRun;
    QueuedHasNoRows(c, s);
  }

  lemma RefusedRows(c: Config, s: State)
    requires Inv(c, s) && Starts(c, s) && !GateAccepts(c, GateState(s), s.runQueue[0])
    ensures var r := s.runQueue[0]; var s' := Consume(c, s);
      && s'.log == s.log
      && r in s'.runs && s'.runs[r] == RunFailed
      && (forall k :: k in c.Spec(r).plan ==> TaskId(r, k) in s'.tasks)
      && (forall k :: k in c.Spec(r).Selected() ==> s'.tasks[TaskId(r, k)] == TaskRow(Pending, 1))
      && (forall k :: k in c.Spec(r).Skipped() ==>
           match Refusal(c, GateState(s), r, k)
           case None => s'.tasks[TaskId(r, k)] == TaskRow(Success, 1)
           case Some(reason) =>
             && s'.tasks[TaskId(r, k)] == TaskRow(Failed, 1)
             && TaskId(r, k) in s'.blocked && s'.blocked[TaskId(r, k)] == reason)
  {
    hide QueueOk, RowsOk, MessagesOk, LogOk, StatusOk, CapacityOk, CleanOk, CleanExcept, Complete;
    hide ScheduleReady, InitRows, GateAccepts, Refusal, StartRows, Consume;
    var r := s.runQueue[0];
    var s0 := s.(runQueue := s.runQueue[1..]);
    var s2 := Started(c, s0, r);
    var keys := SortedKeys(c.Spec(r).plan.Keys);
    ConsumeStarts(c, s);
    QueuedHasNoRows(c, s);
    StartedKeeps(c, s);
    CompleteRows(c, s2.tasks, r);
    InitRowsReasons(c, GateState(s), GateState(s), r, keys);
    assert forall k :: k in keys <==> k in c.Spec(r).plan;
  }

  lemma RefusalIs(c: Config, s: State, r: RunId, k: Key)
    requires s.runQueue != [] && !GateAccepts(c, GateState(s), r)
    ensures c.Spec(r).replay.Some?
    ensures Refusal(c, GateState(s), r, k)
            == GateFailure(c.Spec(r).replay.value.gate, ParentSuccess(s, c.Spec(r).replay.value.parent), k)
  {
    hide GateFailure, Skipped;
  }

  /** A refused gate dispatches nothing, fails the run, and marks each skipped task by its own evidence. */
  lemma RefusedReplay(c: Config, s: State)
    requires Inv(c, s) && Starts(c, s) && !GateAccepts(c, GateState(s), s.runQueue[0])
    ensures var r := s.runQueue[0]; var s' := Consume(c, s);
      && s'.log == s.log
      && r in s'.runs && s'.runs[r] == RunFailed
      && (forall k :: k in c.Spec(r).plan ==> TaskId(r, k) in s'.tasks)
      && (forall k :: k in c.Spec(r).Selected() ==> s'.tasks[TaskId(r, k)] == TaskRow(Pending, 1))
    ensures var r := s.runQueue[0]; var s' := Consume(c, s);
      && c.Spec(r).replay.Some?
      && var Replay(parent, gate) := c.Spec(r).replay.value;
         forall k :: k in c.Spec(r).Skipped() ==>
           (match GateFailure(gate, ParentSuccess(s, parent), k)
            case None => s'.tasks[TaskId(r, k)] == TaskRow(Success, 1)
            case Some(reason) =>
              && s'.tasks[TaskId(r, k)] == TaskRow(Failed, 1)
              && TaskId(r, k) in s'.blocked && s'.blocked[TaskId(r, k)] == reason)
  {
    assert s.runQueue != [];
    hide *;
    RefusedRows(c, s);
    forall k {
      RefusalIs(c, s, s.runQueue[0], k);
    }
  }

  ghost predicate NeverDispatched(s: State, r: RunId) {
    forall t: TaskId :: t.run == r ==> Attempts(s.log, t) == []
  }

  /** A run that left the queue without a dispatch is never dispatched. */
  lemma NeverDispatchedStays(c: Config, s: State, step: Step, r: RunId)
    requires Inv(c, s) && r in s.runs && s.runs[r] in {RunFailed, RunCancelled} && NeverDispatched(s, r)
    ensures NeverDispatched(Next(c, s, step), r)
    ensures r in Next(c, s, step).runs && Next(c, s, step).runs[r] in {RunFailed, RunCancelled}
  {
    hide Inv, Consume, Handle, Take, Finish, CancelTasks, Attempts;
    FinalRunsStay(c, s, step, r);
    match step
    case Submit(q) =>
    case RotateRuns =>
    case ConsumeRun => ConsumeHistory(c, s, r);
    case ExecutorTake => TakeFrame(s);
    case ExecutorFinish(m, ok) => FinishFrame(s, m, ok);
    case HandleDone =>
      if s.done == [] {
        NothingDone(c, s);
      } else {
        HeadWasDispatched(c, s);
        if s.done[0].ok {
          SuccessHistory(c, s, r);
        } else {
          FailureHistory(c, s);
        }
      }
    case ApiMarkCancelled(q) =>
    case ApiCancelTasks(q) => CancelKeepsLog(s, q);
  }

  lemma QueuedNeverDispatched(c: Config, s: State)
    requires Inv(c, s) && s.runQueue != []
    ensures NeverDispatched(s, s.runQueue[0])
  {
    hide MessagesOk, StatusOk, CapacityOk, CleanOk, RowsOk;
    var r := s.runQueue[0];
    QueuedHasNoRows(c, s);
    forall t: TaskId | t.run == r ensures Attempts(s.log, t) == [] {
      assert HistoryOk(c, s.tasks, s.log, t);
      assert t == TaskId(r, t.key);
    }
  }

  /** The gate refuses the run whose message is handled next. */
  ghost predicate RefusesNext(c: Config, s: State, r: RunId) {
    Starts(c, s) && r == s.runQueue[0] && !GateAccepts(c, GateState(s), r)
  }

  ghost predicate OverWithoutDispatch(s: State, r: RunId) {
    NeverDispatched(s, r) && r in s.runs && s.runs[r] in {RunFailed, RunCancelled}
  }

  lemma RefusalIsOver(c: Config, s: State, r: RunId)
    requires Inv(c, s) && RefusesNext(c, s, r)
    ensures OverWithoutDispatch(Consume(c, s), r)
  {
    hide Inv, NeverDispatched, GateAccepts, SlotTasks, Consume, Refusal;
    RefusedReplay(c, s);
    QueuedNeverDispatched(c, s);
    SameLogNeverDispatched(s, Consume(c, s), r);
  }

  /** Nothing of a refused replay is ever dispatched, whatever happens afterwards. */
  lemma {:induction false} RefusedReplayNeverRuns(c: Config, steps: seq<Step>, more: seq<Step>, r: RunId)
    requires !c.external && RefusesNext(c, Execute(c, steps), r)
    ensures OverWithoutDispatch(Execute(c, steps + [ConsumeRun] + more), r)
    decreases |more|
  {
    hide Inv, NeverDispatched, RefusesNext, Next, Execute;
    if more == [] {
      ReachableInv(c, steps);
      RefusalIsOver(c, Execute(c, steps), r);
      assert steps + [ConsumeRun] + more == steps + [ConsumeRun];
      ExecuteOne(c, steps, ConsumeRun);
      assert Next(c, Execute(c, steps), ConsumeRun) == Consume(c, Execute(c, steps)) by { NextConsumes(c, Execute(c, steps)); }
    } else {
      var before, last := more[..|more| - 1], more[|more| - 1];
      assert steps + [ConsumeRun] + more == steps + [ConsumeRun] + before + [last];
      RefusedReplayNeverRuns(c, steps, before, r);
      ReachableInv(c, steps + [ConsumeRun] + before);
      NeverDispatchedStays(c, Execute(c, steps + [ConsumeRun] + before), last, r);
      ExecuteOne(c, steps + [ConsumeRun] + before, last);
    }
  }

  lemma ExecuteOne(c: Config, steps: seq<Step>, step: Step)
    ensures Execute(c, steps + [step]) == Next(c, Execute(c, steps), step)
  {
    hide Next;
    assert (steps + [step])[..|steps|] == steps;
  }

  lemma NextConsumes(c: Config, s: State)
    ensures Next(c, s, ConsumeRun) == Consume(c, s)
  {
  }

  lemma SameLogNeverDispatched(s: State, s': State, r: RunId)
    requires NeverDispatched(s, r) && s'.log == s.log
    ensures NeverDispatched(s', r)
  {
  }

  // ----- an accepted replay -----

  /** An accepted gate leaves every skipped task SUCCESS. */
  lemma AcceptedReplay(c: Config, s: State)
    requires Inv(c, s) && Starts(c, s) && GateAccepts(c, GateState(s), s.runQueue[0])
    ensures var r := s.runQueue[0]; var s' := Consume(c, s);
      && r in s'.runs && s'.runs[r] == RunRunning
      && forall k :: k in c.Spec(r).Skipped() ==> TaskId(r, k) in s'.tasks && s'.tasks[TaskId(r, k)] == TaskRow(Success, 1)
  {
    hide QueueOk, RowsOk, MessagesOk, LogOk, StatusOk, CapacityOk, CleanOk, CleanExcept, Complete;
    hide ScheduleReady, InitRows, GateAccepts, Refusal, StartRows, Consume, LoopFrame, InitialStatus;
    var r := s.runQueue[0];
    var s0 := s.(runQueue := s.runQueue[1..]);
    var s2 := Started(c, s0, r);
    ConsumeStarts(c, s);
    QueuedHasNoRows(c, s);
    StartedKeeps(c, s);
    CompleteRows(c, s2.tasks, r);
    AcceptedIsClean(c, GateState(s), s2.tasks, r);
    CleanTogether(c, s2.runs, s2.tasks, r);
    KnownRun(c, s, r);
    LimitAtLeastOne(c, r);
    ScheduleReadyFrame(c, s2, r, c.Spec(r).limit);
    LoopSettled(s2, ScheduleReady(c, s2, r, c.Spec(r).limit), r);
    LoopFrameRuns(s2, ScheduleReady(c, s2, r, c.Spec(r).limit), r);
  }

  /** What a replay takes over was done: every skipped task is SUCCESS in the parent run, then and in every later state. */
  lemma TakenOverFromParent(c: Config, steps: seq<Step>, more: seq<Step>, k: Key)
    requires !c.external && Starts(c, Execute(c, steps))
    requires var s := Execute(c, steps); var spec := c.Spec(s.runQueue[0]);
      spec.replay.Some? && GateAccepts(c, GateState(s), s.runQueue[0]) && k in spec.Skipped()
    ensures var t := TaskId(c.Spec(Execute(c, steps).runQueue[0]).replay.value.parent, k);
      var later := Execute(c, steps + more).tasks; t in later && later[t].status == Success
  {
    hide Execute, Settled, GateFailure;
    var s := Execute(c, steps);
    var r := s.runQueue[0];
    var replay := c.Spec(r).replay.value;
    assert Refusal(c, GateState(s), r, k).None?;
    GateFailureIsFirst(replay.gate, ParentSuccess(GateState(s), replay.parent), k);
    assert Passes(replay.gate, ParentSuccess(GateState(s), replay.parent), k, GATES[0]);
    TerminalRowsStayForever(c, steps, more);
    SettledRow(s.tasks, Execute(c, steps + more).tasks, TaskId(replay.parent, k));
  }

  lemma SettledRow(a: Rows, b: Rows, t: TaskId)
    requires Settled(a, b) && t in a && Terminal(a[t].status)
    ensures t in b && b[t] == a[t]
  {
  }

  /** In every reachable state a replay has dispatched only its start and tasks downstream of it. */
  lemma ReplayRunsOnlyDownstream(c: Config, steps: seq<Step>, m: Msg)
    requires !c.external && m in Execute(c, steps).log
    requires var spec := c.Spec(m.task.run); spec.replayFrom.Some? && spec.replayFrom.value in spec.plan
    ensures Reaches(c.Spec(m.task.run).plan, c.Spec(m.task.run).replayFrom.value, m.task.key)
  {
    hide Execute;
    DependenciesFirst(c, steps, m);
  }
}
