/**
 Several scheduler replicas at work at once. Each handler is cut wherever it reads or
 changes a row or a Redis list, and the pieces of different replicas, executors and
 the API interleave freely; only a single row transition is one step. Run messages may
 be delivered again and run rows may be overwritten at any time. Internal execution mode.
*/
module StaleSnapshots {
  import opened KeyOrder
  import opened Protocol
  import opened RetryPolicy

  /** What a replica is in the middle of. `states` is the snapshot it has read, `resync` says what follows a round. */
  datatype Phase =
    | Idle
    | Popped(r: RunId)
    | Counting(r: RunId)
    | Returning(r: RunId)
    | Opening(r: RunId)
    | Gating(r: RunId)
    | Withdrawing(r: RunId, resync: bool)
    | Starting(r: RunId, start: State, todo: seq<Key>)
    | Checking(r: RunId, limit: int, resync: bool)
    | Reading(r: RunId, limit: int, resync: bool)
    | Scheduling(r: RunId, limit: int, resync: bool, states: Rows, todo: seq<Key>)
    | Claiming(r: RunId, limit: int, resync: bool, states: Rows, todo: seq<Key>)
    | Pushing(r: RunId, limit: int, resync: bool, states: Rows, todo: seq<Key>)
    | Syncing(r: RunId)
    | Cancelling(r: RunId, states: Rows, todo: seq<Key>)
    | Settling(r: RunId, states: Rows)
    | Recording(d: Done)
    | Deciding(d: Done)
    | Retrying(t: TaskId, attempt: int)
    | Requeueing(t: TaskId, attempt: int)

  datatype Cluster = Cluster(shared: State, replicas: map<nat, Phase>)

  function PhaseOf(x: Cluster, i: nat): Phase {
    if i in x.replicas then x.replicas[i] else Idle
  }

  datatype Move =
    | PopRun(i: nat)
    | PopDone(i: nat)
    | Advance(i: nat)
    | Deliver(r: RunId)
    | SetRunStatus(r: RunId, status: RunStatus)
    | CancelRows(r: RunId)
    | ExecutorTakes
    | ExecutorReports(m: Msg, ok: bool)

  // ----- the pieces of the handlers -----

  function AfterRound(r: RunId, resync: bool): Phase {
    if resync then Syncing(r) else Idle
  }

  /** One piece of the first half of the main loop, after the pop of a run message. */
  ghost function ConsumePiece(c: Config, s: State, p: Phase): (State, Phase)
    requires p.Popped? || p.Counting? || p.Returning? || p.Opening? || p.Gating? || p.Withdrawing?
  {
    match p
    case Popped(r) => (s, if IsCancelled(s, r) then Withdrawing(r, false) else Counting(r))
    case Counting(r) => (s, if SlotsUsed(c, s, c.Spec(r).project) >= c.Spec(r).limit then Returning(r) else Opening(r))
    case Returning(r) => (s.(runQueue := s.runQueue + [r]), Idle)
    case Opening(r) => (TransitionRun(s, r, RunRunning), Gating(r))
    case Gating(r) => (s, Starting(r, s, SortedKeys(c.Spec(r).plan.Keys)))
    case Withdrawing(r, resync) => (CancelTasks(s, r, false), AfterRound(r, resync))
  }

  ghost function StartPiece(c: Config, s: State, p: Phase): (State, Phase)
    requires p.Starting?
  {
    if p.todo != [] then (InitRow(c, p.start, s, p.r, p.todo[0]), Starting(p.r, p.start, p.todo[1..]))
    else if GateAccepts(c, p.start, p.r) then (s, Checking(p.r, c.Spec(p.r).limit, false))
    else (TransitionRun(s, p.r, RunFailed), Idle)
  }

  /** One piece of `_schedule_ready_tasks`. */
  ghost function RoundPiece(c: Config, s: State, p: Phase): (State, Phase)
    requires p.Checking? || p.Reading? || p.Scheduling? || p.Claiming? || p.Pushing?
    requires p.Claiming? || p.Pushing? ==> p.todo != []
  {
    match p
    case Checking(r, limit, resync) =>
      (s, if IsCancelled(s, r) then Withdrawing(r, resync) else Reading(r, limit, resync))
    case Reading(r, limit, resync) => (s, Scheduling(r, limit, resync, s.tasks, SortedKeys(c.Spec(r).Selected())))
    case Scheduling(r, limit, resync, states, todo) =>
      if todo == [] then (s, AfterRound(r, resync))
      else if !Ready(c, states, r, todo[0]) then (s, Scheduling(r, limit, resync, states, todo[1..]))
      else if SlotsUsed(c, s, c.Spec(r).project) >= limit then (s, AfterRound(r, resync))
      else (s, Claiming(r, limit, resync, states, todo))
    case Claiming(r, limit, resync, states, todo) =>
      (Upsert(s, TaskId(r, todo[0]), Running, Lookup(states, r, todo[0]).attempt), Pushing(r, limit, resync, states, todo))
    case Pushing(r, limit, resync, states, todo) =>
      (Push(s, c.Spec(r).priority, Msg(TaskId(r, todo[0]), Lookup(states, r, todo[0]).attempt)),
       Scheduling(r, limit, resync, states, todo[1..]))
  }

  /** One piece of `_sync_run_status_after_task`. */
  ghost function SyncPiece(c: Config, s: State, p: Phase): (State, Phase)
    requires p.Syncing? || p.Cancelling? || p.Settling?
  {
    match p
    case Syncing(r) => (s, Cancelling(r, s.tasks, SortedKeys(c.Spec(r).Selected())))
    case Cancelling(r, states, todo) =>
      if todo == [] then (s, Settling(r, states))
      else if Blocked(c, states, r, todo[0]) then
        (Upsert(s, TaskId(r, todo[0]), Cancelled, Lookup(states, r, todo[0]).attempt), Cancelling(r, states, todo[1..]))
      else (s, Cancelling(r, states, todo[1..]))
    case Settling(r, states) =>
      if c.Spec(r).Selected() != {} && AllSelected(c, states, r, Success) then (TransitionRun(s, r, RunSuccess), Idle)
      else if AnySelected(c, states, r, Failed) then (TransitionRun(s, r, RunFailed), Idle)
      else (s, Idle)
  }

  /** One piece of the handler of a done message. */
  ghost function DonePiece(c: Config, s: State, p: Phase): (State, Phase)
    requires p.Recording? || p.Deciding? || p.Retrying? || p.Requeueing?
  {
    match p
    case Recording(d) => (Upsert(s, d.msg.task, if d.ok then Success else Failed, d.msg.attempt), Deciding(d))
    case Deciding(d) =>
      var r := d.msg.task.run;
      if d.ok then
        (s, if IsCancelled(s, r) then Withdrawing(r, false) else Checking(r, Max(1, c.Spec(r).limit), true))
      else if ShouldRetry(d.msg.attempt, c.Spec(r).MaxAttempts(d.msg.task.key)) then
        (Upsert(s, d.msg.task, Retry, NextAttempt(d.msg.attempt)), Retrying(d.msg.task, NextAttempt(d.msg.attempt)))
      else (s.(dlq := s.dlq + [d.msg]), Syncing(r))
    case Retrying(t, attempt) => (Upsert(s, t, Running, attempt), Requeueing(t, attempt))
    case Requeueing(t, attempt) => (Push(s, c.Spec(t.run).priority, Msg(t, attempt)), Idle)
  }

  ghost function Piece(c: Config, s: State, p: Phase): (State, Phase) {
    if p.Idle? || ((p.Claiming? || p.Pushing?) && p.todo == []) then (s, p)
    else if p.Starting? then StartPiece(c, s, p)
    else if p.Popped? || p.Counting? || p.Returning? || p.Opening? || p.Gating? || p.Withdrawing? then ConsumePiece(c, s, p)
    else if p.Checking? || p.Reading? || p.Scheduling? || p.Claiming? || p.Pushing? then RoundPiece(c, s, p)
    else if p.Syncing? || p.Cancelling? || p.Settling? then SyncPiece(c, s, p)
    else DonePiece(c, s, p)
  }

  function With(x: Cluster, i: nat, next: (State, Phase)): Cluster {
    Cluster(next.0, x.replicas[i := next.1])
  }

  ghost predicate Enabled(x: Cluster, move: Move) {
    match move
    case PopRun(i) => PhaseOf(x, i).Idle? && x.shared.runQueue != []
    case PopDone(i) => PhaseOf(x, i).Idle? && x.shared.done != []
    case _ => true
  }

  ghost function Moved(c: Config, x: Cluster, move: Move): Cluster {
    var s := x.shared;
    if !Enabled(x, move) then x
    else
      match move
      case PopRun(i) => With(x, i, (s.(runQueue := s.runQueue[1..]), Popped(s.runQueue[0])))
      case PopDone(i) => With(x, i, (s.(done := s.done[1..]), Recording(s.done[0])))
      case Advance(i) => With(x, i, Piece(c, s, PhaseOf(x, i)))
      case Deliver(r) => x.(shared := s.(runQueue := s.runQueue + [r]))
      case SetRunStatus(r, status) => x.(shared := s.(runs := s.runs[r := status]))
      case CancelRows(r) => x.(shared := CancelTasks(s, r, false))
      case ExecutorTakes => x.(shared := Take(s))
      case ExecutorReports(m, ok) => x.(shared := Finish(s, m, ok))
  }

  ghost function Interleave(c: Config, moves: seq<Move>): Cluster {
    if moves == [] then Cluster(INITIAL, map[])
    else Moved(c, Interleave(c, moves[..|moves| - 1]), moves[|moves| - 1])
  }

  // ----- the invariant -----

  /** Successful rows stay successful. */
  ghost predicate SuccessKept(a: Rows, b: Rows) {
    forall t :: t in a && a[t].status == Success ==> t in b && b[t].status == Success
  }

  function LoggedTasks(log: seq<Msg>): set<TaskId> {
    set m | m in log :: m.task
  }

  ghost predicate Justified(c: Config, tasks: Rows, t: TaskId) {
    t.key in c.Spec(t.run).Selected() && DepsDone(tasks, t.run, c.Spec(t.run).Deps(t.key))
  }

  ghost predicate AllJustified(c: Config, tasks: Rows, logged: set<TaskId>) {
    forall t :: t in logged ==> Justified(c, tasks, t)
  }

  ghost predicate OnlyLogged(s: State, logged: set<TaskId>) {
    && (forall m :: m in s.high ==> m.task in logged)
    && (forall m :: m in s.normal ==> m.task in logged)
    && (forall m :: m in s.low ==> m.task in logged)
    && (forall m :: m in s.inFlight ==> m.task in logged)
    && (forall d :: d in s.done ==> d.msg.task in logged)
  }

  ghost predicate PhaseOk(c: Config, tasks: Rows, logged: set<TaskId>, p: Phase) {
    match p
    case Scheduling(r, _, _, states, todo) => SuccessKept(states, tasks) && AreSelected(c, r, todo)
    case Claiming(r, _, _, states, todo) =>
      SuccessKept(states, tasks) && AreSelected(c, r, todo) && todo != [] && Justified(c, states, TaskId(r, todo[0]))
    case Pushing(r, _, _, states, todo) =>
      SuccessKept(states, tasks) && AreSelected(c, r, todo) && todo != [] && Justified(c, states, TaskId(r, todo[0]))
    case Recording(d) => d.msg.task in logged
    case Deciding(d) => d.msg.task in logged
    case Retrying(t, _) => t in logged
    case Requeueing(t, _) => t in logged
    case _ => true
  }

  ghost predicate AreSelected(c: Config, r: RunId, keys: seq<Key>) {
    forall k :: k in keys ==> k in c.Spec(r).Selected()
  }

  ghost predicate SharedOk(c: Config, s: State) {
    AllJustified(c, s.tasks, LoggedTasks(s.log)) && OnlyLogged(s, LoggedTasks(s.log))
  }

  ghost predicate ClusterOk(c: Config, x: Cluster) {
    && SharedOk(c, x.shared)
    && forall i :: i in x.replicas ==> PhaseOk(c, x.shared.tasks, LoggedTasks(x.shared.log), x.replicas[i])
  }

  // ----- what every piece keeps -----

  /** What a piece may do to the shared state: keep successes, and log justified tasks only. */
  ghost predicate Grows(s: State, s': State) {
    SuccessKept(s.tasks, s'.tasks) && LoggedTasks(s.log) <= LoggedTasks(s'.log)
  }

  lemma UpsertKeepsSuccess(rows: Rows, t: TaskId, to: TaskStatus, attempt: int)
    ensures SuccessKept(rows, UpsertRow(rows, t, to, attempt))
  {
  }

  lemma JustifiedLater(c: Config, a: Rows, b: Rows, t: TaskId)
    requires SuccessKept(a, b) && Justified(c, a, t)
    ensures Justified(c, b, t)
  {
    forall d | d in c.Spec(t.run).Deps(t.key) ensures Lookup(b, t.run, d).status == Success {
      assert Lookup(a, t.run, d).status == Success;
      assert TaskId(t.run, d) in a;
    }
  }

  lemma SuccessKeptTrans(a: Rows, b: Rows, d: Rows)
    requires SuccessKept(a, b) && SuccessKept(b, d)
    ensures SuccessKept(a, d)
  {
  }

  /** The same channels and log, other rows. */
  lemma RowsChange(c: Config, s: State, s': State)
    requires SharedOk(c, s) && SuccessKept(s.tasks, s'.tasks)
    requires s'.log == s.log && s'.high == s.high && s'.normal == s.normal && s'.low == s.low
    requires s'.inFlight == s.inFlight && s'.done == s.done
    ensures SharedOk(c, s') && Grows(s, s')
  {
    forall t | t in LoggedTasks(s.log) ensures Justified(c, s'.tasks, t) {
      JustifiedLater(c, s.tasks, s'.tasks, t);
    }
  }

  lemma UpsertShared(c: Config, s: State, t: TaskId, to: TaskStatus, attempt: int)
    requires SharedOk(c, s)
    ensures var s' := Upsert(s, t, to, attempt); SharedOk(c, s') && Grows(s, s')
  {
    hide SharedOk, UpsertRow, Grows, SuccessKept;
    UpsertKeepsSuccess(s.tasks, t, to, attempt);
    RowsChange(c, s, Upsert(s, t, to, attempt));
  }

  lemma CancelShared(c: Config, s: State, r: RunId)
    requires SharedOk(c, s)
    ensures var s' := CancelTasks(s, r, false); SharedOk(c, s') && Grows(s, s')
  {
    hide SharedOk;
    RowsChange(c, s, CancelTasks(s, r, false));
  }

  lemma RunsShared(c: Config, s: State, s': State)
    requires SharedOk(c, s) && s' == s.(runs := s'.runs, runQueue := s'.runQueue, dlq := s'.dlq, blocked := s'.blocked)
    ensures SharedOk(c, s') && Grows(s, s')
  {
  }

  lemma InitShared(c: Config, s: State, start: State, r: RunId, key: Key)
    requires SharedOk(c, s)
    ensures var s' := InitRow(c, start, s, r, key); SharedOk(c, s') && Grows(s, s')
  {
    hide SharedOk, Grows, InitialStatus, Refusal, UpsertRow;
    var s1 := Upsert(s, TaskId(r, key), InitialStatus(c, start, r, key), 1);
    UpsertShared(c, s, TaskId(r, key), InitialStatus(c, start, r, key), 1);
    RunsShared(c, s1, InitRow(c, start, s, r, key));
    GrowsTrans(s, s1, InitRow(c, start, s, r, key));
  }

  lemma GrowsTrans(a: State, b: State, d: State)
    requires Grows(a, b) && Grows(b, d)
    ensures Grows(a, d)
  {
    SuccessKeptTrans(a.tasks, b.tasks, d.tasks);
  }

  lemma LoggedPush(log: seq<Msg>, m: Msg)
    ensures LoggedTasks(log + [m]) == LoggedTasks(log) + {m.task}
  {
    assert m in log + [m];
  }

  lemma PushShared(c: Config, s: State, priority: Priority, m: Msg)
    requires SharedOk(c, s) && Justified(c, s.tasks, m.task)
    ensures var s' := Push(s, priority, m); SharedOk(c, s') && Grows(s, s')
  {
    hide Justified;
    LoggedPush(s.log, m);
  }

  lemma PhaseLater(c: Config, s: State, s': State, p: Phase)
    requires PhaseOk(c, s.tasks, LoggedTasks(s.log), p) && Grows(s, s')
    ensures PhaseOk(c, s'.tasks, LoggedTasks(s'.log), p)
  {
    hide AreSelected, Justified, LoggedTasks, SuccessKept;
    if p.Scheduling? || p.Claiming? || p.Pushing? {
      SuccessKeptTrans(p.states, s.tasks, s'.tasks);
    }
  }

  /** A piece takes its replica from a good phase to a good phase. */
  ghost predicate PieceOk(c: Config, s: State, next: (State, Phase)) {
    && SharedOk(c, next.0)
    && Grows(s, next.0)
    && PhaseOk(c, next.0.tasks, LoggedTasks(next.0.log), next.1)
  }

  lemma SameShared(c: Config, s: State)
    requires SharedOk(c, s)
    ensures Grows(s, s)
  {
  }

  lemma PopRunOk(c: Config, s: State)
    requires SharedOk(c, s) && s.runQueue != []
    ensures PieceOk(c, s, (s.(runQueue := s.runQueue[1..]), Popped(s.runQueue[0])))
  {
    hide SharedOk, Grows, LoggedTasks;
    RunsShared(c, s, s.(runQueue := s.runQueue[1..]));
  }

  lemma ConsumeOk(c: Config, s: State, p: Phase)
    requires SharedOk(c, s)
    requires p.Popped? || p.Counting? || p.Returning? || p.Opening? || p.Gating? || p.Withdrawing?
    ensures PieceOk(c, s, ConsumePiece(c, s, p))
  {
    hide SharedOk, CancelTasks, SlotTasks, Grows, LoggedTasks, TransitionRun;
    SameShared(c, s);
    match p
    case Popped(r) =>
    case Counting(r) =>
    case Returning(r) => RunsShared(c, s, s.(runQueue := s.runQueue + [r]));
    case Opening(r) => TransitionShared(c, s, r, RunRunning);
    case Gating(r) =>
    case Withdrawing(r, resync) => CancelShared(c, s, r);
  }

  lemma StartOk(c: Config, s: State, p: Phase)
    requires SharedOk(c, s) && p.Starting?
    ensures PieceOk(c, s, StartPiece(c, s, p))
  {
    hide SharedOk, InitRow, Grows, GateAccepts, LoggedTasks;
    if p.todo != [] {
      InitShared(c, s, p.start, p.r, p.todo[0]);
    } else {
      SameShared(c, s);
      TransitionShared(c, s, p.r, RunFailed);
    }
  }

  lemma RoundOk(c: Config, s: State, p: Phase)
    requires SharedOk(c, s) && PhaseOk(c, s.tasks, LoggedTasks(s.log), p)
    requires p.Checking? || p.Reading? || p.Scheduling? || p.Claiming? || p.Pushing?
    ensures PieceOk(c, s, RoundPiece(c, s, p))
  {
    hide SharedOk, CancelTasks, Grows, Lookup, SlotTasks, LoggedTasks, SuccessKept, Upsert, Push, DepsDone;
    SameShared(c, s);
    match p
    case Checking(r, limit, resync) =>
    case Reading(r, limit, resync) => assert SuccessKept(s.tasks, s.tasks) by { KeptRefl(s.tasks); }
    case Scheduling(r, limit, resync, states, todo) =>
    case Claiming(r, limit, resync, states, todo) =>
      UpsertShared(c, s, TaskId(r, todo[0]), Running, Lookup(states, r, todo[0]).attempt);
      KeptBy(c, s, Upsert(s, TaskId(r, todo[0]), Running, Lookup(states, r, todo[0]).attempt), states);
    case Pushing(r, limit, resync, states, todo) =>
      var m := Msg(TaskId(r, todo[0]), Lookup(states, r, todo[0]).attempt);
      JustifiedLater(c, states, s.tasks, m.task);
      PushShared(c, s, c.Spec(r).priority, m);
      KeptBy(c, s, Push(s, c.Spec(r).priority, m), states);
  }

  lemma KeptRefl(a: Rows)
    ensures SuccessKept(a, a)
  {
  }

  lemma KeptBy(c: Config, s: State, s': State, states: Rows)
    requires SuccessKept(states, s.tasks) && Grows(s, s')
    ensures SuccessKept(states, s'.tasks)
  {
    SuccessKeptTrans(states, s.tasks, s'.tasks);
  }

  lemma SyncOk(c: Config, s: State, p: Phase)
    requires SharedOk(c, s) && (p.Syncing? || p.Cancelling? || p.Settling?)
    ensures PieceOk(c, s, SyncPiece(c, s, p))
  {
    hide SharedOk, Grows, LoggedTasks;
    SameShared(c, s);
    if p.Cancelling? {
      CancellingOk(c, s, p);
    } else if p.Settling? {
      SettlingOk(c, s, p);
    }
  }

  lemma CancellingOk(c: Config, s: State, p: Phase)
    requires SharedOk(c, s) && p.Cancelling?
    ensures PieceOk(c, s, SyncPiece(c, s, p))
  {
    hide SharedOk, Grows, Lookup, LoggedTasks, Upsert, Blocked;
    SameShared(c, s);
    if p.todo != [] {
      UpsertShared(c, s, TaskId(p.r, p.todo[0]), Cancelled, Lookup(p.states, p.r, p.todo[0]).attempt);
    }
  }

  lemma SettlingOk(c: Config, s: State, p: Phase)
    requires SharedOk(c, s) && p.Settling?
    ensures PieceOk(c, s, SyncPiece(c, s, p))
  {
    hide SharedOk, Grows, LoggedTasks, AllSelected, AnySelected, TransitionRun;
    SameShared(c, s);
    TransitionShared(c, s, p.r, RunSuccess);
    TransitionShared(c, s, p.r, RunFailed);
  }

  lemma TransitionShared(c: Config, s: State, r: RunId, to: RunStatus)
    requires SharedOk(c, s)
    ensures SharedOk(c, TransitionRun(s, r, to)) && Grows(s, TransitionRun(s, r, to))
  {
    hide SharedOk, Grows;
    RunsShared(c, s, TransitionRun(s, r, to));
  }

  lemma DoneOk(c: Config, s: State, p: Phase)
    requires SharedOk(c, s) && PhaseOk(c, s.tasks, LoggedTasks(s.log), p)
    requires p.Recording? || p.Deciding? || p.Retrying? || p.Requeueing?
    ensures PieceOk(c, s, DonePiece(c, s, p))
  {
    hide SharedOk, CancelTasks, LoggedTasks, Upsert, Push, Justified;
    SameShared(c, s);
    match p
    case Recording(d) => UpsertShared(c, s, d.msg.task, if d.ok then Success else Failed, d.msg.attempt);
    case Deciding(d) =>
      UpsertShared(c, s, d.msg.task, Retry, NextAttempt(d.msg.attempt));
      RunsShared(c, s, s.(dlq := s.dlq + [d.msg]));
    case Retrying(t, attempt) => UpsertShared(c, s, t, Running, attempt);
    case Requeueing(t, attempt) =>
      LoggedIsJustified(c, s, t);
      PushShared(c, s, c.Spec(t.run).priority, Msg(t, attempt));
  }

  lemma LoggedIsJustified(c: Config, s: State, t: TaskId)
    requires SharedOk(c, s) && t in LoggedTasks(s.log)
    ensures Justified(c, s.tasks, t)
  {
  }

  lemma WithOk(c: Config, x: Cluster, i: nat, next: (State, Phase))
    requires ClusterOk(c, x) && PieceOk(c, x.shared, next)
    ensures ClusterOk(c, With(x, i, next)) && Grows(x.shared, next.0)
  {
    hide SharedOk, PhaseOk, Grows, LoggedTasks;
    forall j | j in x.replicas ensures PhaseOk(c, next.0.tasks, LoggedTasks(next.0.log), x.replicas[j]) {
      PhaseLater(c, x.shared, next.0, x.replicas[j]);
    }
  }

  lemma SharedMoves(c: Config, x: Cluster, s': State)
    requires ClusterOk(c, x) && SharedOk(c, s') && Grows(x.shared, s')
    ensures ClusterOk(c, x.(shared := s'))
  {
    hide SharedOk, PhaseOk, Grows, LoggedTasks;
    forall j | j in x.replicas ensures PhaseOk(c, s'.tasks, LoggedTasks(s'.log), x.replicas[j]) {
      PhaseLater(c, x.shared, s', x.replicas[j]);
    }
  }

  lemma PieceKeeps(c: Config, s: State, p: Phase)
    requires SharedOk(c, s) && PhaseOk(c, s.tasks, LoggedTasks(s.log), p)
    ensures PieceOk(c, s, Piece(c, s, p))
  {
    hide SharedOk, Grows, LoggedTasks, StartPiece, ConsumePiece, RoundPiece, SyncPiece, DonePiece;
    SameShared(c, s);
    if p.Starting? {
      StartOk(c, s, p);
    } else if p.Popped? || p.Counting? || p.Returning? || p.Opening? || p.Gating? || p.Withdrawing? {
      ConsumeOk(c, s, p);
    } else if p.Checking? || p.Reading? || p.Scheduling? || p.Claiming? || p.Pushing? {
      RoundOk(c, s, p);
    } else if p.Syncing? || p.Cancelling? || p.Settling? {
      SyncOk(c, s, p);
    } else if !p.Idle? {
      DoneOk(c, s, p);
    }
  }

  lemma ChannelsMove(c: Config, s: State, s': State)
    requires SharedOk(c, s) && s'.tasks == s.tasks && s'.log == s.log
    requires forall m :: m in s'.high ==> m in s.high
    requires forall m :: m in s'.normal ==> m in s.normal
    requires forall m :: m in s'.low ==> m in s.low
    requires forall m :: m in s'.inFlight ==> m in s.inFlight || m in s.high || m in s.normal || m in s.low
    requires forall d :: d in s'.done ==> d in s.done || d.msg in s.inFlight
    ensures SharedOk(c, s') && Grows(s, s')
  {
    hide LoggedTasks, AllJustified;
    KeptRefl(s.tasks);
  }

  lemma TakeShared(c: Config, s: State)
    requires SharedOk(c, s)
    ensures SharedOk(c, Take(s)) && Grows(s, Take(s))
  {
    hide SharedOk, Grows;
    if s.high != [] {
      HeldElements(s.inFlight, s.high[0]);
      ChannelsMove(c, s, s.(high := s.high[1..], inFlight := s.inFlight + multiset{s.high[0]}));
    } else if s.normal != [] {
      HeldElements(s.inFlight, s.normal[0]);
      ChannelsMove(c, s, s.(normal := s.normal[1..], inFlight := s.inFlight + multiset{s.normal[0]}));
    } else if s.low != [] {
      HeldElements(s.inFlight, s.low[0]);
      ChannelsMove(c, s, s.(low := s.low[1..], inFlight := s.inFlight + multiset{s.low[0]}));
    } else {
      SameShared(c, s);
    }
  }

  lemma HeldElements(held: multiset<Msg>, m: Msg)
    ensures forall x :: x in held + multiset{m} ==> x in held || x == m
  {
  }

  lemma FinishShared(c: Config, s: State, m: Msg, ok: bool)
    requires SharedOk(c, s)
    ensures SharedOk(c, Finish(s, m, ok)) && Grows(s, Finish(s, m, ok))
  {
    hide SharedOk, Grows;
    ChannelsMove(c, s, Finish(s, m, ok));
  }

  lemma PopDoneOk(c: Config, s: State)
    requires SharedOk(c, s) && s.done != []
    ensures PieceOk(c, s, (s.(done := s.done[1..]), Recording(s.done[0])))
  {
    ChannelsMove(c, s, s.(done := s.done[1..]));
    hide AllJustified, LoggedTasks;
    assert s.done[0] in s.done;
  }

  lemma MoveKeeps(c: Config, x: Cluster, move: Move)
    requires ClusterOk(c, x)
    ensures ClusterOk(c, Moved(c, x, move)) && Grows(x.shared, Moved(c, x, move).shared)
  {
    hide SharedOk, PhaseOk, Grows, LoggedTasks, Piece, Take, Finish, CancelTasks;
    var s := x.shared;
    SameShared(c, s);
    if Enabled(x, move) {
      match move
      case PopRun(i) =>
        PopRunOk(c, s);
        WithOk(c, x, i, (s.(runQueue := s.runQueue[1..]), Popped(s.runQueue[0])));
      case PopDone(i) =>
        PopDoneOk(c, s);
        WithOk(c, x, i, (s.(done := s.done[1..]), Recording(s.done[0])));
      case Advance(i) =>
        IdleOk(c, s);
        PieceKeeps(c, s, PhaseOf(x, i));
        WithOk(c, x, i, Piece(c, s, PhaseOf(x, i)));
      case Deliver(r) => RunsMove(c, x, s.(runQueue := s.runQueue + [r]));
      case SetRunStatus(r, status) => RunsMove(c, x, s.(runs := s.runs[r := status]));
      case CancelRows(r) =>
        CancelShared(c, s, r);
        SharedMoves(c, x, CancelTasks(s, r, false));
      case ExecutorTakes =>
        TakeShared(c, s);
        SharedMoves(c, x, Take(s));
      case ExecutorReports(m, ok) =>
        FinishShared(c, s, m, ok);
        SharedMoves(c, x, Finish(s, m, ok));
    }
  }

  lemma IdleOk(c: Config, s: State)
    ensures PhaseOk(c, s.tasks, LoggedTasks(s.log), Idle)
  {
  }

  lemma RunsMove(c: Config, x: Cluster, s': State)
    requires ClusterOk(c, x) && s' == x.shared.(runs := s'.runs, runQueue := s'.runQueue)
    ensures ClusterOk(c, x.(shared := s')) && Grows(x.shared, s')
  {
    hide SharedOk, PhaseOk, Grows, LoggedTasks;
    RunsShared(c, x.shared, s');
    SharedMoves(c, x, s');
  }

  lemma {:induction false} EveryInterleavingOk(c: Config, moves: seq<Move>)
    ensures ClusterOk(c, Interleave(c, moves))
  {
    hide ClusterOk, Moved, Grows;
    if moves == [] {
      InitialOk(c);
    } else {
      EveryInterleavingOk(c, moves[..|moves| - 1]);
      MoveKeeps(c, Interleave(c, moves[..|moves| - 1]), moves[|moves| - 1]);
    }
  }

  lemma InitialOk(c: Config)
    ensures ClusterOk(c, Cluster(INITIAL, map[]))
  {
  }

  // ----- main results -----

  /**
   In every interleaving a task message is pushed only for a selected task all of whose
   dependencies are SUCCESS: at the moment of the push and in every later state.
  */
  lemma DispatchedAfterDependencies(c: Config, moves: seq<Move>, more: seq<Move>, m: Msg, d: Key)
    requires m in Interleave(c, moves).shared.log && d in c.Spec(m.task.run).Deps(m.task.key)
    ensures m.task.key in c.Spec(m.task.run).Selected()
    ensures var rows := Interleave(c, moves + more).shared.tasks;
      TaskId(m.task.run, d) in rows && rows[TaskId(m.task.run, d)].status == Success
  {
    hide Interleave, PhaseOk, OnlyLogged;
    EveryInterleavingOk(c, moves);
    SuccessStays(c, moves, more);
    var s := Interleave(c, moves).shared;
    assert m.task in LoggedTasks(s.log);
    assert Lookup(s.tasks, m.task.run, d).status == Success;
  }

  /** No interleaving takes a success back. */
  lemma {:induction false} SuccessStays(c: Config, moves: seq<Move>, more: seq<Move>)
    ensures SuccessKept(Interleave(c, moves).shared.tasks, Interleave(c, moves + more).shared.tasks)
    decreases |more|
  {
    hide SuccessKept, Moved, ClusterOk, LoggedTasks;
    if more == [] {
      assert moves + more == moves;
      KeptRefl(Interleave(c, moves).shared.tasks);
    } else {
      var before := more[..|more| - 1];
      assert (moves + more)[..|moves + more| - 1] == moves + before;
      SuccessStays(c, moves, before);
      EveryInterleavingOk(c, moves + before);
      MoveKeeps(c, Interleave(c, moves + before), more[|more| - 1]);
      SuccessKeptTrans(Interleave(c, moves).shared.tasks, Interleave(c, moves + before).shared.tasks,
                       Interleave(c, moves + more).shared.tasks);
    }
  }

  // ----- a replica that is not interrupted -----

  /** The next `n` pieces of one replica, with nothing in between. */
  ghost function Alone(c: Config, s: State, p: Phase, n: nat): (State, Phase)
    decreases n
  {
    if n == 0 then (s, p) else Alone(c, Piece(c, s, p).0, Piece(c, s, p).1, n - 1)
  }

  lemma {:induction false} AloneAdds(c: Config, s: State, p: Phase, n: nat, m: nat)
    ensures var (s1, p1) := Alone(c, s, p, n); Alone(c, s, p, n + m) == Alone(c, s1, p1, m)
    decreases n
  {
    hide Piece;
    if n > 0 {
      AloneAdds(c, Piece(c, s, p).0, Piece(c, s, p).1, n - 1, m);
    }
  }

  lemma OnePiece(c: Config, s: State, p: Phase, n: nat)
    ensures Alone(c, s, p, n + 1) == Alone(c, Piece(c, s, p).0, Piece(c, s, p).1, n)
  {
    hide Piece;
  }

  lemma OneRoundPiece(c: Config, s: State, p: Phase, n: nat)
    requires p.Checking? || p.Reading? || p.Scheduling? || ((p.Claiming? || p.Pushing?) && p.todo != [])
    ensures Alone(c, s, p, n + 1) == Alone(c, RoundPiece(c, s, p).0, RoundPiece(c, s, p).1, n)
  {
    hide RoundPiece;
  }

  lemma OneSyncPiece(c: Config, s: State, p: Phase, n: nat)
    requires p.Syncing? || p.Cancelling? || p.Settling?
    ensures Alone(c, s, p, n + 1) == Alone(c, SyncPiece(c, s, p).0, SyncPiece(c, s, p).1, n)
  {
    hide SyncPiece;
  }

  lemma OneDonePiece(c: Config, s: State, p: Phase, n: nat)
    requires p.Recording? || p.Deciding? || p.Retrying? || p.Requeueing?
    ensures Alone(c, s, p, n + 1) == Alone(c, DonePiece(c, s, p).0, DonePiece(c, s, p).1, n)
  {
    hide DonePiece;
  }

  lemma OneConsumePiece(c: Config, s: State, p: Phase, n: nat)
    requires p.Popped? || p.Counting? || p.Returning? || p.Opening? || p.Gating? || p.Withdrawing?
    ensures Alone(c, s, p, n + 1) == Alone(c, ConsumePiece(c, s, p).0, ConsumePiece(c, s, p).1, n)
  {
    hide ConsumePiece;
  }

  /** Three pieces make one dispatch. */
  lemma DispatchAlone(c: Config, s: State, r: RunId, limit: int, resync: bool, rows: Rows, keys: seq<Key>, n: nat)
    requires !c.external && keys != [] && Ready(c, rows, r, keys[0]) && SlotsUsed(c, s, c.Spec(r).project) < limit
    ensures Alone(c, s, Scheduling(r, limit, resync, rows, keys), n + 3)
            == Alone(c, Enqueue(c, s, TaskId(r, keys[0]), Lookup(rows, r, keys[0]).attempt).0,
                     Scheduling(r, limit, resync, rows, keys[1..]), n)
  {
    hide Piece, Alone, SlotsUsed, Ready, Upsert, Push, Lookup;
    OneRoundPiece(c, s, Scheduling(r, limit, resync, rows, keys), n + 2);
    OneRoundPiece(c, s, Claiming(r, limit, resync, rows, keys), n + 1);
    var s1 := Upsert(s, TaskId(r, keys[0]), Running, Lookup(rows, r, keys[0]).attempt);
    OneRoundPiece(c, s1, Pushing(r, limit, resync, rows, keys), n);
  }

  lemma {:induction false} LoopAlone(c: Config, s: State, r: RunId, limit: int, resync: bool, rows: Rows, keys: seq<Key>)
      returns (n: nat)
    requires !c.external
    ensures Alone(c, s, Scheduling(r, limit, resync, rows, keys), n)
            == (ScheduleLoop(c, s, r, limit, keys, rows, false).0, AfterRound(r, resync))
    ensures !ScheduleLoop(c, s, r, limit, keys, rows, false).1
    decreases keys
  {
    hide Piece, Alone, SlotsUsed, Ready, Lookup, Dispatch;
    var p := Scheduling(r, limit, resync, rows, keys);
    if keys != [] && !Ready(c, rows, r, keys[0]) {
      n := LoopAlone(c, s, r, limit, resync, rows, keys[1..]);
      OneRoundPiece(c, s, p, n);
      n := n + 1;
    } else if keys != [] && SlotsUsed(c, s, c.Spec(r).project) < limit {
      var s1 := Enqueue(c, s, TaskId(r, keys[0]), Lookup(rows, r, keys[0]).attempt).0;
      n := LoopAlone(c, s1, r, limit, resync, rows, keys[1..]);
      DispatchAlone(c, s, r, limit, resync, rows, keys, n);
      n := n + 3;
    } else {
      n := 1;
      OneRoundPiece(c, s, p, 0);
      AloneNone(c, s, AfterRound(r, resync));
    }
  }

  lemma AloneNone(c: Config, s: State, p: Phase)
    ensures Alone(c, s, p, 0) == (s, p)
  {
  }

  lemma WithdrawAlone(c: Config, s: State, r: RunId, resync: bool)
    ensures Alone(c, s, Withdrawing(r, resync), 1) == (CancelTasks(s, r, false), AfterRound(r, resync))
  {
    hide Piece, Alone, CancelTasks;
    OneConsumePiece(c, s, Withdrawing(r, resync), 0);
    AloneNone(c, CancelTasks(s, r, false), AfterRound(r, resync));
  }

  lemma RoundAlone(c: Config, s: State, r: RunId, limit: int, resync: bool) returns (n: nat)
    requires !c.external
    ensures Alone(c, s, Checking(r, limit, resync), n) == (ScheduleReady(c, s, r, limit), AfterRound(r, resync))
  {
    hide Piece, Alone, CancelTasks, ScheduleLoop;
    if IsCancelled(s, r) {
      n := 1;
      WithdrawAlone(c, s, r, resync);
    } else {
      n := LoopAlone(c, s, r, limit, resync, s.tasks, SortedKeys(c.Spec(r).Selected()));
      OneRoundPiece(c, s, Reading(r, limit, resync), n);
      n := n + 1;
    }
    OneRoundPiece(c, s, Checking(r, limit, resync), n);
    n := n + 1;
  }

  lemma {:induction false} CancelAlone(c: Config, s: State, r: RunId, rows: Rows, keys: seq<Key>) returns (n: nat)
    ensures Alone(c, s, Cancelling(r, rows, keys), n) == (CancelBlocked(c, s, r, keys, rows), Settling(r, rows))
    decreases keys
  {
    hide Piece, Alone, Blocked, Upsert, Lookup;
    if keys == [] {
      n := 1;
      OneSyncPiece(c, s, Cancelling(r, rows, keys), 0);
      AloneNone(c, s, Settling(r, rows));
    } else {
      var s1 := SyncPiece(c, s, Cancelling(r, rows, keys)).0;
      n := CancelAlone(c, s1, r, rows, keys[1..]);
      OneSyncPiece(c, s, Cancelling(r, rows, keys), n);
      n := n + 1;
    }
  }

  lemma SyncAlone(c: Config, s: State, r: RunId) returns (n: nat)
    ensures Alone(c, s, Syncing(r), n) == (SyncRun(c, s, r), Idle)
  {
    hide Piece, Alone, CancelBlocked, AllSelected, AnySelected;
    var keys := SortedKeys(c.Spec(r).Selected());
    n := CancelAlone(c, s, r, s.tasks, keys);
    var s1 := CancelBlocked(c, s, r, keys, s.tasks);
    AloneAdds(c, s, Cancelling(r, s.tasks, keys), n, 1);
    OneSyncPiece(c, s1, Settling(r, s.tasks), 0);
    AloneNone(c, SyncRun(c, s, r), Idle);
    OneSyncPiece(c, s, Syncing(r), n + 1);
    n := n + 2;
  }

  lemma SuccessAlone(c: Config, s: State, d: Done) returns (n: nat)
    requires !c.external && d.ok
    ensures Alone(c, s, Recording(d), n) == (DoneSuccess(c, s, d.msg.task, d.msg.attempt), Idle)
  {
    hide Piece, Alone, CancelTasks, ScheduleReady, SyncRun, Upsert, IsCancelled;
    var r := d.msg.task.run;
    var s1 := Upsert(s, d.msg.task, Success, d.msg.attempt);
    if IsCancelled(s1, r) {
      n := 3;
      WithdrawAlone(c, s1, r, false);
      OneDonePiece(c, s1, Deciding(d), 1);
      OneDonePiece(c, s, Recording(d), 2);
    } else {
      var limit := Max(1, c.Spec(r).limit);
      var n1 := RoundAlone(c, s1, r, limit, true);
      var n2 := SyncAlone(c, ScheduleReady(c, s1, r, limit), r);
      AloneAdds(c, s1, Checking(r, limit, true), n1, n2);
      OneDonePiece(c, s1, Deciding(d), n1 + n2);
      OneDonePiece(c, s, Recording(d), n1 + n2 + 1);
      n := n1 + n2 + 2;
    }
  }

  lemma RetryAlone(c: Config, s: State, d: Done)
    requires !c.external && !d.ok && ShouldRetry(d.msg.attempt, c.Spec(d.msg.task.run).MaxAttempts(d.msg.task.key))
    ensures Alone(c, s, Recording(d), 4) == (DoneFailed(c, s, d.msg.task, d.msg.attempt), Idle)
  {
    hide Piece, Alone, Upsert, Push, SyncRun;
    var t, attempt := d.msg.task, d.msg.attempt;
    var next := NextAttempt(attempt);
    var s1 := Upsert(s, t, Failed, attempt);
    var s2 := Upsert(s1, t, Retry, next);
    var s3 := Upsert(s2, t, Running, next);
    AloneNone(c, Push(s3, c.Spec(t.run).priority, Msg(t, next)), Idle);
    OneDonePiece(c, s3, Requeueing(t, next), 0);
    OneDonePiece(c, s2, Retrying(t, next), 1);
    OneDonePiece(c, s1, Deciding(d), 2);
    OneDonePiece(c, s, Recording(d), 3);
  }

  lemma ExhaustedAlone(c: Config, s: State, d: Done) returns (n: nat)
    requires !d.ok && !ShouldRetry(d.msg.attempt, c.Spec(d.msg.task.run).MaxAttempts(d.msg.task.key))
    ensures Alone(c, s, Recording(d), n) == (DoneFailed(c, s, d.msg.task, d.msg.attempt), Idle)
  {
    hide Piece, Alone, Upsert, SyncRun, Enqueue;
    var t, attempt := d.msg.task, d.msg.attempt;
    var s1 := Upsert(s, t, Failed, attempt);
    var s2 := s1.(dlq := s1.dlq + [d.msg]);
    assert d.msg == Msg(t, attempt);
    n := SyncAlone(c, s2, t.run);
    OneDonePiece(c, s1, Deciding(d), n);
    OneDonePiece(c, s, Recording(d), n + 1);
    n := n + 2;
  }

  lemma FailureAlone(c: Config, s: State, d: Done) returns (n: nat)
    requires !c.external && !d.ok
    ensures Alone(c, s, Recording(d), n) == (DoneFailed(c, s, d.msg.task, d.msg.attempt), Idle)
  {
    hide Alone, DoneFailed;
    if ShouldRetry(d.msg.attempt, c.Spec(d.msg.task.run).MaxAttempts(d.msg.task.key)) {
      n := 4;
      RetryAlone(c, s, d);
    } else {
      n := ExhaustedAlone(c, s, d);
    }
  }

  /** Uninterrupted, the pieces of a done handler add up to the atomic handler of module Protocol. */
  lemma HandlerAlone(c: Config, s: State) returns (n: nat)
    requires !c.external && s.done != []
    ensures Alone(c, s.(done := s.done[1..]), Recording(s.done[0]), n) == (Handle(c, s), Idle)
  {
    hide Piece, Alone, DoneSuccess, DoneFailed;
    if s.done[0].ok {
      n := SuccessAlone(c, s.(done := s.done[1..]), s.done[0]);
    } else {
      n := FailureAlone(c, s.(done := s.done[1..]), s.done[0]);
    }
  }

  lemma {:induction false} InitAlone(c: Config, start: State, s: State, r: RunId, keys: seq<Key>) returns (n: nat)
    ensures Alone(c, s, Starting(r, start, keys), n) == (InitRows(c, start, s, r, keys), Starting(r, start, []))
    decreases keys
  {
    hide Alone, InitRow;
    if keys == [] {
      n := 0;
      AloneNone(c, s, Starting(r, start, []));
    } else {
      n := InitAlone(c, start, InitRow(c, start, s, r, keys[0]), r, keys[1..]);
      OnePiece(c, s, Starting(r, start, keys), n);
      n := n + 1;
    }
  }

  lemma StartAlone(c: Config, s1: State, r: RunId) returns (n: nat)
    requires !c.external
    ensures var s2 := InitRows(c, s1, s1, r, SortedKeys(c.Spec(r).plan.Keys));
      Alone(c, s1, Starting(r, s1, SortedKeys(c.Spec(r).plan.Keys)), n)
      == (if GateAccepts(c, s1, r) then ScheduleReady(c, s2, r, c.Spec(r).limit) else TransitionRun(s2, r, RunFailed), Idle)
  {
    hide Alone, InitRows, ScheduleReady, GateAccepts, TransitionRun, SortedKeys;
    var keys := SortedKeys(c.Spec(r).plan.Keys);
    var n1 := InitAlone(c, s1, s1, r, keys);
    var s2 := InitRows(c, s1, s1, r, keys);
    var n2 := 0;
    if GateAccepts(c, s1, r) {
      n2 := RoundAlone(c, s2, r, c.Spec(r).limit, false);
    } else {
      AloneNone(c, TransitionRun(s2, r, RunFailed), Idle);
    }
    OnePiece(c, s2, Starting(r, s1, []), n2);
    AloneAdds(c, s1, Starting(r, s1, keys), n1, n2 + 1);
    n := n1 + n2 + 1;
  }

  /** Likewise for the consumption of a run message. */
  lemma ConsumerAlone(c: Config, s: State) returns (n: nat)
    requires !c.external && s.runQueue != []
    ensures Alone(c, s.(runQueue := s.runQueue[1..]), Popped(s.runQueue[0]), n) == (Consume(c, s), Idle)
  {
    hide Piece, Alone, CancelTasks, SlotTasks, StartRun;
    var r, s0 := s.runQueue[0], s.(runQueue := s.runQueue[1..]);
    if IsCancelled(s0, r) {
      n := 1;
      WithdrawAlone(c, s0, r, false);
    } else {
      n := AdmitAlone(c, s0, r);
    }
    OneConsumePiece(c, s0, Popped(r), n);
    n := n + 1;
  }

  /** From the slot count on: back to the queue, or started. */
  lemma AdmitAlone(c: Config, s0: State, r: RunId) returns (n: nat)
    requires !c.external
    ensures Alone(c, s0, Counting(r), n)
            == (if SlotsUsed(c, s0, c.Spec(r).project) >= c.Spec(r).limit then s0.(runQueue := s0.runQueue + [r])
                else StartRun(c, s0, r), Idle)
  {
    hide Piece, Alone, SlotTasks, InitRows, ScheduleReady, GateAccepts, TransitionRun, SortedKeys;
    if SlotsUsed(c, s0, c.Spec(r).project) >= c.Spec(r).limit {
      n := 1;
      OneConsumePiece(c, s0, Returning(r), 0);
      AloneNone(c, s0.(runQueue := s0.runQueue + [r]), Idle);
    } else {
      var s1 := TransitionRun(s0, r, RunRunning);
      n := StartAlone(c, s1, r);
      OneConsumePiece(c, s1, Gating(r), n);
      OneConsumePiece(c, s0, Opening(r), n + 1);
      n := n + 2;
    }
    OneConsumePiece(c, s0, Counting(r), n);
    n := n + 1;
  }
}
