/**
 The run/task protocol between API, scheduler and executor, as a state machine.

 A state holds the run rows and task rows of the database, the Redis lists, the
 messages held by executors, and the history of task messages pushed so far.
 Every function below computes what one piece of the scheduler or executor does
 to that state; module ControlPlane runs the same pieces as imperative code.
*/
module Protocol {
  import opened KeyOrder
  import opened ReplayGate
  import opened ReplaySelection
  import opened RetryPolicy
  import opened TaskPlan
  import opened Wrappers

  type RunId = string

  datatype RunStatus = RunPending | RunRunning | RunSuccess | RunFailed | RunCancelled

  datatype TaskStatus = Pending | Queued | Running | Retry | Success | Failed | Cancelled

  datatype Priority = High | Normal | Low

  datatype TaskId = TaskId(run: RunId, key: Key)

  datatype TaskRow = TaskRow(status: TaskStatus, attempt: int)

  /** A task message on its way to an executor, or held by one. */
  datatype Msg = Msg(task: TaskId, attempt: int)

  /** A finished-task message; `ok` is the reported status SUCCESS, otherwise FAILED. */
  datatype Done = Done(msg: Msg, ok: bool)

  /** The parent run and the evidence available for its tasks. */
  datatype Replay = Replay(parent: RunId, gate: GateInputs)

  /**
   What a run's messages and its database row carry unchanged from creation on.
   `plugins` and `http` are the keys configured with a plugin or as an HTTP task.
   `maxAttempts` holds the retry budgets that differ from the default.
  */
  datatype RunSpec = RunSpec(
    project: string,
    limit: int,
    priority: Priority,
    plan: Plan,
    replayFrom: Option<Key>,
    replay: Option<Replay>,
    maxAttempts: map<Key, int>,
    plugins: set<Key>,
    http: set<Key>)
  {
    ghost function Selected(): set<Key> {
      ReplaySelection.Selected(plan, replayFrom)
    }

    ghost function Skipped(): set<Key> {
      ReplaySelection.Skipped(plan, replayFrom)
    }

    function Deps(key: Key): seq<Key> {
      if key in plan then plan[key] else []
    }

    function MaxAttempts(key: Key): int {
      if key in maxAttempts then maxAttempts[key] else 3
    }
  }

  /** `external` is the task execution mode; `specs` the runs that exist or may be submitted. */
  datatype Config = Config(external: bool, specs: map<RunId, RunSpec>)
  {
    /** Messages fall back to these defaults for fields they do not carry. */
    function Spec(r: RunId): RunSpec {
      if r in specs then specs[r]
      else RunSpec("default_project", 1, Normal, FALLBACK_PLAN, None, None, map[], {}, {})
    }
  }

  type Runs = map<RunId, RunStatus>

  type Rows = map<TaskId, TaskRow>

  datatype State = State(
    runs: Runs,
    tasks: Rows,
    runQueue: seq<RunId>,
    high: seq<Msg>,
    normal: seq<Msg>,
    low: seq<Msg>,
    inFlight: multiset<Msg>,
    done: seq<Done>,
    dlq: seq<Msg>,
    blocked: map<TaskId, GateReason>,
    log: seq<Msg>)

  const INITIAL: State := State(map[], map[], [], [], [], [], multiset{}, [], [], map[], [])

  // ----- rows -----

  predicate RunAllowed(from: RunStatus, to: RunStatus) {
    match from
    case RunPending => to in {RunRunning, RunFailed, RunCancelled}
    case RunRunning => to in {RunSuccess, RunFailed, RunCancelled}
    case RunFailed => to == RunRunning
    case RunSuccess => false
    case RunCancelled => false
  }

  predicate TaskAllowed(from: TaskStatus, to: TaskStatus) {
    match from
    case Pending => to in {Running, Queued, Failed, Success, Cancelled}
    case Queued => to in {Running, Failed, Cancelled}
    case Running => to in {Success, Failed, Pending, Cancelled}
    case Failed => to == Retry
    case Retry => to in {Running, Queued, Cancelled}
    case Success => false
    case Cancelled => false
  }

  predicate Terminal(status: TaskStatus) {
    status in {Success, Failed, Cancelled}
  }

  predicate IsCancelled(s: State, r: RunId) {
    r in s.runs && s.runs[r] == RunCancelled
  }

  /** `_transition_run_status`. */
  function TransitionRun(s: State, r: RunId, to: RunStatus): State {
    if r in s.runs && RunAllowed(s.runs[r], to) then s.(runs := s.runs[r := to]) else s
  }

  /** The rows after `_upsert_or_transition_task`. */
  function UpsertRow(rows: Rows, t: TaskId, to: TaskStatus, attempt: int): Rows {
    if t in rows && (rows[t].status == to || !TaskAllowed(rows[t].status, to)) then rows
    else rows[t := TaskRow(to, attempt)]
  }

  function Upsert(s: State, t: TaskId, to: TaskStatus, attempt: int): State {
    s.(tasks := UpsertRow(s.tasks, t, to, attempt))
  }

  predicate Cancels(status: TaskStatus, onlyPendingLike: bool) {
    if onlyPendingLike then status in {Pending, Queued, Retry} else !Terminal(status)
  }

  /** `_cancel_tasks_for_run`, one UPDATE statement. */
  function CancelTasks(s: State, r: RunId, onlyPendingLike: bool): State {
    s.(tasks := map t | t in s.tasks ::
      if t.run == r && Cancels(s.tasks[t].status, onlyPendingLike) then s.tasks[t].(status := Cancelled)
      else s.tasks[t])
  }

  /** A task without a row counts as PENDING with attempt 1. */
  function Lookup(rows: Rows, r: RunId, key: Key): TaskRow {
    if TaskId(r, key) in rows then rows[TaskId(r, key)] else TaskRow(Pending, 1)
  }

  // ----- concurrency slots -----

  predicate Occupies(c: Config, status: TaskStatus) {
    status == Running || (c.external && status == Queued)
  }

  predicate Counted(c: Config, runs: Runs, r: RunId, project: string) {
    r in runs && runs[r] in {RunPending, RunRunning} && c.Spec(r).project == project
  }

  function SlotTasks(c: Config, runs: Runs, tasks: Rows, project: string): set<TaskId> {
    set t | t in tasks && Counted(c, runs, t.run, project) && Occupies(c, tasks[t].status)
  }

  /** `_project_running_tasks`. */
  function SlotsUsed(c: Config, s: State, project: string): nat {
    |SlotTasks(c, s.runs, s.tasks, project)|
  }

  // ----- dispatch -----

  function Push(s: State, priority: Priority, m: Msg): State {
    var logged := s.(log := s.log + [m]);
    match priority
    case High => logged.(high := s.high + [m])
    case Normal => logged.(normal := s.normal + [m])
    case Low => logged.(low := s.low + [m])
  }

  /** `_enqueue_task_event` in internal mode: the message is pushed even if the row update was refused. */
  function Dispatch(c: Config, s: State, t: TaskId, attempt: int): State {
    Push(Upsert(s, t, Running, attempt), c.Spec(t.run).priority, Msg(t, attempt))
  }

  predicate IsExternal(c: Config, t: TaskId) {
    c.external && t.key !in c.Spec(t.run).http
  }

  /** `_enqueue_task_event`; the second component is its return value. */
  function Enqueue(c: Config, s: State, t: TaskId, attempt: int): (State, bool) {
    if !IsExternal(c, t) then (Dispatch(c, s, t, attempt), true)
    else
      var queued := Upsert(s, t, Queued, attempt);
      if t.key in c.Spec(t.run).plugins then (queued, true)
      else (Upsert(queued, t, Failed, attempt), false)
  }

  predicate DepsDone(rows: Rows, r: RunId, deps: seq<Key>) {
    forall d :: d in deps ==> Lookup(rows, r, d).status == Success
  }

  /** What the snapshot `rows` says about dispatching `key`. */
  predicate Ready(c: Config, rows: Rows, r: RunId, key: Key) {
    Lookup(rows, r, key).status == Pending && DepsDone(rows, r, c.Spec(r).Deps(key))
  }

  /** The dispatch loop of `_schedule_ready_tasks`; the second component says that an enqueue failed. */
  ghost function ScheduleLoop(
      c: Config, s: State, r: RunId, limit: int, keys: seq<Key>, rows: Rows, failed: bool): (State, bool)
    decreases keys
  {
    if keys == [] then (s, failed)
    else if !Ready(c, rows, r, keys[0]) then ScheduleLoop(c, s, r, limit, keys[1..], rows, failed)
    else if SlotsUsed(c, s, c.Spec(r).project) >= limit then (s, failed)
    else
      var (s', ok) := Enqueue(c, s, TaskId(r, keys[0]), Lookup(rows, r, keys[0]).attempt);
      ScheduleLoop(c, s', r, limit, keys[1..], rows, failed || !ok)
  }

  /** `_schedule_ready_tasks`. */
  ghost function ScheduleReady(c: Config, s: State, r: RunId, limit: int): State {
    if IsCancelled(s, r) then CancelTasks(s, r, false)
    else
      var (s', failed) := ScheduleLoop(c, s, r, limit, SortedKeys(c.Spec(r).Selected()), s.tasks, false);
      if failed then SyncRun(c, s', r) else s'
  }

  // ----- run status -----

  predicate Blocked(c: Config, rows: Rows, r: RunId, key: Key) {
    && Lookup(rows, r, key).status == Pending
    && exists d :: d in c.Spec(r).Deps(key) && Lookup(rows, r, d).status in {Failed, Cancelled}
  }

  /** `_cancel_unreachable_downstream_tasks` over one snapshot. */
  ghost function CancelBlocked(c: Config, s: State, r: RunId, keys: seq<Key>, rows: Rows): State
    decreases keys
  {
    if keys == [] then s
    else if Blocked(c, rows, r, keys[0]) then
      CancelBlocked(c, Upsert(s, TaskId(r, keys[0]), Cancelled, Lookup(rows, r, keys[0]).attempt), r, keys[1..], rows)
    else CancelBlocked(c, s, r, keys[1..], rows)
  }

  ghost predicate AllSelected(c: Config, rows: Rows, r: RunId, status: TaskStatus) {
    forall k :: k in c.Spec(r).Selected() ==> Lookup(rows, r, k).status == status
  }

  ghost predicate AnySelected(c: Config, rows: Rows, r: RunId, status: TaskStatus) {
    exists k :: k in c.Spec(r).Selected() && Lookup(rows, r, k).status == status
  }

  /** `_sync_run_status_after_task`. */
  ghost function SyncRun(c: Config, s: State, r: RunId): State {
    var s1 := CancelBlocked(c, s, r, SortedKeys(c.Spec(r).Selected()), s.tasks);
    if c.Spec(r).Selected() != {} && AllSelected(c, s.tasks, r, Success) then TransitionRun(s1, r, RunSuccess)
    else if AnySelected(c, s.tasks, r, Failed) then TransitionRun(s1, r, RunFailed)
    else s1
  }

  // ----- starting a run -----

  function ParentSuccess(s: State, parent: RunId): set<Key> {
    set t | t in s.tasks && t.run == parent && s.tasks[t].status == Success :: t.key
  }

  function Refusal(c: Config, s: State, r: RunId, key: Key): Option<GateReason> {
    var replay := c.Spec(r).replay;
    if replay.None? then None
    else GateFailure(replay.value.gate, ParentSuccess(s, replay.value.parent), key)
  }

  /** The status a task row of a starting run is given. */
  ghost function InitialStatus(c: Config, s: State, r: RunId, key: Key): TaskStatus {
    if key in c.Spec(r).Selected() then Pending
    else if Refusal(c, s, r, key).None? then Success
    else Failed
  }

  /** One round of the loops that give the tasks of a starting run their first rows; `s0` is the state they started in. */
  ghost function InitRow(c: Config, s0: State, s: State, r: RunId, key: Key): State {
    var t := TaskId(r, key);
    var s1 := Upsert(s, t, InitialStatus(c, s0, r, key), 1);
    if InitialStatus(c, s0, r, key) == Failed then s1.(blocked := s1.blocked[t := Refusal(c, s0, r, key).value]) else s1
  }

  /** The loops of `_init_run_tasks` and `_init_replay_tasks_with_gating`. */
  ghost function InitRows(c: Config, s0: State, s: State, r: RunId, keys: seq<Key>): State
    decreases keys
  {
    if keys == [] then s else InitRows(c, s0, InitRow(c, s0, s, r, keys[0]), r, keys[1..])
  }

  ghost predicate GateAccepts(c: Config, s: State, r: RunId) {
    forall k :: k in c.Spec(r).Skipped() ==> Refusal(c, s, r, k).None?
  }

  ghost function StartRun(c: Config, s: State, r: RunId): State {
    var s1 := TransitionRun(s, r, RunRunning);
    var s2 := InitRows(c, s1, s1, r, SortedKeys(c.Spec(r).plan.Keys));
    if GateAccepts(c, s1, r) then ScheduleReady(c, s2, r, c.Spec(r).limit)
    else TransitionRun(s2, r, RunFailed)
  }

  // ----- steps -----

  datatype Step =
    | Submit(r: RunId)
    | RotateRuns
    | ConsumeRun
    | ExecutorTake
    | ExecutorFinish(m: Msg, ok: bool)
    | HandleDone
    | ApiMarkCancelled(r: RunId)
    | ApiCancelTasks(r: RunId)

  /** The API creates a run row and queues its message. */
  function SubmitRun(c: Config, s: State, r: RunId): State {
    if r in c.specs && r !in s.runs then s.(runs := s.runs[r := RunPending], runQueue := s.runQueue + [r]) else s
  }

  /** A message placed on another cluster goes back to the tail. */
  function Rotate(s: State): State {
    if s.runQueue == [] then s else s.(runQueue := s.runQueue[1..] + [s.runQueue[0]])
  }

  /** The first half of the scheduler's main loop. */
  ghost function Consume(c: Config, s: State): State {
    if s.runQueue == [] then s
    else
      var r := s.runQueue[0];
      var s0 := s.(runQueue := s.runQueue[1..]);
      if IsCancelled(s0, r) then CancelTasks(s0, r, false)
      else if SlotsUsed(c, s0, c.Spec(r).project) >= c.Spec(r).limit then s0.(runQueue := s0.runQueue + [r])
      else StartRun(c, s0, r)
  }

  /** The executor's blocking pop: high before normal before low. */
  function Take(s: State): State {
    if s.high != [] then s.(high := s.high[1..], inFlight := s.inFlight + multiset{s.high[0]})
    else if s.normal != [] then s.(normal := s.normal[1..], inFlight := s.inFlight + multiset{s.normal[0]})
    else if s.low != [] then s.(low := s.low[1..], inFlight := s.inFlight + multiset{s.low[0]})
    else s
  }

  /** The executor reports the task it holds, with the id and attempt it was given. */
  function Finish(s: State, m: Msg, ok: bool): State {
    if m in s.inFlight then s.(inFlight := s.inFlight - multiset{m}, done := s.done + [Done(m, ok)]) else s
  }

  ghost function DoneSuccess(c: Config, s: State, t: TaskId, attempt: int): State {
    var s1 := Upsert(s, t, Success, attempt);
    if IsCancelled(s1, t.run) then CancelTasks(s1, t.run, false)
    else SyncRun(c, ScheduleReady(c, s1, t.run, Max(1, c.Spec(t.run).limit)), t.run)
  }

  ghost function DoneFailed(c: Config, s: State, t: TaskId, attempt: int): State {
    var s1 := Upsert(s, t, Failed, attempt);
    if ShouldRetry(attempt, c.Spec(t.run).MaxAttempts(t.key)) then
      var (s2, ok) := Enqueue(c, Upsert(s1, t, Retry, NextAttempt(attempt)), t, NextAttempt(attempt));
      if ok then s2 else SyncRun(c, s2, t.run)
    else SyncRun(c, s1.(dlq := s1.dlq + [Msg(t, attempt)]), t.run)
  }

  /** The second half of the scheduler's main loop. */
  ghost function Handle(c: Config, s: State): State {
    if s.done == [] then s
    else
      var d := s.done[0];
      var s0 := s.(done := s.done[1..]);
      if d.ok then DoneSuccess(c, s0, d.msg.task, d.msg.attempt)
      else DoneFailed(c, s0, d.msg.task, d.msg.attempt)
  }

  /** The API cancels a run in two transactions: first the run row, whatever its status, then the task rows. */
  function MarkCancelled(s: State, r: RunId): State {
    if r in s.runs then s.(runs := s.runs[r := RunCancelled]) else s
  }

  function FinishCancel(s: State, r: RunId): State {
    if IsCancelled(s, r) then CancelTasks(s, r, false) else s
  }

  ghost function Next(c: Config, s: State, step: Step): State {
    match step
    case Submit(r) => SubmitRun(c, s, r)
    case RotateRuns => Rotate(s)
    case ConsumeRun => Consume(c, s)
    case ExecutorTake => Take(s)
    case ExecutorFinish(m, ok) => Finish(s, m, ok)
    case HandleDone => Handle(c, s)
    case ApiMarkCancelled(r) => MarkCancelled(s, r)
    case ApiCancelTasks(r) => FinishCancel(s, r)
  }

  ghost function Execute(c: Config, steps: seq<Step>): State {
    if steps == [] then INITIAL
    else Next(c, Execute(c, steps[..|steps| - 1]), steps[|steps| - 1])
  }
}
