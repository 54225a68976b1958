# ML Air: a verified model of the run and task protocol

ML Air runs pipelines as graphs of tasks. An API creates and cancels runs, a scheduler
plans each run, hands ready tasks to executors and handles their results, and executors
run one task at a time; they communicate through PostgreSQL rows and Redis lists. This
Dafny project models that system and proves what its parts promise together.

`dafny verify dfyconfig.toml` checks the whole project.

## What is modelled

**The protocol** (`Protocol`, `Messages`, `Invariant`, `Safety`, `Progress`,
`Termination`, `Guarantees`, `Cancellation`, `BlockedTasks`, `DeadLetters`,
`DispatchRound`, `ReplayRuns`, `Stranding`, `Effects`). A state holds the run and task rows,
the run queue, the three task queues, the messages held by executors, the done queue, the
dead-letter queue, the recorded replay refusals, and the history of all task messages ever
pushed. Steps are:
submit a run, consume a run message, send a run message to the tail, take a task, report
a task, handle a done message, and the two transactions of the cancel endpoint.
`Execute(c, steps)` is the state after any list of steps, so a statement about it is about
every reachable state and every interleaving of runs, executors and cancellations.
`Effects` spells out what single steps do to rows, runs, slots and queues.

**The code** (`ControlPlane`, and the methods of `TaskPlan`, `ReplaySelection`,
`ManifestKeys`, `JsonPath`, `UsageMath`, `RunQueue`, `ReplayBuffer`). The imperative parts
of the program, with their loops, early exits and in-place updates, each proved equal to
the function that the results are about.

**Several schedulers** (`StaleSnapshots`). The same handlers cut wherever they read or
change a row or a Redis list, with any number of replicas interleaving, run messages delivered again and
run rows overwritten at any time. Uninterrupted, the pieces add up to the steps of
`Protocol` (`HandlerAlone`, `ConsumerAlone`).

**Cores beside the protocol**: key resolution for signed manifests in two processes
(`ManifestKeys`) and the manifest gate of a replay (`ManifestEvidence`), the JSONPath evaluator of HTTP tasks (`JsonPath`), resource usage
arithmetic (`Sorting`, `UsageMath`), popping runs for one cluster (`RunQueue`) and the
sequenced replay buffer (`ReplayBuffer`).

## Assumptions

- One scheduler replica whose handlers run to completion, except in `StaleSnapshots`. The
  retry back-off is spent inside the handler, so a FAILED row that will be retried is not
  seen by other handlers.
- Internal execution mode where a statement says `!c.external`. `DispatchRound` states the
  slot limit for both modes.
- A run message starts its run once, from PENDING and without earlier task rows; no message
  is lost; executors do not crash. `StaleSnapshots` drops the first of these.
- A task is named by the pair of its run id and its key, not by their concatenation.
- What a run's messages and its row carry is fixed when it is submitted (`RunSpec`). Done
  messages carry `config_snapshot` and `replay_from_task_id` back, but not
  `override_config`, about which nothing is claimed.
- Strings are ASCII where blanks and digits matter. Arithmetic on usage is over reals.

## Where the code does not keep what one might expect

Each of these is proved on a concrete input, as one direction of an if-and-only-if, or both.

- Different `max_parallel_tasks` inside one project can strand a run: it stays RUNNING with
  no task under way until somebody cancels it (`Stranding.DifferentLimitsStrand`,
  `Stranding.StrandedForever`). `Progress.HandleStrandsIff` says exactly when a handler does
  this. It never happens to a run with an executable plan whose project has one limit.
- The cancel endpoint overwrites the row of any run, including one that is already SUCCESS.
  `Guarantees.FinalRunsStay` therefore excludes exactly that step.
- A failing task of a cancelled run is still retried up to its budget: the message is pushed
  although the row update is refused (`Cancellation.FailureRetriedIff`). What does not grow
  is the set of dispatched tasks.
- A list of steps that names a step twice yields a cyclic plan
  (`TaskPlan.StepsAcyclicIffDistinct`), and a run with a cyclic plan never reaches SUCCESS.
- One synchronisation cancels direct dependents of a failed task only; deeper ones stay
  PENDING until further synchronisations (`BlockedTasks`).
- Executor and scheduler disagree about keys whose name in
  `ML_AIR_MANIFEST_SIGNING_KEYS_JSON` is padded with blanks or whose value is null or blank:
  the executor strips names and signs null as the text `None`, the scheduler looks the raw
  name up (`ManifestKeys.KeysAgreeIff` is the exact condition). Without a strict lifecycle
  they also disagree when the active id is missing from a managed key file.
- A quoted JSONPath key that contains `]`, or begins or ends with a quote character, passes
  validation and is then looked up under another name (`JsonPath.ResolveIsFoldIff`).
- With two publishers the sequence numbers in the replay buffer need not decrease
  (`ReplayBuffer.InterleavingCanReorder`). `ReplayBuffer.PushKeepsRisingIff` and
  `ReplayBuffer.AnyOrderRisesIff` say exactly when the order is kept, and publishers that
  take turns always keep it.

## Model

| member | source | states |
|---|---|---|
| `Guarantees.CapacityHolds` | scheduler/main.py:668-689 | In every reachable state the RUNNING tasks of a project's PENDING and RUNNING runs, retries included, are at most the largest limit of its runs |
| `Invariant.DispatchSlots` | scheduler/main.py:668-689 | Dispatching a PENDING task takes exactly one slot of its project if its run is active, and none otherwise |
| `Effects.SlotsAre` | scheduler/main.py:668-689 | The slots of a project are its RUNNING tasks, in external mode also its QUEUED ones, in PENDING and RUNNING runs |
| `Progress.RecordedSlots` | scheduler/main.py:668-689 | Recording the success of a RUNNING task of an active run frees exactly one slot |
| `Guarantees.MessagesConserved` | scheduler/main.py:865-901 | Over task queues, executors and done queue a task has at most one message; a RUNNING task has exactly one, with the attempt of its row; no other task but a CANCELLED one has any |
| `Guarantees.RunningRunHasMessage` | scheduler/main.py:1493-1535 | A RUNNING run with an executable plan, in a project whose runs have one limit, has a RUNNING task whose message is under way |
| `Guarantees.AttemptsCountUp` | scheduler/main.py:1916-1957 | The history of a task is attempts 1, 2, ..., k in this order, with k within its retry budget, which is 3 if it has none of its own, also after cancellation |
| `Guarantees.DependenciesFirst` | scheduler/main.py:1501-1516 | Whatever was dispatched is selected and all its dependencies are SUCCESS, in every reachable state |
| `Guarantees.DispatchesInOrder` | scheduler/main.py:1501-1516 | In the history every dispatch comes after a dispatch of each selected task it depends on |
| `Guarantees.SuccessNeedsExecutablePlan` | scheduler/main.py:971-1000 | In a run that reached SUCCESS the dependencies of the selected tasks stay within the plan and form no cycle among them |
| `Guarantees.RunStatusSound` | scheduler/main.py:1526-1535 | SUCCESS implies that every task of the plan is SUCCESS; FAILED implies a FAILED task without a message under way |
| `Guarantees.TerminalRowsStay` | scheduler/main.py:49-57 | No step changes a SUCCESS, FAILED or CANCELLED task row or removes a row |
| `Guarantees.TerminalRowsStayForever` | scheduler/main.py:49-57 | The same through any continuation |
| `Guarantees.FinalRunsStay` | scheduler/main.py:41-47 | SUCCESS, FAILED and CANCELLED runs keep their status through every step except the cancel endpoint's first transaction on that run, which makes any run CANCELLED |
| `Guarantees.LastSuccessCompletes` | scheduler/main.py:1879-1908 | For every plan the handler that records the success of the last open selected task of a RUNNING run sets the run to SUCCESS |
| `Safety.ReachableInv` | scheduler/main.py:1758-1977 | Every reachable state satisfies the protocol invariant: queue, rows, messages, history, run statuses, capacity |
| `Safety.NextKeeps` | scheduler/main.py:1758-1977 | Every step keeps the protocol invariant |
| `Safety.HandleKeeps` | scheduler/main.py:1812-1977 | The done handler keeps the invariant in its success, retry and dead-letter branches |
| `Safety.StartRunKeeps` | scheduler/main.py:1785-1804 | Starting a run keeps the invariant whether its replay gate accepts or refuses |
| `Invariant.ScheduleReadyKeeps` | scheduler/main.py:1493-1523 | A dispatch round keeps the core invariant, the runs and queues, and running runs free of failed tasks |
| `Invariant.DispatchKeeps` | scheduler/main.py:1420-1490 | Dispatching a ready PENDING task under a free slot keeps the core invariant |
| `Invariant.CancelTasksKeeps` | scheduler/main.py:700-722 | Cancelling the open tasks of a cancelled run keeps the invariant |
| `Messages.TakeOutstanding` | executor/main.py:451-458 | Taking a task message moves it to the executor without losing or doubling any message |
| `Messages.FinishOutstanding` | executor/main.py:670-720 | Reporting a task turns its message into a done message with the same id and attempt; the multiset of outstanding messages is unchanged |
| `Progress.NoRunIsStranded` | scheduler/main.py:1493-1535 | A run with an executable plan, in a project whose runs have one limit, is in no reachable state RUNNING without a RUNNING task, whatever other plans and projects look like |
| `Progress.HandleStrandsIff` | scheduler/main.py:1879-1908 | For every plan: a success handler leaves its RUNNING run stranded exactly when the task was its last running one, others remain, and other runs still fill the limit or no remaining task is ready |
| `Progress.StrandedIff` | scheduler/main.py:1493-1535 | A dispatch round followed by a synchronisation strands a RUNNING run exactly when none of its tasks runs, not all are done, and no slot is free or no task is ready |
| `Progress.StrandedStays` | scheduler/main.py:1493-1535 | No step but the cancel endpoint ends the wait of a stranded run |
| `Progress.UnconcernedSame` | scheduler/main.py:1493-1535 | A step that handles no message of a run, does not start it and does not cancel it neither strands nor helps it |
| `Stranding.DifferentLimitsStrand` | scheduler/main.py:1514-1515 | With limits 1 and 2 in one project seven steps lead to a state from which, in every continuation that does not cancel it, a run with an executable plan stays stranded |
| `Stranding.StrandedForever` | scheduler/main.py:1493-1535 | In every continuation a stranded run stays stranded, or is CANCELLED exactly if the cancel endpoint was called for it |
| `Termination.NextMeasure` | scheduler/main.py:1916-1957 | A measure of remaining attempts and message stages never grows and shrinks with every step that does something |
| `Termination.FinitelyManyMoves` | scheduler/main.py:1758-1977 | Every execution makes at most four moves per dispatch that budgets allow plus two per run |
| `Termination.QuietMeansDone` | scheduler/main.py:1493-1535 | When nothing can move and all limits are at least 1, a submitted run with an executable plan in a project with one limit is SUCCESS, FAILED or CANCELLED |
| `Termination.QuietMeansEmpty` | scheduler/main.py:1758-1809 | When nothing can move and all limits are at least 1, the run queue is empty and no message is under way, whatever the plans |
| `RetryPolicy.TotalDelayClosedForm` | sdk/retry_policy.py:6-10 | The back-off before attempts 2..k sums to base * (2^(k-1) - 1) milliseconds |
| `RetryPolicy.BackoffDoubles` | sdk/retry_policy.py:6-10 | The first wait is the configured back-off, each further one is twice the one before; a negative back-off counts as 0 |
| `Cancellation.CancelledDispatchesNothingNew` | scheduler/main.py:1495-1498 | No step dispatches a task of a cancelled run that was not dispatched before |
| `Cancellation.CancellationIsFinal` | scheduler/main.py:41-47 | Through any continuation a cancelled run stays CANCELLED and its set of dispatched tasks does not grow |
| `Cancellation.FailureRetriedIff` | scheduler/main.py:1916-1957 | A reported failure is dispatched again exactly while attempts remain, three where the task has no budget of its own, also in a cancelled run, whose row stays CANCELLED |
| `Cancellation.CancelledTerminal` | scheduler/main.py:700-722 | Cancelling the tasks of a run leaves it terminal rows only, changes no terminal row, no attempt and no other run, and doing it again changes nothing |
| `Cancellation.TouchMakesTerminal` | scheduler/main.py:700-722 | The API's second transaction, a run message or a reported success makes every row of a cancelled run terminal |
| `Cancellation.TouchedStaysTerminal` | scheduler/main.py:1879-1883 | After such a touch every row of the run is terminal in every later state |
| `BlockedTasks.PassCancelsDirectDependents` | scheduler/main.py:725-740 | One pass cancels exactly the selected PENDING tasks one of whose dependencies has a FAILED or CANCELLED row |
| `BlockedTasks.FixpointReached` | scheduler/main.py:725-740 | As many passes as there are selected tasks leave no PENDING task with a FAILED or CANCELLED dependency, and one more changes nothing |
| `BlockedTasks.FixpointCancelsDoomed` | scheduler/main.py:725-740 | The fixpoint cancels exactly the PENDING tasks that hang, through PENDING selected tasks, on one with a FAILED or CANCELLED row, and changes nothing else |
| `BlockedTasks.DoomedNeverDispatched` | scheduler/main.py:1511-1513 | No continuation of any execution dispatches a task that is doomed now |
| `Effects.SyncRows` | scheduler/main.py:1526-1530 | After a synchronisation a selected task whose row is PENDING or missing is CANCELLED iff a task it depends on has a FAILED or CANCELLED row; every other row is unchanged |
| `Effects.SyncStatus` | scheduler/main.py:1531-1535 | A synchronisation makes a RUNNING run SUCCESS iff all its selected tasks are, and a PENDING or RUNNING one FAILED iff some selected task is; other runs are unchanged |
| `Effects.FailureCancelsDependents` | scheduler/main.py:1971-1976 | After the handler of a failure without attempts left every selected PENDING task that depends on the failed one is CANCELLED |
| `Effects.FailureEndsRun` | scheduler/main.py:1971-1976 | The same handler makes the task's RUNNING row FAILED and its RUNNING run FAILED, files the message as a dead letter and dispatches nothing |
| `Effects.FailedEnqueueFailsRun` | scheduler/main.py:1516-1522 | In either mode a RUNNING run of which a round makes a selected task FAILED is FAILED after that round |
| `Effects.RetryWithoutPlugin` | scheduler/main.py:1916-1970 | In external mode a failed task without a plugin is FAILED with its next attempt, and so is its run |
| `DeadLetters.DeadLettersExact` | scheduler/main.py:1971-1976 | A task has at most one dead letter; a dead letter is its last budgeted attempt and none of its messages is under way; every task that failed after a dispatch has one |
| `DeadLetters.DispatchesAccountedFor` | scheduler/main.py:1910-1977 | The last message of a dispatched task is under way, or the task is SUCCESS or CANCELLED, or the message is a dead letter; under way, SUCCESS and dead letter exclude each other |
| `DeadLetters.FailuresExplained` | scheduler/main.py:1526-1535 | Every FAILED row used up its budget and lies in the dead-letter queue, or was never dispatched and has its refusal recorded; a FAILED run has such a row |
| `DeadLetters.NextFiles` | scheduler/main.py:1910-1977 | Every step keeps the account of dead letters |
| `DispatchRound.RoundPicksFirstReady` | scheduler/main.py:1493-1523 | In internal mode a round pushes exactly the first messages of the ready tasks in sorted order, as many as free slots allow |
| `Effects.ReadyInOrder` | scheduler/main.py:1501-1516 | The tasks a round may dispatch are the selected ones without a row or PENDING whose dependencies all are SUCCESS, visited in ascending order of keys |
| `DispatchRound.RoundWithinLimit` | scheduler/main.py:1493-1523 | From any state and in both execution modes a round leaves at most max(slots before, limit) slots used, in every project |
| `DispatchRound.ReapWithinLimit` | scheduler/main.py:1617-1640 | Reaping expired leases leaves at most the slots used before or the largest limit of the rescheduled runs |
| `Effects.LeasesExpire` | scheduler/main.py:1617-1640 | In external mode reaping makes the RUNNING tasks with expired leases PENDING again, keeps their attempts and runs one round for each run; in internal mode it does nothing |
| `ReplayGate.GateFailureIsFirst` | scheduler/main.py:1366-1392 | The gate accepts a task iff it passes the four gates parent success, artifact, checksum and manifest, the last three where demanded; otherwise the reason names the first gate it fails, in order |
| `ReplayRuns.GateAcceptsIff` | scheduler/main.py:1362-1402 | On the evidence it is given the gate accepts iff every skipped task is SUCCESS in the parent run and has the artifact, checksum and manifest evidence that is demanded |
| `ReplayRuns.RefusedReplay` | scheduler/main.py:1788-1801 | A refused gate dispatches nothing, fails the run, leaves selected tasks PENDING, fails each refused task with the reason of its own evidence and takes the others over, all with attempt 1 |
| `ReplayRuns.RefusedReplayNeverRuns` | scheduler/main.py:1798-1801 | Nothing of a refused replay is dispatched in any continuation, and the run stays FAILED or is cancelled |
| `ReplayRuns.AcceptedReplay` | scheduler/main.py:1785-1804 | After an accepted gate the run is RUNNING and every skipped task is SUCCESS |
| `ReplayRuns.TakenOverFromParent` | scheduler/main.py:1036-1048 | Every task that an accepted replay skips is SUCCESS in the parent run, when the gate looks and in every later state |
| `ReplayRuns.ReplayRunsOnlyDownstream` | scheduler/main.py:1003-1024 | Every dispatched task of a replay is its start or a descendant of it |
| `ReplaySelection.ApplyReplayFilter` | scheduler/main.py:1003-1024 | The breadth-first search returns exactly the reflexive-transitive descendants of the start, everything if the start is absent or unknown, and the complement as skipped |
| `ReplaySelection.SelectedIsLeast` | scheduler/main.py:1003-1024 | The selection is the least set that holds the start and, with a key, every task of the plan that depends on it |
| `ReplaySelection.ReverseEdges` | scheduler/main.py:1010-1013 | The reversed map lists for each key exactly the plan's keys that depend on it |
| `ReplaySelection.VisitChildren` | scheduler/main.py:1016-1022 | One search step selects reachable keys only, closes the visited key, and makes the search terminate |
| `ReplaySelection.SkippedIsClosed` | scheduler/main.py:1003-1024 | A skipped task depends on skipped tasks only |
| `ReplaySelection.SelectedStart` | scheduler/main.py:1004-1008 | The selection of a non-empty plan is not empty and holds a known start |
| `KeyOrder.SortedKeys` | scheduler/main.py:1507-1507 | The keys of a set, each once, in ascending order of code points |
| `KeyOrder.LexLeIff` | scheduler/main.py:1507-1507 | A key is at most another iff it is a prefix of it or smaller at the first character in which they differ |
| `Text.StripCuts` | scheduler/main.py:980-984 | Stripping cuts blanks, and all of them, off both ends of a text |
| `TaskPlan.BuildTaskPlan` | scheduler/main.py:971-1000 | The code that builds the plan, whose entries `PlanOfTaskEntries` and `PlanOfStepEntries` say |
| `TaskPlan.CollectTasks` | scheduler/main.py:976-985 | The loop over the task entries, whose result `PlanOfTaskEntries` says entry by entry |
| `TaskPlan.CollectSteps` | scheduler/main.py:990-997 | The steps loop computes the chain of the cleaned step names |
| `TaskPlan.PlanOfTaskEntries` | scheduler/main.py:974-987 | If some task entry has an id that is not blank, the keys of the plan are the stripped ids of such entries, each with the stripped non-blank dependencies, in order, of the last entry that names it; steps do not matter |
| `TaskPlan.PlanOfStepEntries` | scheduler/main.py:988-1000 | Otherwise the stripped non-blank steps are the keys, each depending on the step before its last occurrence; without any the plan is the single task `task:1` |
| `TaskPlan.StepsAcyclicIffDistinct` | scheduler/main.py:988-999 | A list of steps gives a closed plan, acyclic iff no step name occurs twice |
| `ControlPlane.Platform.TransitionRunStatus` | scheduler/main.py:782-804 | Run rows change only along the transition table |
| `Effects.TransitionTables` | scheduler/main.py:41-57 | The pairs of statuses between which a run or a task may change |
| `ControlPlane.Platform.UpsertOrTransitionTask` | scheduler/main.py:865-901 | Task rows are inserted, or changed along the transition table, or left alone |
| `Effects.RowUpdate` | scheduler/main.py:865-901 | A missing row is inserted, an allowed change sets status and attempt, the same status or a forbidden change leaves the row alone, and no other row changes |
| `Effects.CancelledRows` | scheduler/main.py:700-722 | The cancelling update hits the PENDING, QUEUED and RETRY rows of the run, without the restriction also the RUNNING ones, and keeps their attempts |
| `ControlPlane.Platform.EnqueueTaskEvent` | scheduler/main.py:1420-1490 | Row update, push by priority, external queueing and the missing-plugin failure, with the return value |
| `Effects.EnqueuedInternally` | scheduler/main.py:1420-1490 | In internal mode, and for HTTP tasks, the message is pushed whatever the row allowed, and a task not yet under way becomes RUNNING with the given attempt |
| `Effects.EnqueuedExternally` | scheduler/main.py:1426-1463 | For an external worker nothing is pushed: the task becomes QUEUED, or FAILED if it has no plugin, which is what the result reports |
| `Effects.PushedInOrder` | scheduler/main.py:660-665 | A message waits behind all messages of its own or a higher priority and before all of a lower one |
| `ControlPlane.Platform.ScheduleReadyTasks` | scheduler/main.py:1493-1523 | The dispatch round; in internal mode the returned count is the number of messages pushed |
| `ControlPlane.Platform.DispatchInOrder` | scheduler/main.py:1505-1520 | The loop over sorted keys on one snapshot, stopping when the slots are full |
| `ControlPlane.Platform.CancelUnreachableDownstreamTasks` | scheduler/main.py:725-740 | One cancelling pass over one snapshot; it returns the number of selected PENDING tasks with a FAILED or CANCELLED dependency |
| `ControlPlane.Platform.SyncRunStatusAfterTask` | scheduler/main.py:1526-1535 | The code of a synchronisation, whose effect on rows and runs `Effects.SyncRows` and `Effects.SyncStatus` say |
| `ControlPlane.Platform.InitRunTasks` | scheduler/main.py:1027-1033 | Skipped tasks start as SUCCESS, selected ones as PENDING |
| `ControlPlane.Platform.InitGated` | scheduler/main.py:1362-1401 | One skipped task is taken over or refused with its reason, a selected one starts as PENDING |
| `ControlPlane.Platform.InitReplayTasksWithGating` | scheduler/main.py:1335-1402 | The rows of a replay and the verdict of its gate |
| `ControlPlane.Platform.ConsumeRun` | scheduler/main.py:1758-1809 | The first half of the main loop is the protocol's consume step |
| `Effects.RunMessagesInOrder` | scheduler/main.py:1758-1809 | Run messages are consumed from the head: dropped for a cancelled run, sent to the tail at the limit, started otherwise; new ones go to the tail |
| `ControlPlane.Platform.Start` | scheduler/main.py:1785-1804 | Starting a run: RUNNING, initial rows, gate, first dispatches |
| `ControlPlane.Platform.HandleDone` | scheduler/main.py:1812-1977 | The second half of the main loop is the protocol's done step |
| `ControlPlane.Platform.RecordSuccess` | scheduler/main.py:1879-1908 | The success branch of the done handler |
| `ControlPlane.Platform.RecordFailure` | scheduler/main.py:1916-1977 | The failure branch: retry within the budget, else dead letter and synchronisation |
| `ControlPlane.Platform.TakeTask` | executor/main.py:451-458 | The blocking pop takes the head of the highest-priority queue that is not empty |
| `Effects.TakenInOrder` | executor/main.py:451-458 | The executor takes the first waiting message of the queues high, normal, low, and nothing changes if none waits |
| `ControlPlane.Platform.ReportTask` | executor/main.py:670-720 | One done message per held task message |
| `Effects.ReportedAtTail` | executor/main.py:670-720 | A report goes to the tail of the done queue, one for each held message |
| `ControlPlane.Platform.CancelRunAndTasks` | api/app/domains/orchestration/run_service.py:499-520 | The endpoint marks the run CANCELLED whatever its status, cancels its open rows and says whether the run exists |
| `StaleSnapshots.DispatchedAfterDependencies` | scheduler/main.py:1501-1516 | With any number of replicas interleaving, a pushed task is selected and all its dependencies are SUCCESS then and in every later state |
| `StaleSnapshots.SuccessStays` | scheduler/main.py:49-57 | No interleaving takes a SUCCESS row back |
| `StaleSnapshots.EveryInterleavingOk` | scheduler/main.py:1493-1535 | In every interleaving snapshots only lag behind, and queued, held and retried tasks were dispatched before |
| `StaleSnapshots.HandlerAlone` | scheduler/main.py:1812-1977 | Uninterrupted, the pieces of a done handler add up to the atomic handler |
| `StaleSnapshots.ConsumerAlone` | scheduler/main.py:1758-1804 | Uninterrupted, the pieces of the run consumer add up to the atomic consume step |
| `StaleSnapshots.RoundAlone` | scheduler/main.py:1493-1523 | Uninterrupted, the pieces of a dispatch round add up to the atomic round |
| `ManifestKeys.FillManagedKeyset` | scheduler/main.py:1172-1186 | The loop keeps stripped names with values that are not blank, following `env:` references, later entries winning |
| `ManifestKeys.FillPlainKeyset` | executor/main.py:264-269 | The same for the JSON key set, without references |
| `ManifestKeys.ManifestKeys` | executor/main.py:244-274 | The active id and key set of the executor, or the error it raises |
| `ManifestKeys.ActiveKeyId` | executor/main.py:245-246 | The active key id is never blank and carries no surrounding blanks |
| `ManifestKeys.ActiveKeyIdIs` | executor/main.py:245-246 | The active id is that of the managed file, else that of the environment, else `v1`, each counting only if it is not blank |
| `ManifestKeys.ManagedValueIs` | scheduler/main.py:1178-1184 | A managed value `env:NAME` stands for the stripped value of that variable; any other value is the key |
| `ManifestKeys.JsonKeyIs` | executor/main.py:264-269 | The key of an id in the JSON key set is the stripped value of the last entry under that stripped name whose value is not blank, and there is none without such an entry |
| `ManifestKeys.AllowedIff` | scheduler/main.py:1162-1169 | A key id is allowed iff it is, up to blanks, one of the ids listed in the managed file or, without such a list, between the commas of the environment variable, or no id is listed |
| `ManifestKeys.SigningOutcome` | executor/main.py:244-350 | Signing raises each of its four errors exactly under its condition, in order, and otherwise uses the active id's own key, or the single key if it has none |
| `ManifestKeys.KeysAgreeIff` | scheduler/main.py:1189-1217 | The scheduler finds the key the executor signed with iff the configuration is coherent |
| `ManifestKeys.AcceptedIff` | scheduler/main.py:1241-1267 | Signed manifests are accepted for every HMAC function iff the configuration is coherent |
| `ManifestKeys.AcceptedLaterIff` | scheduler/main.py:1241-1267 | Under any other configuration a manifest is accepted for every HMAC function iff its id is allowed there and still names its key |
| `ManifestKeys.StrictLookup` | scheduler/main.py:1189-1217 | Under a strict lifecycle and clean names the scheduler resolves every id as the executor's key set does |
| `ManifestKeys.CleanIsAccepted` | executor/main.py:321-350 | Under a strict lifecycle and clean names every signed manifest is accepted |
| `ManifestKeys.AcceptedAfterRotationIff` | scheduler/main.py:1241-1267 | When the later configuration is strict and clean, an older manifest is accepted iff its id is still allowed and its key set has the same key under it |
| `ManifestKeys.PaddedNameIsRejected` | executor/main.py:264-269 | A manifest signed under a key name padded with blanks is rejected |
| `ManifestKeys.NullKeyIsRejected` | executor/main.py:264-269 | A manifest signed with a null key is rejected |
| `ManifestEvidence.PayloadValidForTask` | scheduler/main.py:1305-1332 | The code of the payload check; which payloads it accepts is said by the rows below |
| `ManifestEvidence.PayloadNamesOneTask` | scheduler/main.py:1311-1315 | A payload is valid for one run and one task only |
| `ManifestEvidence.StatusInAnyCase` | scheduler/main.py:1316-1317 | The status must be SUCCESS, in upper or lower case letters |
| `ManifestEvidence.DefectsAreRefused` | scheduler/main.py:1305-1332 | A manifest is refused if it is missing, of another algorithm, lacks an entry, or has an attempt, artifacts or lineage of the wrong type |
| `ManifestEvidence.RequiredByFirst` | scheduler/main.py:1270-1282 | The markers required of a task are the stripped non-blank ones of the first entry with its id |
| `ManifestEvidence.SatisfiesRequiredArtifacts` | scheduler/main.py:1285-1302 | The collecting and searching loops find every required marker in the path or URI of some artifact, or say that one is missing |
| `ManifestEvidence.CollectBlobs` | scheduler/main.py:1291-1298 | The collected texts are exactly the paths and URIs of the artifacts |
| `ManifestEvidence.ExecutorManifestPassesIff` | executor/main.py:305-374 | What an executor signs and posts about a task of a run passes the gate for a task of a parent run, for every HMAC function, iff it could be signed, run and task are the ones asked about, the task succeeded, attempt and time are set, every artifact has a path, each required marker is part of a path or URI, and its key is still allowed and known |
| `ManifestEvidence.UnchangedKeysSuffice` | executor/main.py:305-374 | Under one strict, clean configuration a successful task with good artifacts passes the manifest gate |
| `ManifestEvidence.GateChecksManifest` | scheduler/main.py:1370-1379 | A task that passes the other three gates is skipped iff its manifest passes |
| `JsonPath.ValidateIff` | sdk/http_task_templating.py:87-91 | Validation accepts exactly the blank expression and the printed paths of well-formed steps |
| `JsonPath.StepsAreWritten` | sdk/http_task_templating.py:10-10 | The steps are names of letters, digits and underscores after a dot, unsigned digits in brackets, and quoted text without that quote in brackets |
| `JsonPath.PrintAppend` | sdk/http_task_templating.py:10-10 | A path is written by writing its steps one after the other |
| `JsonPath.ResolveJsonpath` | sdk/http_task_templating.py:94-134 | The code of the evaluator; what it finds is said by `IndexFinds` to `UnsupportedIff` |
| `JsonPath.EvalLoop` | sdk/http_task_templating.py:105-134 | The loop with its index and cursor evaluates the text, consumes all of it or stops at the first failing lookup |
| `JsonPath.FindFrom` | sdk/http_task_templating.py:111-113 | The position of the first closing bracket from an index, or -1 |
| `JsonPath.WordEnd` | sdk/http_task_templating.py:123-125 | The end of a name is the next dot or bracket |
| `JsonPath.ResolveIsFoldIff` | sdk/http_task_templating.py:94-134 | On every value the printed path evaluates to the left fold of its single lookups, failing as the fold fails, iff no quoted key holds `]` or begins or ends with a quote; the rows below say what single lookups find |
| `JsonPath.IndexFinds` | sdk/http_task_templating.py:114-116 | `$[n]` on a list is its element n counted from 0, or an index error |
| `JsonPath.NegativeIndexFinds` | sdk/http_task_templating.py:114-116 | A quoted `-n` with n > 0 is the element n places from the end, or an index error |
| `JsonPath.PlusIndexFinds` | sdk/http_task_templating.py:114-116 | A quoted `+n` is the element n |
| `JsonPath.BlanksAroundIndex` | sdk/http_task_templating.py:114-116 | Blanks around a quoted index do not matter |
| `JsonPath.UnderscoreInIndex` | sdk/http_task_templating.py:114-116 | An underscore between digits of a quoted index does not matter |
| `JsonPath.WordIsNoIndex` | sdk/http_task_templating.py:114-116 | A key of letters is not an index of a list |
| `JsonPath.MemberFinds` | sdk/http_task_templating.py:114-133 | `$.name`, `$["key"]` and `$[n]` on an object are the members of exactly these names, or a key error |
| `JsonPath.NothingFinds` | sdk/http_task_templating.py:119-132 | A list has no named members, and a value that is neither list nor object has none at all |
| `JsonPath.ResolveGoesOn` | sdk/http_task_templating.py:94-134 | A path evaluates to its back part on what its front part gives, or to the error of the front part; `$` and the blank expression give the value itself |
| `JsonPath.UnsupportedIff` | sdk/http_task_templating.py:99-100 | An expression is reported as unsupported iff validation refuses it |
| `JsonPath.NeverUnclosed` | sdk/http_task_templating.py:111-113 | No expression is ever reported as unclosed once it passed validation |
| `UsageMath.PercentileMonotone` | sdk/usage_cost_math.py:61-74 | The percentile grows with the percentage across segments and both clamps |
| `UsageMath.PercentileBounded` | sdk/usage_cost_math.py:61-74 | The percentile lies between the smallest and the largest value |
| `UsageMath.PercentileOfPermutation` | sdk/usage_cost_math.py:61-74 | The percentile does not depend on the order of the values |
| `UsageMath.PercentileAtRank` | sdk/usage_cost_math.py:61-74 | With the n values in ascending order and (n - 1) * pct / 100 equal to i, the percentile is the value at index i |
| `UsageMath.PercentileBetweenRanks` | sdk/usage_cost_math.py:69-74 | With s the values in ascending order and i <= x = (n - 1) * pct / 100 <= i + 1, the percentile is s[i] + (s[i + 1] - s[i]) * (x - i) |
| `UsageMath.AggregateSamples` | sdk/usage_cost_math.py:109-210 | The loops compute the aggregate of CPU, memory, GPU and network readings |
| `UsageMath.CollectSeries` | sdk/usage_cost_math.py:116-160 | The sample loop collects the readings of every gauge in order, the timed memory points and the running peak |
| `UsageMath.AppendRow` | sdk/usage_cost_math.py:128-160 | One sample appends each of its readings to the list of its gauge |
| `UsageMath.AverageWithinReadings` | sdk/usage_cost_math.py:55-58 | An average lies between the smallest and the largest reading, and the peak is the largest |
| `UsageMath.FiguresOfGauges` | sdk/usage_cost_math.py:162-210 | Each figure belongs to one gauge: averages times counts are sums, peaks are largest readings, totals are the largest reading cut towards zero, p95 is the percentile 95 of the CPU |
| `UsageMath.MemoryFigures` | sdk/usage_cost_math.py:162-210 | Memory average and peak are those of the readings, or the positive memory reported beside them; the peak in KB is 1024 times the largest of all, rounded down |
| `UsageMath.ReadingsInOrder` | sdk/usage_cost_math.py:116-160 | The readings of a gauge are those of the samples in order, one for each sample that has it, CPU normalised; a memory point needs value and time |
| `UsageMath.SumOfLists` | sdk/usage_cost_math.py:55-58 | The sum that averages divide adds up over lists and is the value itself for one value |
| `UsageMath.IntegrateMemory` | sdk/usage_cost_math.py:176-190 | The integral loop sums the trapezoids and the tail, with the one-sample and no-sample cases |
| `UsageMath.AreaAdds` | sdk/usage_cost_math.py:180-185 | The area between two points is their mean value times the time between them, 0 if it runs backwards, and areas that meet in a point add up |
| `UsageMath.MemoryOfOneSample` | sdk/usage_cost_math.py:178-179 | One timed sample counts for the whole runtime, 0 if that is negative |
| `UsageMath.MemoryOfPeak` | sdk/usage_cost_math.py:189-190 | Without timed samples the largest memory known counts for the whole runtime, if it is positive |
| `Sorting.SortIsStable` | sdk/usage_cost_math.py:177-177 | Sorting the points by time keeps the order of points with one time |
| `UsageMath.AggregateOfPermutation` | sdk/usage_cost_math.py:109-210 | No figure of the aggregate depends on the order of the samples when memory samples have distinct times |
| `UsageMath.MemoryBounds` | sdk/usage_cost_math.py:176-190 | The integral lies between lower and upper memory bounds times the covered time, hence is exact for constant memory |
| `UsageMath.MemoryOfRamp` | sdk/usage_cost_math.py:176-190 | For memory that varies linearly with time the integral between first and last sample is exact |
| `UsageMath.TailNotNegative` | sdk/usage_cost_math.py:186-188 | The covered time adds r / (2n) to the span for non-negative runtime r and n samples |
| `UsageMath.NormalizeCpu` | sdk/usage_cost_math.py:77-106 | Negative figures give 0, figures up to 100 are kept, larger ones are divided by the CPU count and cut at 100 |
| `UsageMath.CpuBounds` | sdk/usage_cost_math.py:55-106 | 0 <= average, p95 <= peak <= 100 for CPU, and all three exist together |
| `RunQueue.RunList.PopNextRun` | scheduler/main.py:1643-1662 | The rotating loop returns and leaves behind exactly the closed form |
| `RunQueue.PopRotates` | scheduler/main.py:1643-1662 | A call returns the first message for this cluster within the scan limit, loses and doubles none and keeps the cyclic order of the rest |
| `RunQueue.PassedOverIff` | scheduler/main.py:1644-1660 | A message is passed over iff it decodes and names a cluster other than the scheduler's own, and the scheduler has one |
| `RunQueue.ArrivalKeepsTurn` | scheduler/main.py:1665-1667 | A message pushed to the tail overtakes no eligible one, and is first in turn if there was none |
| `RunQueue.ReturnedInTurn` | scheduler/main.py:1643-1662 | If the first eligible message is at position p, call number p / limit + 1 returns it and the calls before return nothing, while others append |
| `ReplayBuffer.Publisher.AssignSequenceAndBuffer` | scheduler/realtime_publish.py:66-94 | One publish numbers the event, pushes it to the front and trims the list, under every Redis fault; other projects are untouched |
| `ReplayBuffer.ScopesApart` | scheduler/realtime_publish.py:69-73 | Events share a counter and a list iff they agree in tenant and project up to blanks; an event that lacks either is not buffered |
| `ReplayBuffer.PublishUnderFault` | scheduler/realtime_publish.py:79-86 | What each Redis fault leaves: a number is used up unless it was refused, and the event is in front of the list unless numbering or push failed |
| `ReplayBuffer.BufferSize` | scheduler/realtime_publish.py:74-78 | The configured size, held between 50 and 10000 |
| `ReplayBuffer.Publisher.constructor` | scheduler/realtime_publish.py:66-94 | Counters start at zero and lists empty |
| `ReplayBuffer.BufferRefinesLog` | scheduler/realtime_publish.py:79-86 | With one publisher the buffer is the newest min(n, size) pushed events, newest first, with strictly decreasing numbers up to the counter |
| `ReplayBuffer.BufferContiguous` | scheduler/realtime_publish.py:79-86 | Without Redis errors the numbers in the buffer have no gap |
| `ReplayBuffer.InterleavedBuffer` | scheduler/realtime_publish.py:79-86 | With any number of publishers the buffer is the newest pushed events, at most size, with distinct numbers up to the counter |
| `ReplayBuffer.PublishAlone` | scheduler/realtime_publish.py:79-86 | Uninterrupted, the moves of a publish do what the publish does, for every fault |
| `ReplayBuffer.InterleavingCanReorder` | scheduler/realtime_publish.py:79-86 | A concrete interleaving of two publishers leaves the numbers in the buffer in rising order |
| `ReplayBuffer.PushKeepsRisingIff` | scheduler/realtime_publish.py:79-86 | A push keeps the pushed numbers rising iff its number is above the newest one |
| `ReplayBuffer.AnyOrderRisesIff` | scheduler/realtime_publish.py:79-86 | Every order of pushing what is pending keeps the numbers rising iff at most one publish is pending and its number is above the newest one |
| `ReplayBuffer.TakingTurnsRises` | scheduler/realtime_publish.py:79-86 | However many publishers there are, the numbers rise if a number is given out only while no publish is pending |

## Left out

- SQL, Redis, HTTP and JSON encoding, metrics, logging, tracing and realtime notifications of the handlers: abstract rows and messages.
- Real HMAC and the canonical JSON text of a manifest: an arbitrary function of key and message. The Ed25519 branch of signing and verification is not modelled.
- The caching of the managed key file inside a process: both processes read the file as it is.
- ControlPlane.Platform.InitGated: the gate takes the artifact, checksum and manifest evidence as sets of keys. `ManifestEvidence` says which keys have a passing manifest; the SQL look-ups behind the other two sets are not modelled.
- ControlPlane.Platform.InitReplayTasksWithGating: takes the same sets.
- ReplayRuns.GateAcceptsIff: speaks of the same sets.
- Worker leases, the worker API and the admission queue of external mode: only the effect of expired leases on rows, for the slot limit.
- Capacity, message uniqueness and no-stranding with several scheduler replicas: the code counts slots and dispatches in separate commands and does not provide them.
- Redelivered run messages, FAILED runs that are triggered again, executor crashes and replay of dead letters, outside `StaleSnapshots`.
- A row transition is one step even in `StaleSnapshots`, although the code reads and writes it in two statements.
- Several schedulers popping the same run list at once: `RunQueue` lets other producers append between calls only.
- Trigger policies, closed-loop and materialization ticks, Jinja templates and outbound requests.
- Disk figures and the normalisation of a task's reported usage.
- Rounding of floating-point numbers, parsing of time stamps, and the source of the CPU count.
- Unicode blanks and digits in names, JSONPath indexes and key names.
