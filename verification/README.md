# Verified model of the pip workflow controller

pip drives a GitHub issue through planning, building, CI, review, remediation and final review. A
ledger records every accepted event; effects of each event dispatch workers; results come back
through a review join, a generation fence and a final gate. This project models that control logic
in Dafny and proves what it promises over every input, every run and every interleaving.
`dafny verify dfyconfig.toml` checks all of it.

| file | what it models |
|---|---|
| `Prelude.dfy`, `Contracts.dfy` | shared wrappers, machine limits, worker roles and results |
| `StateMachine.dfy` | 16 states, 47 events, the transition table, and the table read backwards |
| `Ledger.dfy`, `LedgerStore.dfy` | commands, budget, bindings, the store's transaction and its entry points |
| `Batches.dfy` | batches against sequences at the entry points, event ids included |
| `Reviews.dfy` | the review join and the two published lanes |
| `Workflow.dfy` | runs of a case: callers' guards, parking, jobs, the generation fence |
| `WorkflowSafety.dfy`, `Readiness.dfy`, `Liveness.dfy` | what each step keeps: data, budget, review cohort, readiness chain, outstanding work |
| `Runs.dfy`, `Provenance.dfy` | the theorems over whole runs, and where the bindings of a case come from |
| `Dispatch.dfy` | which jobs a case dispatches and which of their results are still wanted |
| `Meaning.dfy` | what every answer and observation does to a case |
| `Recoveries.dfy`, `Refusals.dfy` | leaving a dead end, and the exact meaning of every refusal |
| `Reachability.dfy` | every outcome of outstanding work continues the run, parked cases resume, and no case of a shadow policy loses its way to readiness |
| `Counterexamples.dfy` | reachable cases on which a property fails without its condition, and the exact condition of the budget |
| `Results.dfy` | ingesting a worker's result into the store |
| `DirectQueue.dfy` | the job queue: controller, worker pool and their interleavings |
| `WebhookSpool.dfy` | the webhook spool under concurrency and crashes |
| `FinalGate.dfy` | the final gate over the whole run history |
| `Calendar.dfy` | the closed-form day count and the timestamp parser |
| `Install.dfy` | installation with rollback on a host where any step may fail |
| `ReleaseDigest.dfy` | the canonical encoding of release resources |
| `Bindings.dfy` | completing and validating a worker's result |
| `Evidence.dfy` | deduplicated evidence bundles |
| `PublicationText.dfy` | escaping prose for publication |

## How the main results fit together

The transition table is written the way the source decides (global rules, then one small table per
state) and again backwards, as the ways each state can be entered; `TransitionExact` proves that the
two agree for every state, event and context. Every later proof about runs uses the backward table.

A run (`Workflow.Run`) starts with `create_case` and takes any sequence of accepted commands and
reauthorizations. `Workflow.Allowed` holds the guards of the callers: reviews come from a current job
of a required reviewer through the join, READY follows an accepted preflight, operational bounds are
raised only on unparked cases, resumes carry the target and grant of `apply_control_commands_once`.
`Runs.Inv` is kept by every step, and the theorems in `Runs.dfy` follow for every reachable case.
`Reachability.dfy` shows that the guards still let a case through. From every reachable case of a shadow
policy that is not terminal, parked and half-reviewed ones included, some continuation of its run reaches
SHADOW_READY (`ReadyStaysReachable`). And whatever the handler of an outstanding effect reports passes the
callers' guards, is accepted by the ledger and extends the run (`RunContinues`).

What the run does is pinned from outside its own functions. `Provenance` reads the head, the pull request and the
plan of a case off the list of its actions. `Dispatch` and `Meaning` list, field by field and outcome by outcome,
the jobs an effect dispatches and the record an answer leaves, and `Results` proves that the ingest leaves exactly
that record and takes every answer a case is waiting for. `Refusals.RefusedExactly` lists the reasons against a
command: it is accepted exactly when none holds, and a refusal names one that does.

Some properties turned out to need a condition that the code does not check. Each is proved as an
exact condition, with an input or run that fails it:

- An accepted batch equals its sequence exactly when it only replays or extends no budget before its
  last command (`Batches.AcceptedBatch`; `Counterexamples.ExtensionBatchDiffers` is a reachable case on
  which it differs). An accepted sequence equals its batch exactly for one case, distinct ids, and ids all
  new, or all known with each command consecutive to the transition recorded before it
  (`Batches.AcceptedSequence`; `Counterexamples.PartlyRecordedBatch` is a reachable case whose partly recorded
  batch conflicts).
- The ledger alone lets REVIEW_RECORDED carry an accepted plan and so move the generation
  (`Runs.LedgerFence` says exactly when, `Counterexamples.FenceCanBreak` does it on a reachable case);
  the result path never sends one.
- A start repeats an execution exactly when its input was archived after it was read, or an earlier
  execution of the attempt ended without a result (`DirectQueue.RepeatsExactly`; `DirectQueue.RaceRepeats`
  and `DirectQueue.LossRepeats` are such runs).
- A redelivery that agrees with its receipt is refused exactly when it found its delivery in both
  queues, or when the pending file it is about to compare has been taken away
  (`WebhookSpool.RefusedExactly`; `WebhookSpool.BothQueuesRefuse` and `WebhookSpool.VanishedPendingRefuses`
  are such runs). Either way the delivery is already processed.
- `unix_seconds` documents `YYYY-MM-DDTHH:MM:SSZ` but accepts signed fields, days a month does not have
  and second 60 anywhere (`Calendar.AcceptedExactly`, `Calendar.SignedHourAccepted`,
  `Calendar.MissingDayAccepted`, `Calendar.AnySixtiethSecondAccepted`).
- Rollback restores the host exactly when `current` is not a plain file and no unit or ledger path is a
  dangling link (`Install.Host.InstallRelease`; `Install.RollbackForgets`, `Install.PlainCurrentIsLost` and
  `Install.DanglingUnitIsLost` lose one).
- `fill_binding` alone keeps unordered run times, and validation then refuses the result
  (`Bindings.FilledIsValid`, `Bindings.FillUnordered`). No caller sends such times: the direct executor raises the
  completion to the start, and the other two send equal times or none, so every result the code fills has
  start <= completion and passes the common checks (`Bindings.EveryFillIsOrdered`).
- No reachable case exceeds its maximum plus granted rounds exactly when all accepted policies allow the same
  number of rounds (`Counterexamples.BudgetSafeExactly`): an abandoned case keeps its rounds when it is authorized
  again under a smaller policy (`Counterexamples.SmallerMaximumExceeded`). Along a run that never lowers the
  maximum the budget always holds (`Runs.BudgetNeverExceeded`).

The store follows `crates/pip-store`: one compare-and-swap on the case row per event, atomic batches,
append-only history, granted rounds summed over HUMAN_RESUMED events, the review cohort since the last
entry into CI observation or review, and the store's own validators for recoveries and resumes. The set
of accepted policies is fixed for a run and holds every policy ever recorded, which is how immutable
policy rows look from one case.

## Model

| member | source | states |
|---|---|---|
| StateMachine.Transition | crates/pip-core/src/state_machine.rs:343-545 | every decision enters its state in a way the backward table lists and emits exactly that entry's effects |
| StateMachine.TransitionExact | crates/pip-core/src/state_machine.rs:343-545 | an event is accepted into a state if and only if the backward table lists it |
| StateMachine.EnteredOnce | crates/pip-core/src/state_machine.rs:399-544 | the backward table is deterministic: one event leads to at most one state |
| StateMachine.TransitionRefuses | crates/pip-core/src/state_machine.rs:343-398 | a refusal says why: no budget, a terminal state, or no transition for this state and event |
| StateMachine.ParkedExactly | crates/pip-core/src/state_machine.rs:381-398 | a human can resume or abandon exactly the cases in WAITING_HUMAN, BLOCKED and ESCALATED, and resume them only into a state that dispatches |
| Workflow.StepAppends | crates/pip-controller/src/ledger.rs:72-204 | an accepted command appends exactly one record, decided by the state machine under the granted budget: a publication binds the head it carries and never replaces the pull request, an accepted plan is the next version, and everything else keeps its bindings |
| Workflow.PrepareKeeps | crates/pip-controller/src/ledger.rs:123-314 | a prepared REVIEW_READY has exactly the carried head and the carried or bound pull request, which stays the bound one; other events keep both; the plan is kept or the next version; one round per non-resume entry into REMEDIATING |
| Workflow.CommitAppends | crates/pip-store/src/lib.rs:1168-1385 | one commit is a compare-and-swap that appends its record and keeps the policy except on a resume or a budget extension |
| Refusals.RefusedExactly | crates/pip-controller/src/ledger.rs:72-314 | a command on a reachable case is accepted if and only if none of the listed reasons against it holds, and a refusal names a reason that does |
| Refusals.StoredExactly | crates/pip-store/src/lib.rs:1245-1268 | the store takes a prepared event if and only if its recovery fits the case and is authorized, or its resume names an accepted policy that is not older and grants at most ten rounds |
| LedgerStore.Store.CommitTransaction | crates/pip-store/src/lib.rs:1168-1385 | a batch is committed whole or not at all |
| LedgerStore.Store.ApplyTransitionBatch | crates/pip-store/src/lib.rs:1160-1385 | known event ids replay without effect, unknown ones commit, a mixture or a changed input conflicts |
| LedgerStore.TransactShape | crates/pip-store/src/lib.rs:1168-1203 | an accepted batch is of one case, with distinct ids and its revisions in a row |
| LedgerStore.ApplyWorkflowBatch | crates/pip-controller/src/ledger.rs:85-108 | the loop over a batch computes the specified transaction and changes nothing on error |
| LedgerStore.ApplyWorkflow | crates/pip-controller/src/ledger.rs:72-83 | one command is a batch of one |
| Batches.AcceptedBatch | crates/pip-controller/src/ledger.rs:72-121 | with no resume before the last command, an accepted batch equals submitting its commands one by one, database and recorded events included, if and only if it only replays or extends no budget before its last command |
| Batches.AcceptedSequence | crates/pip-store/src/lib.rs:1168-1222 | with no resume before the last command, an accepted sequence equals its batch if and only if the commands are of one case with distinct ids, all new, or all known with each command consecutive to the recorded transition of the one before it |
| Batches.SubmitFreshBatch | crates/pip-controller/src/ledger.rs:85-108 | with new ids the entry point is the batch on its ledger, and records exactly its prepared inputs |
| Batches.SubmitKnownBatch | crates/pip-store/src/lib.rs:1204-1217 | with known ids a batch replays if and only if it is linked and prepares the recorded inputs |
| Batches.MixedConflicts | crates/pip-store/src/lib.rs:1218-1222 | a partly recorded batch is always refused |
| Batches.PartlyRecordedConflicts | crates/pip-store/src/lib.rs:1218-1222 | a committed command and the next one are accepted one by one and refused together |
| Batches.SubmitGrows | crates/pip-controller/src/ledger.rs:85-108 | new ids append one record per command and raise the revision by the batch length, on one case only; known ids change nothing |
| Batches.ConsistentKept | crates/pip-store/src/lib.rs:1168-1385 | every recorded event stays below the revision of its case |
| Counterexamples.ExtensionBatchDiffers | crates/pip-store/src/remediation_extension.rs:46-62 | for every policy with a later one that differs only in its larger limit some reachable case accepts a budget extension and CI acceptance as a batch and refuses them one by one |
| Counterexamples.PartlyRecordedBatch | crates/pip-store/src/lib.rs:1218-1222 | on a reachable case a recorded command and the next one succeed one by one and conflict as a batch |
| Counterexamples.FenceCanBreak | crates/pip-controller/src/ledger.rs:272-284 | on a reachable reviewing case the ledger accepts a REVIEW_RECORDED that moves the plan |
| Counterexamples.GrantHappens | crates/pip-control/src/resume.rs:171-189 | some run ends with the resume of a case that spent every round |
| Counterexamples.SmallerMaximumExceeded | crates/pip-store/src/reauthorization.rs:26-77 | for every two policies with different maximums some reachable case under the smaller has spent more rounds than its budget |
| Counterexamples.BudgetSafeExactly | crates/pip-controller/src/ledger.rs:110-159 | no reachable case exceeds its maximum plus granted rounds if and only if all accepted policies have the same maximum |
| LedgerStore.CommitKeepsBudget | crates/pip-controller/src/ledger.rs:110-121 | a commit other than a resume keeps the granted budget, and only an extension rebinds the policy |
| Reviews.JoinReview | crates/pip-controller/src/results.rs:304-380 | the loop over recorded runs decides the join of the matching reviews |
| Reviews.JoinArrival | crates/pip-controller/src/results.rs:304-380 | for any number of required reviewers all but the last arrival wait, and the last approves if and only if all approved |
| Reviews.JoinConfluence | crates/pip-controller/src/results.rs:304-380 | the verdict does not depend on the order of arrival |
| Reviews.JoinExactly | crates/pip-controller/src/results.rs:304-380 | a second answer conflicts, a missing required answer waits, and a complete cohort conflicts over a stray answer, asks for changes if one does, and approves otherwise |
| Reviews.JoinWithoutPolicy | crates/pip-controller/src/results.rs:340-352 | without a policy the earliest reviewer of each lane stands for its required seat, and until both lanes answered the join waits |
| Reviews.MatchingExactly | crates/pip-controller/src/results.rs:310-322 | the reviews joined are those of the same plan, round, pull request and head |
| Reviews.JoinedReviews | crates/pip-control/src/reviews.rs:216-297 | lanes are returned if and only if the top-round reviews are one decided review per required seat; they are non-empty and partition the required reviewers |
| Reviews.SelectRound | crates/pip-control/src/reviews.rs:258-276 | the top-round reviews are selected if and only if each is decided, seated and unrepeated |
| Reviews.LanesPartition | crates/pip-control/src/reviews.rs:277-297 | the two lanes hold exactly the reviews of their role and split the required reviewers |
| Reviews.LanesAgreeWithJoin | crates/pip-control/src/reviews.rs:299-330 | some lane requests changes if and only if the join did |
| Reviews.SortedSeats | crates/pip-control/src/reviews.rs:244-257 | the required seats in map order |
| Workflow.GenerationFence | crates/pip-control/src/results.rs:513-535 | on a history whose recorded reviews keep the generation, an accepted frozen revision has the current plan, pull request, head and round |
| WorkflowSafety.DispatchableStep | crates/pip-controller/src/ledger.rs:256-314 | every step keeps PR and head bound together, a plan under every head, and the data of the state |
| WorkflowSafety.ParkStep | crates/pip-control/src/park.rs:9-25 | a case that parks can be resumed into a state whose data is present |
| WorkflowSafety.ResumeStep | crates/pip-control/src/resume.rs:90-207 | a resume starts from the last record and re-enters planning or the resume target |
| WorkflowSafety.ResumeContinues | crates/pip-control/src/park.rs:9-25 | a case parked by the loop guard resumes where the same event leads while a round is left |
| Recoveries.ResumeReturns | crates/pip-control/src/park.rs:9-25 | in every run a resume lands where the parking event and the state before it say, or in planning when it asks for that, and keeps the plan, pull request, head and round |
| Recoveries.ParkedReturns | crates/pip-control/src/park.rs:9-25 | the resume target of every reachable parked case, state by state and cause by cause |
| Recoveries.RecoveredExactly | crates/pip-store/src/lib.rs:1245-1268 | each audited recovery is accepted by some command if and only if the case is in the dead end it was made for |
| Recoveries.RecoveryLands | crates/pip-core/src/state_machine.rs:399-544 | an accepted recovery keeps plan, pull request and head: infrastructure repairs spend a round building again, misread feedback is planned again, the others observe CI again |
| Recoveries.RecoveredOnce | crates/pip-store/src/native_review_retry.rs:49-57 | in every run a native review retry and a coordination recovery happen at most once |
| WorkflowSafety.BudgetStep | crates/pip-controller/src/ledger.rs:147-159 | a step spends a round exactly on a non-resume entry into REMEDIATING and stays within the budget |
| WorkflowSafety.ExhaustionStep | crates/pip-control/src/park.rs:29-41 | rounds_exhausted holds of a new escalation if and only if the loop guard caused it, with the budget spent |
| Readiness.AcceptedReviewKeyed | crates/pip-control/src/direct_queue.rs:775-790 | a review accepted through the fence is of the current plan, pull request, head and round |
| Readiness.ReviewJoins | crates/pip-controller/src/results.rs:236-380 | each accepted review extends a distinct, seated, same-generation cohort, and the event says exactly whether the cohort is complete and unanimous |
| Readiness.CollectingStep | crates/pip-store/src/lib.rs:1526-1542 | while reviewing, the current cohort is always a proper part of a joinable one |
| Readiness.JoinPublishes | crates/pip-control/src/reviews.rs:216-297 | after the join the publisher finds a joinable cohort on the exact head, unanimous if and only if approved |
| Readiness.CohortLocated | crates/pip-store/src/lib.rs:1526-1542 | every cohort review was recorded after the last entry into CI observation or review |
| Readiness.ChainStep | crates/pip-core/src/state_machine.rs:399-544 | every step keeps the chain of publication, CI acceptance, join and preflight behind the state |
| Runs.RunKeeps | crates/pip-controller/src/ledger.rs:72-204 | the invariant of the workflow holds at every point of every run |
| Provenance.BindingsComeFrom | crates/pip-controller/src/ledger.rs:272-314 | in every run the head is the one its last publication carried, the pull request the one its first publication named, and the plan version the number of accepted plans |
| Provenance.HistoryGrows | crates/pip-store/src/lib.rs:1270-1290 | a run only appends, one record per action |
| Provenance.ReauthorizedExactly | crates/pip-store/src/reauthorization.rs:4-61 | a returning label restarts a case if and only if it was abandoned by command, or lost its label before anything was published |
| Runs.EveryCaseDispatchable | crates/pip-controller/src/scheduling.rs:558-623 | no effect of a reachable case can miss its plan, pull request or head, and every parked case resumes into a state whose data is present |
| Dispatch.EffectsDispatch | crates/pip-controller/src/scheduling.rs:558-650 | every effect of a reachable case dispatches exactly its jobs, field by field: one planner for the next plan, one builder, one job per configured reviewer, one final reviewer on the bound head, and none otherwise |
| Dispatch.DispatchRefuses | crates/pip-controller/src/scheduling.rs:575-623 | an effect is refused exactly for the first thing it needs and misses: plan, pull request, head |
| Dispatch.JobPassesExactly | crates/pip-control/src/results.rs:513-536 | in every run the fence takes a result of a dispatched job, whatever its role, if and only if nothing but peer reviews was recorded since the dispatch |
| Runs.ReadyIsEarned | crates/pip-core/src/state_machine.rs:343-545 | a ready case has, since the publication that bound its head, a CI acceptance, a join of approvals of exactly that head by every required reviewer, and a preflight immediately before READY |
| Runs.ShadowNeverMerges | crates/pip-core/src/state_machine.rs:495-531 | under shadow policies no run begins or executes a merge |
| Runs.AcceptedJobIsCurrent | crates/pip-control/src/results.rs:513-535 | in every run an accepted generation has the case's current plan, pull request, head and round |
| Runs.AcceptedReviewIsCurrent | crates/pip-control/src/direct_queue.rs:376-394 | in every run an accepted review is of the current exact head |
| Runs.PendingReviewPasses | crates/pip-control/src/results.rs:513-535 | in every run the job of a required reviewer who has not answered was dispatched and passes the fence |
| Runs.LedgerFence | crates/pip-controller/src/ledger.rs:272-284 | a recorded review keeps the generation if and only if it carries no accepted plan or the version is saturated |
| Runs.RoundsConserved | crates/pip-controller/src/ledger.rs:147-159 | between any two points of a run the round rises by the number of non-resume entries into REMEDIATING |
| Runs.BudgetNeverExceeded | crates/pip-controller/src/ledger.rs:110-159 | while the policy maximum is never lowered, the round never exceeds maximum plus granted rounds |
| Runs.ExhaustionIsLoopGuard | crates/pip-control/src/park.rs:29-41 | rounds_exhausted holds of a reachable escalated case if and only if the loop guard parked it, and then the budget is spent |
| Runs.ResumeLeavesThree | crates/pip-control/src/resume.rs:171-189 | resuming such a case leaves exactly three unspent rounds, plus any rise of the policy maximum |
| Runs.JoinAlwaysPublishes | crates/pip-control/src/reviews.rs:216-297 | in every run joined_reviews succeeds after the last review |
| Runs.NeverStuck | crates/pip-core/src/state_machine.rs:399-544 | every active settled case has outstanding work with a possible outcome, and every outcome of every outstanding effect is accepted by the ledger |
| Reachability.RunContinues | crates/pip-controller/src/results.rs:97-302 | every outcome of every outstanding effect passes the callers' guards, the fence included, is accepted as one batch and extends the run |
| Reachability.RunNeverStops | crates/pip-core/src/state_machine.rs:399-544 | every reachable, active and settled case has a longer run |
| Reachability.ReadyIsReachable | crates/pip-core/src/state_machine.rs:399-544 | for every valid environment and shadow policy, whatever the number of required reviewers, some run ends in SHADOW_READY |
| Reachability.ReadyStaysReachable | crates/pip-core/src/state_machine.rs:343-545 | from every reachable, non-terminal case under a shadow policy some continuation of its history reaches SHADOW_READY |
| Reachability.ResumeParked | crates/pip-control/src/resume.rs:90-207 | every reachable parked case can be resumed, under its policy or a later one, into the target of its parking record or into planning, with three rounds if its rounds were exhausted |
| Reachability.ApproveAll | crates/pip-controller/src/results.rs:304-380 | from any reachable review the remaining required reviewers can complete the join, into final review if nobody requested changes |
| Reachability.Forward | crates/pip-controller/src/ledger.rs:72-204 | a fitting command that its callers allow and the backward table lists always extends the run into that state |
| Liveness.OutstandingWork | crates/pip-store/src/lib.rs:1331-1372 | the outstanding effects of an active state are exactly of the kinds its handlers serve, and never none |
| Liveness.OutcomeMoves | crates/pip-controller/src/results.rs:236-302 | every planner, plan, builder, draft, CI, review, publication, preflight, final and merge outcome is accepted where its effect is outstanding |
| Liveness.OutcomeAccepted | crates/pip-controller/src/results.rs:97-172 | the commands of an outcome are accepted as one batch, a builder's dispatch together with its result |
| Liveness.PlanningMoves | crates/pip-control/src/plans.rs:309-323 | planning accepts every planner outcome, as recorded and as published |
| Results.IngestWorkerResult | crates/pip-controller/src/results.rs:97-172 | ingesting changes the store exactly as specified, and not at all on error; the lemmas below say what is specified |
| Results.IngestRecords | crates/pip-controller/src/results.rs:97-302 | a new result appends its own record and changes no other case: the event and the next state of every planner, builder, review and final outcome, literally, with the bindings kept, after the dispatch of a waiting builder |
| Results.IngestRefuses | crates/pip-controller/src/results.rs:104-302 | before the ledger sees it, a new result is refused exactly for an unknown case or policy or an unrequired reviewer, for a state that does not wait for it, or for a conflict of the join |
| Results.ReadyIsSaid | crates/pip-controller/src/results.rs:277-296 | an ingest records READY only for a final review that says so, right after an accepted preflight |
| Results.IngestTakes | crates/pip-controller/src/results.rs:97-302 | a result that answers outstanding work of a reachable case is always taken, whatever it says |
| Meaning.OutcomeRecorded | crates/pip-controller/src/results.rs:97-302 | whatever the handler of an outstanding effect reports, the case records exactly the event, next state and bindings it means, for every outcome of every handler |
| Results.IngestOnce | crates/pip-controller/src/results.rs:110-118 | a result delivered again changes nothing, and another result under the same id conflicts |
| DirectQueue.Pool.Reap | crates/pip-control/src/direct_queue.rs:535-547 | threads that published leave in order, the others stay in order, and the pass fails if and only if a thread failed |
| DirectQueue.Pool.Scan | crates/pip-control/src/direct_queue.rs:548-618 | a scan starts jobs of the inbox without a result, each attempt once, keeps the limits and exclusions, and leaves no job waiting that is not hindered by a full limit, its workspace, or its case where one of the two is a builder |
| DirectQueue.ScanConserves | crates/pip-control/src/direct_queue.rs:548-618 | after a scan every job still waiting meets a full limit of its kind, a running job with its workspace, or a running job of its case where one of the two is a builder |
| DirectQueue.SlotExactly | crates/pip-control/src/direct_queue.rs:597-618 | a slot is available if and only if none of these hinders the job |
| DirectQueue.PassedOverExactly | crates/pip-control/src/direct_queue.rs:548-587 | in every interleaving the pool passes over an input if and only if its result or its thread is there, or running jobs hinder it |
| DirectQueue.ScanIsRun | crates/pip-control/src/direct_queue.rs:548-587 | a scan is a run of the pool's read, start and skip steps |
| DirectQueue.Directories.Prepare | crates/pip-control/src/direct_queue.rs:334-442 | a claimed job is handed over if and only if no limit, workspace or builder of its case among the inputs hinders it, or the inbox is empty without a capacity |
| DirectQueue.Directories.Archive | crates/pip-control/src/direct_queue.rs:153-169 | archiving removes the input and the result of one attempt and nothing else |
| DirectQueue.RunningStaysWithinLimits | crates/pip-control/src/direct_queue.rs:511-618 | in every interleaving, failed threads and pool restarts included, running jobs respect both limits, share no workspace, and no builder runs beside a job of its case |
| DirectQueue.RepeatsExactly | crates/pip-control/src/direct_queue.rs:462-587 | a start repeats an execution if and only if its input was archived after it was read or an earlier execution of the attempt left no result |
| DirectQueue.RaceRepeats | crates/pip-control/src/direct_queue.rs:558-573 | some run executes one attempt twice |
| DirectQueue.LossRepeats | crates/pip-control/src/direct_queue.rs:502-587 | some run executes one attempt twice without archiving anything, after a result that could not be published |
| WebhookSpool.Spool.Store | crates/pip-control/src/webhook_spool.rs:94-161 | an undisturbed store records the receipt, queues it, and tells a new delivery from a replay |
| WebhookSpool.RefusedAlone | crates/pip-control/src/webhook_spool.rs:94-161 | an undisturbed valid delivery is refused if and only if its event, signature or payload differs from the receipt or it sits in both queues; the receive time never matters |
| WebhookSpool.Spool.EnsureQueued | crates/pip-control/src/webhook_spool.rs:253-278 | an undisturbed queueing links the receipt unless the delivery is already queued or processed |
| WebhookSpool.Spool.NextPending | crates/pip-control/src/webhook_spool.rs:163-192 | the first pending delivery in name order |
| WebhookSpool.Spool.MarkProcessed | crates/pip-control/src/webhook_spool.rs:194-218 | a pending delivery moves to processed, a duplicate is removed |
| WebhookSpool.StoreIsItsOperations | crates/pip-control/src/webhook_spool.rs:94-161 | store without interference is its directory operations one after the other |
| WebhookSpool.AcknowledgedNeverLost | crates/pip-control/src/webhook_spool.rs:94-278 | under any interleaving and crashes an acknowledged delivery stays queued under the bytes of its unchanged receipt, and processed only grows |
| WebhookSpool.ConsumerNeverBreaks | crates/pip-control/src/webhook_spool.rs:194-218 | mark_processed never meets a conflict or a missing file |
| WebhookSpool.RedeliveryRepairs | crates/pip-control/src/webhook_spool.rs:253-278 | after any crash an undisturbed redelivery queues its delivery, and is refused if and only if it sits in both queues |
| WebhookSpool.RefusedExactly | crates/pip-control/src/webhook_spool.rs:253-278 | in every interleaving a call that agrees with its receipt is refused if and only if it found both queues filled or its pending file was taken away, and then the delivery is processed |
| WebhookSpool.BothQueuesRefuse | crates/pip-control/src/webhook_spool.rs:259-266 | some run leaves a delivery in both queues and brings its next redelivery to the refusal |
| WebhookSpool.VanishedPendingRefuses | crates/pip-control/src/webhook_spool.rs:273-275 | some run takes the pending file away before a redelivery compares it |
| WebhookSpool.ProcessingSettles | crates/pip-control/src/webhook_spool.rs:194-218 | processing a queued delivery always succeeds and leaves it in processed only |
| FinalGate.ValidateLedgerJoin | crates/pip-control/src/final_preflight.rs:617-753 | an error if and only if a finding has two origins; otherwise exactly the missing evidence is added to the blockers |
| FinalGate.CollectEvidence | crates/pip-control/src/final_preflight.rs:661-704 | one pass over the history finds the plan, the exact build, the resolutions, the current reviews and the origin of every finding |
| FinalGate.SeatApproval | crates/pip-control/src/final_preflight.rs:711-730 | the list check on a seat decides exactly one clean approval in the top round |
| FinalGate.GateExact | crates/pip-control/src/final_preflight.rs:617-753 | no blocker is missing if and only if, run by run, there are an accepted plan, the published or exact build, one clean approval of the latest round by every required reviewer, and for every finding a resolution on the build and a confirmation by its origin |
| FinalGate.GateOrderIndependent | crates/pip-control/src/final_preflight.rs:617-753 | the gate decides the same for every order of the history |
| FinalGate.ValidatePublishedReviews | crates/pip-control/src/final_preflight.rs:755-792 | a role blocks if and only if its latest exact-head review does not approve |
| FinalGate.LatestReviews | crates/pip-control/src/final_preflight.rs:761-786 | the fold keeps the first review with the greatest (time, id) of each role |
| FinalGate.LatestOrderIndependent | crates/pip-control/src/final_preflight.rs:761-786 | with distinct keys the latest review does not depend on the list order |
| Calendar.TomorrowIsOneMore | crates/pip-control/src/resume.rs:295-303 | the closed form grows by one from every real date to the next |
| Calendar.DaysCount | crates/pip-control/src/resume.rs:295-303 | the closed form counts days one at a time from any earlier real date |
| Calendar.EpochIsZero | crates/pip-control/src/resume.rs:295-303 | 1970-01-01 is day zero |
| Calendar.SecondsIncrease | crates/pip-control/src/resume.rs:303-303 | timestamps are ordered exactly as the times they stand for, and no two times share one |
| Calendar.LeapSecondCollides | crates/pip-control/src/resume.rs:287-303 | second 60 of any minute shares its timestamp with the start of the next one, across hours, days, months and years |
| Calendar.AnySixtiethSecondAccepted | crates/pip-control/src/resume.rs:287-294 | second 60 is accepted in minutes that cannot hold a leap second |
| Calendar.TimestampsRoundTrip | crates/pip-control/src/resume.rs:272-304 | every canonical UTC time from the epoch on is read back as its number of seconds |
| Calendar.AcceptedExactly | crates/pip-control/src/resume.rs:272-304 | an accepted string is a timestamp of the UTC profile of section 5.6 of RFC 3339 if and only if no field is signed, its day exists, and a second 60 ends a month |
| Calendar.SignedHourAccepted | crates/pip-control/src/resume.rs:284-294 | a signed hour is accepted and lands in the day before |
| Calendar.MissingDayAccepted | crates/pip-control/src/resume.rs:286-294 | 31 February is accepted as 3 March |
| Install.Host.InstallRelease | crates/pip-control/src/install.rs:168-309 | installed is complete: files with their modes and owner, link, release, every service defined before exactly as it was, new ones off; without faults it happens if and only if nothing stands in the way; existing and refused change no file; a rollback that succeeds restores releases and pre-existing services, and every file and link if and only if the layout is restorable; other services are never touched |
| Install.Host.Attempt | crates/pip-control/src/install.rs:249-303 | the guarded mutation with every unit stopped: snapshot, services, files, link, commit, and their undoing for every failing step |
| Install.Host.Capture | crates/pip-control/src/install.rs:759-797 | the snapshot remembers every regular file and refuses links and directories that resolve |
| Install.Host.Restore | crates/pip-control/src/install.rs:799-818 | a successful restore gives every managed path and the link their remembered state |
| Install.Host.BeforeMutation | crates/pip-control/src/install.rs:495-534 | nothing is stopped before the state of every unit is recorded, and afterwards no unit that was defined runs |
| Install.Host.RollbackUnits | crates/pip-control/src/install.rs:547-553 | a successful rollback gives every pre-existing unit its enabled and active state back |
| Install.Host.SeedPolicies | crates/pip-control/src/install.rs:567-614 | a packaged policy is only a seed: existing policy files keep their bytes |
| Install.RememberedExactly | crates/pip-control/src/install.rs:759-818 | restoring the snapshot restores everything if and only if no managed path was a dangling link |
| Install.RollbackForgets | crates/pip-control/src/install.rs:759-818 | on every first installation with a layout that is not restorable, a failing first step ends in a successful rollback that lost a file or a link |
| Install.PlainCurrentIsLost | crates/pip-control/src/install.rs:813-817 | a plain file at current is gone after a rollback |
| Install.DanglingUnitIsLost | crates/pip-control/src/install.rs:759-793 | a dangling link at a unit path is gone after a rollback |
| ReleaseDigest.ResourceSetBytes | crates/pip-control/src/release.rs:305-334 | bytes are produced if and only if the cohort is valid, and encode its sorted resources |
| ReleaseDigest.CollectResources | crates/pip-control/src/release.rs:315-325 | unsafe and repeated artifacts are refused, the binary is left out |
| ReleaseDigest.PathExactly | crates/pip-control/src/release.rs:501-513 | a valid path is relative, climbs nowhere and uses plain bytes only |
| ReleaseDigest.SegmentsJoin | crates/pip-control/src/release.rs:501-513 | the segments of a path are what stands between its slashes |
| ReleaseDigest.ArtifactExactly | crates/pip-control/src/release.rs:426-436 | a valid artifact has a valid path, a lower-case SHA-256 and mode 0444 or 0555 |
| ReleaseDigest.LessExactly | crates/pip-control/src/release.rs:326-326 | resources are sorted lexicographically by path |
| ReleaseDigest.BigEndianReads | crates/pip-control/src/release.rs:327-332 | lengths and modes are written big-endian and can be read back |
| ReleaseDigest.HashResources | crates/pip-control/src/release.rs:326-332 | the fields are hashed in order, each with its length |
| ReleaseDigest.FieldSplits | crates/pip-control/src/release.rs:545-548 | a length-prefixed field can be split off in one way only |
| ReleaseDigest.SameBytesSameResources | crates/pip-control/src/release.rs:305-334 | two valid cohorts give the same bytes if and only if they hold the same resources, whatever their order |
| Bindings.Document.FillBinding | crates/pip-contracts/src/lib.rs:319-393 | every controller-owned field gets its value, every other field keeps its own; a value that is no object is refused |
| Bindings.OnlyHeadCanMismatch | crates/pip-contracts/src/lib.rs:475-520 | after filling, the binding matches if and only if the reviewed head is filled, not asked for, or attested correctly |
| Bindings.FilledIsValid | crates/pip-contracts/src/lib.rs:406-438 | for any times given to the function, the common checks pass if and only if measured times are ordered; an unmeasured completion is never in the future |
| Bindings.FillUnordered | crates/pip-contracts/src/lib.rs:377-391 | a planner or builder result filled with unordered measured times, which no caller sends, decodes and is refused for its times alone |
| Bindings.EveryFillIsOrdered | crates/pip-executor/src/cursor.rs:302-337 | for the executor, the worker's own check and the controller alike, whatever the clocks say, a filled result carries the measured times, or the worker's own where they are possible, starts no later than it completes, and passes the common checks |
| Bindings.OnlyNativeHeadsMismatch | crates/pip-control/src/results.rs:301-325 | of all filled results only a native review can mismatch its binding, and only by the head it attests |
| Bindings.DecodedExactly | crates/pip-contracts/src/lib.rs:443-455 | a decoded review names its pull request and head, a reviewer's also its reviewer, and no other result does |
| Bindings.RoundFilled | crates/pip-contracts/src/lib.rs:365-376 | the round of the frozen task goes into the field of the job's role and nowhere else |
| Bindings.OneJob | crates/pip-contracts/src/lib.rs:475-520 | bindings that accept the same result agree in everything validation compares |
| Bindings.CommonExactly | crates/pip-contracts/src/lib.rs:406-438 | the common checks pass if and only if nothing is wrong, and an error names something that is |
| Bindings.WorkerFieldsKept | crates/pip-contracts/src/lib.rs:317-393 | worker-owned fields and present evidence are untouched |
| Bindings.FillIdempotent | crates/pip-contracts/src/lib.rs:319-393 | filling twice is filling once |
| Evidence.Deduplicate | crates/pip-controller/src/scheduling.rs:415-444 | events are rewritten in place, exactly those whose payload and digest their run holds |
| Evidence.IndexRuns | crates/pip-controller/src/scheduling.rs:419-423 | the run index by event, the last run winning |
| Evidence.DeduplicationIsLossless | crates/pip-controller/src/scheduling.rs:407-444 | with unique run ids, as the primary key of the runs table guarantees, following the references restores every event |
| Evidence.BundleRestores | crates/pip-controller/src/scheduling.rs:407-444 | with unique run ids the whole event list is restored |
| PublicationText.ProseEscapesAtOnce | crates/pip-control/src/publication_text.rs:3-16 | prose collapses white space and then escapes every character at once |
| PublicationText.ChainIsSimultaneous | crates/pip-control/src/publication_text.rs:8-15 | a chain whose later rules touch no earlier text is one simultaneous substitution |
| PublicationText.ProseSafeAndInvertible | crates/pip-control/src/publication_text.rs:3-16 | the output is safe, and a decoder recovers the white-space-collapsed input |
| PublicationText.SafeHasNoMarkup | crates/pip-control/src/publication_text.rs:3-16 | a safe text has no raw angle bracket, mention or line break anywhere |
| PublicationText.CollapseKeepsWords | crates/pip-control/src/publication_text.rs:4-7 | collapsing keeps the words and is idempotent |
| PublicationText.CollapseKeepsLetters | crates/pip-control/src/publication_text.rs:4-7 | collapsing drops white space only: every other character stays, in order |
| PublicationText.SpaceExactly | crates/pip-control/src/publication_text.rs:4-7 | white space is exactly the twenty-five code points of the Unicode property |
| PublicationText.JoinSpaces | crates/pip-control/src/publication_text.rs:4-7 | a collapsed text has only single blanks between words |

## Left out

- GitHub, Hermes, Cursor and systemd calls, HTTP ingress, git and the command line: their results are arbitrary inputs.
- Operator identities, deadlines, leases, idle-worker checks and payload digests of recoveries: one flag, `audited`, stands for them.
- Termination of the workflow: the loops between final review and review and between building and planning spend no round, so it is not claimed.
- The active-case limit: feedback on a waiting case does not re-check capacity, so it is no invariant; a resume that has to wait for a slot is modelled from the moment the slot is free.
- Provenance.ReauthorizedExactly: the label events, actors and leases a reauthorization is checked against are not modelled.
- Results.IngestWorkerResult: the repository, issue and workflow identity of the case is its key; the requested model of a reviewer is not compared.
- Guarded merging: no handler of the source produces MERGE_STARTED or MERGE_VERIFIED, so only their acceptance is proved.
- Reachability.ReadyStaysReachable: states room in the ledger's counters for the steps it adds, because the source refuses a command without it.
- Runs.NeverStuck: states room in the ledger's counters (32-bit budget, 64-bit revision) as a condition, because the source refuses a command without it.
- Runs.BudgetNeverExceeded: assumes that the policy maximum is never lowered along the run, because a resume or a reauthorization may accept a policy with a smaller maximum; Counterexamples.BudgetSafeExactly gives the exact condition over all runs.
- Workflow.GenerationFence: needs histories whose recorded reviews keep the generation; every run has such a history.
- Planner job versions: the dispatch adds one to the plan version without the saturation of the ledger; the overflow at the 32-bit limit is not modelled.
- Reviews.JoinReview: runs are read in history order, not in order of acceptance time; the verdict does not depend on it.
- Advisory and shadow reviews: they are dispatched as jobs but their observations are not modelled.
- DirectQueue.RunningStaysWithinLimits: a pool that ends takes its threads with it; lease expiry and malformed envelopes are not modelled.
- Batches.AcceptedBatch: a resume before the last command of a batch is not covered, because it changes the granted budget and the policy midway.
- WebhookSpool.AcknowledgedNeverLost: link, rename and remove are atomic and durable; temporary files, directory checks and I/O errors other than a missing file are not modelled.
- FinalGate.ValidateLedgerJoin: the published build is an input, and finding blockers are added in no particular order.
- FinalGate.ValidatePublishedReviews: submission times are ranks, and the stamped role of a body is an input; unresolved threads and pull-request checks are not modelled.
- Install.Host.InstallRelease: verification of the cohort is one step, the ledger snapshot is its logical content, and temporary files and new parent directories are not part of the host state.
- ReleaseDigest.SameBytesSameResources: speaks of the hashed bytes; SHA-256, signatures and base64 are not modelled.
- Bindings.Document.FillBinding: the worker's own report fields are opaque, and their validation is not modelled.
- evaluate_exact_head, evaluate_intake, comment rendering, worktrees and review snapshots: flat checks, text and file plumbing that would only add easy members.
