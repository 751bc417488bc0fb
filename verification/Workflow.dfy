/** Runs of one case: who may submit which command, where a parked case resumes, which jobs an
    effect dispatches, and the generation fence. Models crates/pip-control/src/park.rs, resume.rs,
    bounds.rs and results.rs, and crates/pip-controller/src/scheduling.rs. */
module Workflow {
  import opened Prelude
  import opened StateMachine
  import opened Ledger
  import C = Contracts
  import R = Reviews

  /** The accepted policies and their reviewer seats. */
  datatype Environment = Environment(policies: Policies, workflows: map<nat, R.Workflow>)
  {
    ghost predicate Valid() {
      policies.Keys == workflows.Keys &&
      forall r :: r in policies ==> policies[r].revision == r && policies[r].maxRounds >= 1 && workflows[r].Valid()
    }
  }

  /** The immutable projection of the case at one accepted revision. */
  function RowAt(history: seq<Record>, revision: nat): Case
    requires 1 <= revision <= |history|
  {
    var r := history[revision - 1];
    Case(r.next, revision, r.policyRevision, r.round, r.plan, r.pr, r.head)
  }

  // ---- parking and resuming ----

  /** `parking_event`: the last record that entered the current parked state. */
  function ParkingRecord(history: seq<Record>, state: CaseState): Option<Record> {
    if history == [] then None
    else if Last(history).Enters(state) then Some(Last(history))
    else ParkingRecord(history[..|history| - 1], state)
  }

  function ResumeTarget(park: Record): CaseState {
    if park.kind.Applied? then
      match park.kind.event
      case CiFailed | RequestChanges | ReturnToBuild => Remediating
      case ReturnToReview => WaitingCi
      case ReturnToPlanning | WaitForIssueCreator | HumanFeedbackReceived => Planning
      case _ => ResumeFrom(park.previous)
    else ResumeFrom(park.previous)
  }

  function ResumeFrom(previous: Option<CaseState>): CaseState {
    match previous
    case Some(Planning) => Planning
    case Some(WaitingHuman) => Planning
    case Some(ReadyToBuild) => ReadyToBuild
    case Some(Building) => ReadyToBuild
    case Some(Remediating) => Remediating
    case _ => WaitingCi
  }

  predicate RoundsExhausted(park: Record, state: CaseState) {
    state.Escalated? && park.kind.Applied? &&
    match park.kind.event
    case CiFailed | RequestChanges | ReturnToBuild | ReturnToReview | ReturnToPlanning => true
    case WaitForIssueCreator | HumanFeedbackReceived => true
    case _ => false
  }

  const RESUME_GRANTED_ROUNDS: nat := 3

  /** The grant and target `apply_control_commands_once` puts into a resume or a replan. */
  predicate ResumeChoice(l: Ledger, c: Command) {
    l.row.state.Parked() &&
    match ParkingRecord(l.history, l.row.state)
    case None => false
    case Some(park) =>
      c.payload.resumeTarget in {Some(Planning), Some(ResumeTarget(park))} &&
      c.payload.granted == Some(if RoundsExhausted(park, l.row.state) then RESUME_GRANTED_ROUNDS else 0)
  }

  // ---- jobs ----

  datatype Job = Job(
    revision: nat, role: C.WorkerRole, reviewer: Option<C.ReviewerId>, mode: Option<C.ReviewMode>,
    plan: nat, round: nat, pr: Option<nat>, head: Option<Sha>)

  datatype DispatchError = MissingPlan | MissingPullRequest | MissingExactHead

  function RequireReviewBinding(row: Case): Option<DispatchError> {
    if row.plan == 0 then Some(MissingPlan)
    else if row.pr.None? then Some(MissingPullRequest)
    else if row.head.None? then Some(MissingExactHead)
    else None
  }

  function JobFor(row: Case, role: C.WorkerRole, reviewer: Option<C.ReviewerId>, mode: Option<C.ReviewMode>): Job {
    var plan := if role == C.Planner then row.plan + 1 else row.plan;
    Job(row.revision, role, reviewer, mode, plan, row.round, row.pr, row.head)
  }

  function ScheduleEffect(effect: Effect, row: Case, w: R.Workflow): Result<seq<Job>, DispatchError> {
    match effect
    case DispatchPlanner => Ok([JobFor(row, C.Planner, None, None)])
    case DispatchBuilder =>
      if row.plan == 0 then Err(MissingPlan) else Ok([JobFor(row, C.Builder, None, None)])
    case DispatchReviewers =>
      if RequireReviewBinding(row).Some? then Err(RequireReviewBinding(row).value)
      else Ok(seq(|w.reviewers|, i requires 0 <= i < |w.reviewers| =>
                    JobFor(row, w.reviewers[i].role, Some(w.reviewers[i].id), Some(w.reviewers[i].mode))))
    case DispatchFinalReviewer =>
      if RequireReviewBinding(row).Some? then Err(RequireReviewBinding(row).value)
      else Ok([JobFor(row, C.FinalReviewer, None, None)])
    case _ => Ok([])
  }

  /** The job was frozen from an effect of this case at the job's own revision. */
  ghost predicate Dispatched(env: Environment, history: seq<Record>, job: Job) {
    1 <= job.revision <= |history| && history[job.revision - 1].policyRevision in env.workflows &&
    SomeEffectSchedules(history[job.revision - 1].effects, RowAt(history, job.revision),
                        env.workflows[history[job.revision - 1].policyRevision], job)
  }

  predicate SomeEffectSchedules(effects: seq<Effect>, row: Case, w: R.Workflow, job: Job) {
    exists effect :: effect in effects && Schedules(effect, row, w, job)
  }

  predicate Schedules(effect: Effect, row: Case, w: R.Workflow, job: Job) {
    ScheduleEffect(effect, row, w).Ok? && job in ScheduleEffect(effect, row, w).value
  }

  /** `current_job_generation`: a peer review advances the revision, not the generation. */
  predicate CurrentGeneration(l: Ledger, frozen: nat, reviewer: bool) {
    !(l.row.state.Escalated? || l.row.state.Blocked? || l.row.state.Abandoned? || l.row.state.Completed? ||
      l.row.state.TakenOver?) &&
    (l.row.revision == frozen ||
     (reviewer && l.row.state.Reviewing? && frozen < l.row.revision &&
      forall i :: 0 <= i < |l.history| && i + 1 > frozen ==> l.history[i].Is(ReviewRecorded)))
  }

  function ReviewRound(round: nat): nat { if round >= U32_MAX then U32_MAX else round + 1 }

  /** What a filled and validated review shares with the job it answers. */
  predicate Answers(review: C.Review, job: Job) {
    Some(review.reviewer) == job.reviewer && review.role == job.role && review.plan == job.plan &&
    review.round == ReviewRound(job.round) &&
    (job.pr.Some? ==> review.pr == job.pr.value) && (job.head.Some? ==> review.head == job.head.value)
  }

  /** `current_review_runs_for_case`: reviews since the last entry into CI observation or review. */
  function CohortRuns(history: seq<Record>): seq<C.WorkerResult> {
    if history == [] || Last(history).Enters(WaitingCi) || Last(history).Enters(Reviewing) then []
    else
      var front := CohortRuns(history[..|history| - 1]);
      if Last(history).run.Some? && Last(history).run.value.ReviewResult?
      then front + [Last(history).run.value] else front
  }

  /** `map_event` for a review result. */
  function ReviewEvent(env: Environment, l: Ledger, review: C.Review): Result<Event, R.IngestError>
    requires l.row.policyRevision in env.workflows
  {
    match review.outcome
    case Blocked => Ok(Event.Blocked)
    case BlockedUnexpectedModel => Ok(Event.BlockedUnexpectedModel)
    case _ => R.Join(Some(env.workflows[l.row.policyRevision]), R.Matching(CohortRuns(l.history), review), review)
  }

  // ---- steps ----

  datatype Action = Submit(command: Command, job: Option<Job>) | Reauthorize(policyRevision: nat)

  /** A review event comes from a current job of a required reviewer, through the join. */
  ghost predicate FromReview(env: Environment, l: Ledger, c: Command, job: Option<Job>) {
    l.row.policyRevision in env.workflows && c.acceptedPlan.None? &&
    c.run.Some? && c.run.value.ReviewResult? && job.Some? && job.value.role.Reviewer() &&
    Dispatched(env, l.history, job.value) && CurrentGeneration(l, job.value.revision, true) &&
    Answers(c.run.value.review, job.value) &&
    env.workflows[l.row.policyRevision].Requires(c.run.value.review.reviewer, c.run.value.review.role) &&
    ReviewEvent(env, l, c.run.value.review) == Ok(c.event)
  }

  /** What the callers of the ledger guarantee beyond the ledger's own checks. */
  ghost predicate Allowed(env: Environment, l: Ledger, c: Command, job: Option<Job>) {
    match c.event
    case ReviewRecorded => FromReview(env, l, c, job)
    case ReviewsApproved => FromReview(env, l, c, job)
    case RequestChanges => FromReview(env, l, c, job)
    case Ready => l.history != [] && Last(l.history).Is(FinalPreflightAccepted)
    case OperationalBoundReached =>
      !l.row.state.Terminal() && !l.row.state.Parked()
    case BlockedUnexpectedModel =>
      l.row.state.Planning? || l.row.state.Building? || l.row.state.Remediating? ||
      l.row.state.Reviewing? || l.row.state.FinalReview?
    case HumanResumed => ResumeChoice(l, c)
    case _ => true
  }

  predicate Reauthorizable(l: Ledger) {
    l.row.state.Abandoned? && l.history != [] &&
    ((Last(l.history).Is(AuthorizationRemoved) && l.row.pr.None? && l.row.head.None?) ||
     Last(l.history).Is(HumanAbandoned))
  }

  ghost predicate Step(env: Environment, l: Ledger, a: Action, l': Ledger) {
    match a
    case Submit(c, job) =>
      l.row.policyRevision in env.policies && Allowed(env, l, c, job) &&
      Apply(env.policies, l, env.policies[l.row.policyRevision], c) == Ok(l')
    case Reauthorize(policyRevision) =>
      Reauthorizable(l) && policyRevision in env.policies &&
      l' == Ledger(l.row.(state := Planning, revision := l.row.revision + 1, policyRevision := policyRevision),
                   l.history + [Record(Reauthorized, Some(l.row.state), Planning, policyRevision, l.row.round,
                                       l.row.plan,
                                       l.row.pr, l.row.head, [DispatchPlanner], 0, None)])
  }

  /** `create_case`: planning starts at revision 1. */
  predicate Initial(env: Environment, l: Ledger) {
    l.row.policyRevision in env.policies &&
    l == Ledger(Case(Planning, 1, l.row.policyRevision, 0, 0, None, None),
                [Record(Authorized, None, Planning, l.row.policyRevision, 0, 0, None, None, [DispatchPlanner], 0,
                        None)])
  }

  ghost predicate Run(env: Environment, ledgers: seq<Ledger>, actions: seq<Action>) {
    env.Valid() && |ledgers| == |actions| + 1 && Initial(env, ledgers[0]) &&
    forall i :: 0 <= i < |actions| ==> Step(env, ledgers[i], actions[i], ledgers[i + 1])
  }

  // ---- one accepted command, as the record it appends ----

  function ContextOf(env: Environment, l: Ledger, c: Command): Context
    requires l.row.policyRevision in env.policies
  {
    var p := env.policies[l.row.policyRevision];
    Context(l.row.round, p.maxRounds + Granted(l.history), p.mergeMode,
            if c.event.HumanResumed? then c.payload.resumeTarget else None)
  }

  /** The row is the projection of the last record. */
  predicate Projected(l: Ledger) {
    l.row.revision == |l.history| >= 1 && l.row == RowAt(l.history, l.row.revision)
  }

  /** A publication names its pull request or keeps the bound one, and never replaces it. */
  predicate Binds(bound: Option<nat>, given: Option<nat>, next: Option<nat>) {
    next.Some? && next == (if given.Some? then given else bound) && (bound.Some? ==> next == bound)
  }

  predicate NextFields(l: Ledger, c: Command, r: Record) {
    r.kind == Applied(c.event) && r.previous == Some(l.row.state) && r.run == c.run &&
    (if c.acceptedPlan.Some? then
       r.plan == c.acceptedPlan.value && r.plan == (if l.row.plan < U32_MAX then l.row.plan + 1 else U32_MAX)
     else r.plan == l.row.plan && !c.event.Proceed?) &&
    (if c.event.ReviewReady? then r.head.Some? && r.head == c.nextHead && Binds(l.row.pr, c.nextPr, r.pr)
     else r.pr == l.row.pr && r.head == l.row.head) &&
    l.row.pr.Some? == l.row.head.Some? &&
    r.round == l.row.round + (if r.next.Remediating? && !l.row.state.Remediating? &&
                              !c.event.HumanResumed? then 1 else 0) &&
    r.granted == (if c.event.HumanResumed? && c.payload.granted.Some? then c.payload.granted.value else 0)
  }

  /** Events whose store rule demands a bound head, pull request and plan. */
  predicate Recovery(e: Event) {
    (e.InfrastructureRecoveryAuthorized? || e.FollowUpRecoveryAuthorized? || e.NativeReviewRetryAuthorized? ||
     e.ReviewCoordinationRecoveryAuthorized? || e.RemediationBudgetExtended?)
  }

  predicate PolicyKept(env: Environment, l: Ledger, c: Command, r: Record) {
    if c.event.HumanResumed? || c.event.RemediationBudgetExtended? then
      c.payload.policyRevision == Some(r.policyRevision) && r.policyRevision in env.policies &&
      r.policyRevision >= l.row.policyRevision
    else r.policyRevision == l.row.policyRevision
  }

  ghost predicate Appends(env: Environment, l: Ledger, c: Command, l': Ledger, r: Record) {
    l.row.policyRevision in env.policies && l'.history == l.history + [r] && Projected(l') && NextFields(l, c, r) &&
    PolicyKept(env, l, c, r) &&
    (Recovery(c.event) ==> l.row.head.Some? && l.row.plan >= 1 && r.plan == l.row.plan) &&
    Decided(l.row.state, c.event, ContextOf(env, l, c), r)
  }

  /** The record is the decision of the state machine. */
  predicate Decided(state: CaseState, event: Event, ctx: Context, r: Record) {
    Entered(r.next, state, event, ctx) && r.effects == Emits(event, r.next)
  }

  lemma ApplyAppends(env: Environment, l: Ledger, c: Command, l': Ledger)
    requires env.Valid() && Projected(l) && l.row.policyRevision in env.policies
    requires Apply(env.policies, l, env.policies[l.row.policyRevision], c) == Ok(l')
    ensures l'.history != [] && Appends(env, l, c, l', Last(l'.history))
  {
    hide Prepare, Commit, Transition, Granted, Apply, NextFields, PolicyKept, Recovery, Entered, Emits;
    var policy := env.policies[l.row.policyRevision];
    ApplyFactors(env.policies, l, policy, c, l');
    var effective := policy.(maxRounds := policy.maxRounds + Granted(l.history));
    PreparedCommit(env, l, effective, c, Prepare(effective, c).value, l');
  }

  lemma StepAppends(env: Environment, l: Ledger, a: Action, l': Ledger)
    requires env.Valid() && Projected(l) && Step(env, l, a, l') && a.Submit?
    ensures l'.history != [] && Appends(env, l, a.command, l', Last(l'.history))
  {
    hide Apply, Allowed, Appends;
    ApplyAppends(env, l, a.command, l');
  }

  lemma PreparedCommit(
    env: Environment, l: Ledger, effective: CasePolicy, c: Command, input: TransitionInput, l': Ledger)
    requires Projected(l) && Matches(l.row, c) && c.pr.Some? == c.head.Some?
    requires Prepare(effective, c) == Ok(input) && Commit(env.policies, l, input) == Ok(l')
    requires l.row.policyRevision in env.policies
    ensures l'.history != [] && l'.history == l.history + [Last(l'.history)] && Projected(l')
    ensures NextFields(l, c, Last(l'.history)) && PolicyKept(env, l, c, Last(l'.history))
    ensures Recovery(c.event) ==> l.row.head.Some? && l.row.plan >= 1 && Last(l'.history).plan == l.row.plan
    ensures Decided(l.row.state, c.event,
                    Context(l.row.round, effective.maxRounds, effective.mergeMode,
                            if c.event.HumanResumed? then c.payload.resumeTarget else None),
                    Last(l'.history))
  {
    hide Prepare, Commit, Transition, Granted, Entered, Emits;
    CommitAppends(env, l, input, l');
    PrepareKeeps(effective, c, input);
    assert Last(l'.history) == RecordOf(l.row, input, l'.row.policyRevision);
  }

  lemma ApplyFactors(policies: Policies, l: Ledger, policy: CasePolicy, c: Command, l': Ledger)
    requires Apply(policies, l, policy, c) == Ok(l')
    ensures
      var prepared := Prepare(policy.(maxRounds := policy.maxRounds + Granted(l.history)), c);
      prepared.Ok? && Commit(policies, l, prepared.value) == Ok(l')
    ensures Matches(l.row, c) && c.pr.Some? == c.head.Some?
  {
    hide Transition, Granted, StoreRule, Prepare;
    PrepareKeeps(policy.(maxRounds := policy.maxRounds + Granted(l.history)), c,
                 Prepare(policy.(maxRounds := policy.maxRounds + Granted(l.history)), c).value);
  }

  lemma CommitAppends(env: Environment, l: Ledger, input: TransitionInput, l': Ledger)
    requires Projected(l) && Commit(env.policies, l, input) == Ok(l')
    ensures l'.history == l.history + [RecordOf(l.row, input, l'.row.policyRevision)] && Projected(l')
    ensures l.row.revision == input.revision
    ensures if input.event.HumanResumed? || input.event.RemediationBudgetExtended? then
              input.payload.policyRevision == Some(l'.row.policyRevision) &&
              l'.row.policyRevision >= l.row.policyRevision
            else l'.row.policyRevision == l.row.policyRevision
    ensures l.row.policyRevision in env.policies ==> l'.row.policyRevision in env.policies
    ensures Recovery(input.event) ==>
              l.row.head.Some? && l.row.plan >= 1 && input.plan == l.row.plan && input.head == l.row.head &&
              l.row.pr.Some? && input.pr == l.row.pr && input.run.None? && |input.effects| == 1
  {
  }

  lemma PrepareKeeps(policy: CasePolicy, c: Command, input: TransitionInput)
    requires Prepare(policy, c) == Ok(input)
    ensures input.event == c.event && input.payload == c.payload && input.run == c.run && input.revision == c.revision
    ensures if c.acceptedPlan.Some? then
              input.plan == c.acceptedPlan.value && input.plan == if c.plan < U32_MAX then c.plan + 1 else U32_MAX
            else input.plan == c.plan && !c.event.Proceed?
    ensures if c.event.ReviewReady? then
              input.head.Some? && input.head == c.nextHead && Binds(c.pr, c.nextPr, input.pr)
            else input.pr == c.pr && input.head == c.head
    ensures input.round == c.round + (if input.next.Remediating? && !c.state.Remediating? &&
                                      !c.event.HumanResumed? then 1 else 0)
    ensures var ctx := Context(c.round, policy.maxRounds, policy.mergeMode,
                               if c.event.HumanResumed? then c.payload.resumeTarget else None);
            Entered(input.next, c.state, c.event, ctx) && input.effects == Emits(c.event, input.next)
  {
    hide Transition, Entered, Emits;
  }

  // ---- the generation fence ----

  predicate SameGeneration(a: Case, b: Case) {
    a.plan == b.plan && a.pr == b.pr && a.head == b.head && a.round == b.round
  }

  /** Recording a peer review moves none of the values a job is frozen with. */
  ghost predicate Fenced(history: seq<Record>) {
    forall i :: 1 <= i < |history| && history[i].Is(ReviewRecorded) ==>
      SameGeneration(RowAt(history, i), RowAt(history, i + 1)) &&
      history[i].policyRevision == history[i - 1].policyRevision
  }

  lemma {:induction false} FenceHolds(history: seq<Record>, frozen: nat)
    requires Fenced(history) && 1 <= frozen <= |history|
    requires forall i :: 0 <= i < |history| && i + 1 > frozen ==> history[i].Is(ReviewRecorded)
    ensures SameGeneration(RowAt(history, frozen), RowAt(history, |history|))
    ensures history[frozen - 1].policyRevision == history[|history| - 1].policyRevision
    decreases |history| - frozen
  {
    if frozen < |history| {
      assert history[frozen].Is(ReviewRecorded);
      FenceHolds(history, frozen + 1);
    }
  }

  /** An accepted generation has the plan, pull request, head and round the job was frozen with. */
  lemma GenerationFence(l: Ledger, frozen: nat, reviewer: bool)
    requires Projected(l) && Fenced(l.history) && 1 <= frozen <= |l.history|
    requires CurrentGeneration(l, frozen, reviewer)
    ensures SameGeneration(RowAt(l.history, frozen), l.row)
  {
    if l.row.revision != frozen {
      FenceHolds(l.history, frozen);
    }
  }
}
