/** The workflow reaches its goal: for every policy and any number of required reviewers some run ends ready. */
module Reachability {
  import opened Prelude
  import opened StateMachine
  import opened Ledger
  import opened Workflow
  import opened WorkflowSafety
  import opened Readiness
  import opened Liveness
  import opened Runs
  import C = Contracts
  import R = Reviews
  import LedgerStore

  /** A reachable case in a given state under a policy, with room in its budget counter. */
  ghost predicate Stage(env: Environment, policy: nat, l: Ledger, state: CaseState) {
    env.Valid() && Reachable(env, l) && policy in env.policies && l.row.policyRevision == policy &&
    l.row.state == state && env.policies[policy].maxRounds + Granted(l.history) <= U32_MAX
  }

  /** The same case at most n events later. */
  predicate Continues(l: Ledger, l': Ledger, n: nat) {
    l.history <= l'.history && l'.row.revision <= l.row.revision + n
  }

  /** And no round was granted in between. */
  predicate Follows(l: Ledger, l': Ledger, n: nat) {
    Continues(l, l', n) && Granted(l'.history) == Granted(l.history)
  }

  lemma Then(a: Ledger, b: Ledger, c: Ledger, m: nat, n: nat)
    requires Continues(a, b, m) && Continues(b, c, n)
    ensures Continues(a, c, m + n)
  {
    assert a.history == c.history[..|a.history|];
  }

  /** A run and one more step are a run. */
  lemma RunAppends(env: Environment, ledgers: seq<Ledger>, actions: seq<Action>, a: Action, l': Ledger)
    requires Run(env, ledgers, actions) && Step(env, ledgers[|actions|], a, l')
    ensures Run(env, ledgers + [l'], actions + [a])
  {
    hide Step, Initial;
    var more, steps := ledgers + [l'], actions + [a];
    forall i | 0 <= i < |steps| ensures Step(env, more[i], steps[i], more[i + 1]) {
      if i < |actions| {
        assert Step(env, ledgers[i], actions[i], ledgers[i + 1]);
        assert more[i] == ledgers[i] && more[i + 1] == ledgers[i + 1] && steps[i] == actions[i];
      } else {
        assert more[i] == ledgers[i] && more[i + 1] == l' && steps[i] == a;
      }
    }
    assert more[0] == ledgers[0];
  }

  lemma RunExtends(env: Environment, l: Ledger, a: Action, l': Ledger)
    requires Reachable(env, l) && Step(env, l, a, l')
    ensures Reachable(env, l')
  {
    hide Step, Initial;
    var ledgers, actions :| Run(env, ledgers, actions) && l == ledgers[|actions|];
    RunAppends(env, ledgers, actions, a, l');
    var more, steps := ledgers + [l'], actions + [a];
    assert Run(env, more, steps) && more[|steps|] == l';
  }

  /** An allowed, fitting command that the backward table lists is a step of a run. */
  lemma {:induction false} Forward(
    env: Environment, policy: nat, l: Ledger, c: Command, job: Option<Job>, next: CaseState) returns (l': Ledger)
    requires Stage(env, policy, l, l.row.state) && l.row.revision < U64_MAX
    requires Fits(l, c) && Allowed(env, l, c, job) && Entered(next, l.row.state, c.event, ContextOf(env, l, c))
    ensures Stage(env, policy, l', next) && Follows(l, l', 1) && l'.history != []
    ensures Last(l'.history).Is(c.event) && NextFields(l, c, Last(l'.history)) &&
            l'.row == RowAt(l'.history, |l'.history|)
    ensures l'.history == l.history + [Last(l'.history)]
    ensures l'.row.plan == (if c.acceptedPlan.Some? then c.acceptedPlan.value else l.row.plan)
    ensures Apply(env.policies, l, env.policies[policy], c) == Ok(l')
  {
    hide Reachable, Apply, Transition, Allowed, Granted, Fits, Entered, Chain, Collecting, Fenced, LoopGuarded,
         MergesGuarded, Emitted, ReviewersDispatched;
    ReachableInv(env, l);
    var ctx := ContextOf(env, l, c);
    TransitionExact(l.row.state, c.event, ctx, next);
    BoundTogether(l);
    CommandAccepted(env, l, c);
    l' := Apply(env.policies, l, env.policies[policy], c).value;
    RunExtends(env, l, Submit(c, job), l');
    StepAppends(env, l, Submit(c, job), l');
    var r := Last(l'.history);
    EnteredOnce(l.row.state, c.event, ctx, next, r.next);
    NotRebinding(l, c);
    BudgetStep(env, l, c, l', r);
  }

  lemma BoundTogether(l: Ledger)
    requires Dispatchable(l)
    ensures l.row.pr.Some? == l.row.head.Some?
  {
  }

  lemma NotRebinding(l: Ledger, c: Command)
    requires Fits(l, c)
    ensures !c.event.HumanResumed? && !c.event.RemediationBudgetExtended?
  {
  }

  const POSTED: Delivery := Delivery(0, 1, 2, Payload(true, None, None, None, None, true), None)

  function Plain(l: Ledger, event: Event): Command {
    CommandOn(l.row, event, LanesPublished, POSTED.resultId, POSTED, None)
  }

  /** An event without bindings of its own, from one state to another. */
  lemma {:induction false} Move(env: Environment, policy: nat, l: Ledger, event: Event, next: CaseState)
    returns (l': Ledger)
    requires Stage(env, policy, l, l.row.state) && l.row.revision < U64_MAX
    requires !Recovery(event) && !event.HumanResumed? && !event.ReviewReady?
    requires Allowed(env, l, Plain(l, event), None) &&
             Entered(next, l.row.state, event, ContextOf(env, l, Plain(l, event)))
    ensures Stage(env, policy, l', next) && Follows(l, l', 1) && l'.history != [] && Last(l'.history).Is(event)
    ensures l'.row.plan == if event.Proceed? then NextVersion(l.row.plan) else l.row.plan
    ensures !next.Remediating? || l.row.state.Remediating? ==> l'.row.round == l.row.round
  {
    hide Reachable, Allowed, Granted, Entered;
    l' := Forward(env, policy, l, Plain(l, event), None, next);
  }

  // ---- from planning to a published head ----

  lemma StartPlanning(env: Environment, policy: nat) returns (l: Ledger)
    requires env.Valid() && policy in env.policies && env.policies[policy].maxRounds <= U32_MAX
    ensures Stage(env, policy, l, Planning) && l.row == Case(Planning, 1, policy, 0, 0, None, None)
    ensures Granted(l.history) == 0
  {
    l := Ledger(Case(Planning, 1, policy, 0, 0, None, None),
                [Record(Authorized, None, Planning, policy, 0, 0, None, None, [DispatchPlanner], 0, None)]);
    var actions: seq<Action> := [];
    assert Run(env, [l], actions) && [l][|actions|] == l;
  }

  lemma LastExists(env: Environment, l: Ledger)
    requires Reachable(env, l)
    ensures l.history != [] && l.row.revision == |l.history|
  {
    hide Reachable, Chain, Collecting, Fenced, LoopGuarded, MergesGuarded, Emitted, ReviewersDispatched, Dispatchable,
         RoundsCounted;
    ReachableInv(env, l);
  }

  lemma {:induction false} AcceptPlan(env: Environment, policy: nat, l: Ledger) returns (l': Ledger)
    requires Stage(env, policy, l, Planning) && l.row.revision + 2 <= U64_MAX
    ensures Stage(env, policy, l', ReadyToBuild) && Follows(l, l', 2)
    ensures l'.row.round == l.row.round && l'.row.plan == NextVersion(l.row.plan)
  {
    hide Reachable, Granted;
    LastExists(env, l);
    var planned := l;
    if !Last(l.history).Is(PlanRecorded) {
      planned := Move(env, policy, l, PlanRecorded, Planning);
    }
    l' := Move(env, policy, planned, Proceed, ReadyToBuild);
    Then(l, planned, l', 1, 1);
  }

  lemma {:induction false} RecordBuild(env: Environment, policy: nat, l: Ledger) returns (l': Ledger)
    requires Stage(env, policy, l, ReadyToBuild) && l.row.revision + 2 <= U64_MAX
    ensures Stage(env, policy, l', Building) && Follows(l, l', 2)
    ensures l'.row.round == l.row.round && l'.row.plan == l.row.plan
  {
    hide Reachable, Granted;
    var dispatched := Move(env, policy, l, BuilderDispatched, Building);
    l' := Move(env, policy, dispatched, BuildRecorded, Building);
    Then(l, dispatched, l', 1, 1);
  }

  /** The draft of a recorded build binds its head. */
  lemma {:induction false} PublishDraft(env: Environment, policy: nat, l: Ledger) returns (l': Ledger)
    requires Stage(env, policy, l, l.row.state) && (l.row.state.Building? || l.row.state.Remediating?)
    requires l.row.revision < U64_MAX
    ensures Stage(env, policy, l', WaitingCi) && Follows(l, l', 1)
    ensures l'.row.round == l.row.round && l'.row.plan == l.row.plan
  {
    hide Reachable, Apply, Granted;
    var pr := if l.row.pr.Some? then l.row.pr.value else 1;
    var c := CommandOn(l.row, Event.ReviewReady, DraftPublished(pr, 0), POSTED.resultId, POSTED, None);
    l' := Forward(env, policy, l, c, None, WaitingCi);
  }

  /** What is still to do before a build can be published. */
  lemma {:induction false} FinishBuild(env: Environment, policy: nat, l: Ledger) returns (l': Ledger)
    requires Stage(env, policy, l, l.row.state) && (l.row.state.Building? || l.row.state.Remediating?)
    requires l.row.revision + 2 <= U64_MAX
    ensures Stage(env, policy, l', l.row.state) && Follows(l, l', 2)
    ensures l'.row.round == l.row.round && l'.row.plan == l.row.plan
  {
    hide Reachable, Granted;
    LastExists(env, l);
    var published := l;
    if l.row.state.Remediating? && Last(l.history).Is(RequestChanges) {
      published := Move(env, policy, l, ReviewsPublished, Remediating);
    }
    l' := published;
    if !Last(l.history).Is(BuildRecorded) && !Last(l.history).Is(PublicationRetryAuthorized) {
      l' := Move(env, policy, published, BuildRecorded, l.row.state);
    }
    Then(l, published, l', 1, 1);
  }

  predicate BeforeCi(state: CaseState) {
    state.Planning? || state.ReadyToBuild? || state.Building? || state.Remediating? || state.WaitingCi?
  }

  /** Every case on its way to CI gets there without spending a round. */
  lemma {:induction false} ToCi(env: Environment, policy: nat, l: Ledger) returns (l': Ledger)
    requires Stage(env, policy, l, l.row.state) && BeforeCi(l.row.state) && l.row.revision + 7 <= U64_MAX
    ensures Stage(env, policy, l', WaitingCi) && Follows(l, l', 7)
    ensures l'.row.round == l.row.round
    ensures l'.row.plan == if l.row.state.Planning? then NextVersion(l.row.plan) else l.row.plan
  {
    hide Reachable, Granted;
    if l.row.state.WaitingCi? {
      l' := l;
    } else {
      var ready := l;
      if l.row.state.Planning? {
        ready := AcceptPlan(env, policy, l);
      }
      var built := ready;
      if ready.row.state.ReadyToBuild? {
        built := RecordBuild(env, policy, ready);
      }
      Then(l, ready, built, 2, 2);
      var finished := FinishBuild(env, policy, built);
      Then(l, built, finished, 4, 2);
      l' := PublishDraft(env, policy, finished);
      Then(l, finished, l', 6, 1);
    }
  }

  /** Planning, building and publishing a first head. */
  lemma {:induction false} Publish(env: Environment, policy: nat) returns (l: Ledger)
    requires env.Valid() && policy in env.policies && env.policies[policy].maxRounds <= U32_MAX
    ensures Stage(env, policy, l, WaitingCi) && l.row.plan == 1 && l.row.round == 0 && l.row.revision <= 8
    ensures Granted(l.history) == 0
  {
    hide Reachable, Granted;
    var start := StartPlanning(env, policy);
    l := ToCi(env, policy, start);
  }

  // ---- from CI through the join ----

  /** CI acceptance starts a review with an empty cohort. */
  lemma {:induction false} StartReview(env: Environment, policy: nat, ci: Ledger) returns (l: Ledger)
    requires Stage(env, policy, ci, WaitingCi) && ci.row.revision < U64_MAX
    ensures Stage(env, policy, l, Reviewing) && Follows(ci, l, 1)
    ensures CohortReviews(l.history) == [] && l.row.plan == ci.row.plan
  {
    hide Reachable, Granted, CohortRuns;
    l := Forward(env, policy, ci, Plain(ci, CiAccepted), None, Reviewing);
    CohortAppend(ci.history, Last(l.history));
  }

  /** The reviewers who have not answered. */
  ghost function Waiting(env: Environment, policy: nat, l: Ledger): set<C.ReviewerId>
    requires policy in env.workflows
  {
    env.workflows[policy].RequiredIds() - R.Ids(CohortReviews(l.history))
  }

  lemma ApprovingReview(env: Environment, policy: nat, l: Ledger) returns (review: C.Review, event: Event)
    requires env.Valid() && l.row.state.Reviewing? && l.row.policyRevision == policy && policy in env.policies &&
             Collecting(env, l)
    requires l.row.pr.Some? && l.row.head.Some?
    ensures Pending(env, l, review) && review.outcome.Approve? && review.reviewer in Waiting(env, policy, l)
    ensures ReviewEvent(env, l, review) == Ok(event)
    ensures event.ReviewRecorded? || event.ReviewsApproved? || event.RequestChanges?
    ensures R.Unanimous(CohortReviews(l.history)) ==> !event.RequestChanges?
  {
    hide CohortRuns;
    SomeReviewPending(env, l);
    var someone :| Pending(env, l, someone);
    review := someone.(outcome := C.ReviewOutcome.Approve);
    assert Pending(env, l, review);
    ReviewVerdict(env, l, review);
    event := ReviewEvent(env, l, review).value;
    var w := env.workflows[policy];
    assert R.Seat(review.reviewer, review.role, C.Required) in w.reviewers;
    MatchingAll(CohortRuns(l.history), review, l.row);
    if R.Unanimous(CohortReviews(l.history)) {
      assert R.Unanimous(CohortReviews(l.history) + [review]);
    }
  }

  /** Where a review event leads. */
  function ReviewNext(event: Event, ctx: Context): CaseState {
    if event.ReviewRecorded? then Reviewing
    else if event.ReviewsApproved? then FinalReview
    else if ctx.Exhausted() then Escalated else Remediating
  }

  predicate Joined(state: CaseState) { state.FinalReview? || state.Remediating? || state.Escalated? }

  /** The command of one more approval, and the job it answers. */
  lemma {:induction false} ApprovalCommand(env: Environment, policy: nat, l: Ledger)
    returns (c: Command, job: Job, review: C.Review)
    requires Stage(env, policy, l, Reviewing)
    ensures review.reviewer in Waiting(env, policy, l) && review.outcome.Approve?
    ensures c.run == Some(C.ReviewResult(review)) && c.acceptedPlan.None? && Fits(l, c)
    ensures c.event.ReviewRecorded? || c.event.ReviewsApproved? || c.event.RequestChanges?
    ensures Allowed(env, l, c, Some(job))
    ensures R.Unanimous(CohortReviews(l.history)) ==> !c.event.RequestChanges?
  {
    hide Reachable, Granted, CohortRuns, Chain, LoopGuarded, MergesGuarded, Emitted, RoundsCounted, Fenced, Collecting;
    ReachableInv(env, l);
    var event;
    review, event := ApprovingReview(env, policy, l);
    job := PendingReviewPasses(env, l, review);
    c := CommandOn(l.row, event, LanesPublished, POSTED.resultId, POSTED, Some(C.ReviewResult(review)));
    FromPending(env, l, c, job, review);
    hide FromReview;
  }

  /** One more approval is recorded, or completes the join. */
  lemma {:induction false} Approve(env: Environment, policy: nat, l: Ledger) returns (l': Ledger, review: C.Review)
    requires Stage(env, policy, l, Reviewing) && l.row.revision < U64_MAX
    ensures review.reviewer in Waiting(env, policy, l) && review.outcome.Approve?
    ensures Stage(env, policy, l', l'.row.state) && Follows(l, l', 1)
    ensures if l'.row.state.Reviewing? then CohortReviews(l'.history) == CohortReviews(l.history) + [review]
            else Joined(l'.row.state)
    ensures R.Unanimous(CohortReviews(l.history)) ==> l'.row.state.Reviewing? || l'.row.state.FinalReview?
  {
    hide Reachable, Granted, CohortRuns, Fits, Allowed, Entered, Apply;
    var c, job;
    c, job, review := ApprovalCommand(env, policy, l);
    ReviewEnters(c.event, ContextOf(env, l, c));
    l' := Forward(env, policy, l, c, Some(job), ReviewNext(c.event, ContextOf(env, l, c)));
    CohortAppend(l.history, Last(l'.history));
    ReviewsOfAppend(CohortRuns(l.history), review);
  }

  lemma ReviewEnters(event: Event, ctx: Context)
    requires event.ReviewRecorded? || event.ReviewsApproved? || event.RequestChanges?
    ensures Entered(ReviewNext(event, ctx), Reviewing, event, ctx)
  {
  }

  lemma FromPending(env: Environment, l: Ledger, c: Command, job: Job, review: C.Review)
    requires env.Valid() && Pending(env, l, review) && c.run == Some(C.ReviewResult(review)) && c.acceptedPlan.None?
    requires Dispatched(env, l.history, job) && CurrentGeneration(l, job.revision, true) && Answers(review, job)
    requires ReviewEvent(env, l, review) == Ok(c.event)
    ensures FromReview(env, l, c, Some(job))
  {
    hide Dispatched, CurrentGeneration, ReviewEvent, CohortRuns;
    SeatIsReviewer(env, l.row.policyRevision, R.Seat(review.reviewer, review.role, C.Required));
  }

  /** Any number of required reviewers can complete the join, in agreement if nobody requested changes before. */
  lemma {:induction false} ApproveAll(env: Environment, policy: nat, l: Ledger) returns (l': Ledger)
    requires Stage(env, policy, l, Reviewing) && policy in env.workflows
    requires l.row.revision + |Waiting(env, policy, l)| <= U64_MAX
    ensures Stage(env, policy, l', l'.row.state) && Joined(l'.row.state) && Follows(l, l', |Waiting(env, policy, l)|)
    ensures R.Unanimous(CohortReviews(l.history)) ==> l'.row.state.FinalReview?
    decreases |Waiting(env, policy, l)|
  {
    hide Stage, CohortReviews, Granted;
    SomeoneWaits(env, policy, l);
    var next, review := Approve(env, policy, l);
    l' := next;
    if next.row.state.Reviewing? {
      assert Waiting(env, policy, next) == Waiting(env, policy, l) - {review.reviewer};
      l' := ApproveAll(env, policy, next);
      Then(l, next, l', 1, |Waiting(env, policy, next)|);
    }
  }

  lemma SomeoneWaits(env: Environment, policy: nat, l: Ledger)
    requires Stage(env, policy, l, Reviewing) && policy in env.workflows
    ensures |Waiting(env, policy, l)| > 0
  {
    hide Reachable, Granted, CohortRuns, Chain, LoopGuarded, MergesGuarded, Emitted, RoundsCounted, Fenced,
         Dispatchable;
    ReachableInv(env, l);
    var id :| id in env.workflows[policy].RequiredIds() && id !in R.Ids(CohortReviews(l.history));
    assert id in Waiting(env, policy, l);
  }

  // ---- from the join to SHADOW_READY ----

  /** The final review goes on from wherever it stands. */
  lemma {:induction false} Finish(env: Environment, policy: nat, l: Ledger) returns (l': Ledger)
    requires Stage(env, policy, l, FinalReview) && l.row.revision + 3 <= U64_MAX
    requires env.policies[policy].mergeMode.Shadow?
    ensures Stage(env, policy, l', ShadowReady) && Follows(l, l', 3)
  {
    hide Reachable, Granted;
    var accepted := Preflight(env, policy, l);
    l' := Move(env, policy, accepted, Event.Ready, ShadowReady);
    Then(l, accepted, l', 2, 1);
  }

  lemma {:induction false} Preflight(env: Environment, policy: nat, l: Ledger) returns (l': Ledger)
    requires Stage(env, policy, l, FinalReview) && l.row.revision + 2 <= U64_MAX
    ensures Stage(env, policy, l', FinalReview) && Follows(l, l', 2)
    ensures l'.history != [] && Last(l'.history).Is(FinalPreflightAccepted)
  {
    hide Reachable, Granted;
    FinalStands(env, l);
    var published := l;
    if Last(l.history).Is(ReviewsApproved) {
      published := Move(env, policy, l, ReviewsPublished, FinalReview);
    }
    l' := published;
    if !Last(published.history).Is(FinalPreflightAccepted) {
      l' := Move(env, policy, published, FinalPreflightAccepted, FinalReview);
    }
    Then(l, published, l', 1, 1);
  }

  lemma FinalStands(env: Environment, l: Ledger)
    requires Reachable(env, l) && l.row.state.FinalReview?
    ensures l.history != []
    ensures Last(l.history).Is(ReviewsApproved) || Last(l.history).Is(ReviewsPublished) ||
            Last(l.history).Is(FinalPreflightAccepted)
  {
    hide Reachable, Chain, Collecting, Fenced, LoopGuarded, MergesGuarded, ReviewersDispatched, Dispatchable,
         RoundsCounted, Emits;
    ReachableInv(env, l);
  }

  /** From CI on, every required reviewer can approve and the case become ready. */
  lemma {:induction false} CiToReady(env: Environment, policy: nat, l: Ledger) returns (l': Ledger)
    requires Stage(env, policy, l, WaitingCi) && policy in env.workflows && env.policies[policy].mergeMode.Shadow?
    requires l.row.revision + |env.workflows[policy].RequiredIds()| + 4 <= U64_MAX
    ensures Stage(env, policy, l', ShadowReady) && Follows(l, l', |env.workflows[policy].RequiredIds()| + 4)
  {
    hide Reachable, Granted, CohortRuns;
    var n := |env.workflows[policy].RequiredIds()|;
    var reviewing := StartReview(env, policy, l);
    assert Waiting(env, policy, reviewing) == env.workflows[policy].RequiredIds();
    var joined := ApproveAll(env, policy, reviewing);
    Then(l, reviewing, joined, 1, n);
    l' := Finish(env, policy, joined);
    Then(l, joined, l', n + 1, 3);
  }

  /** Every shadow policy can bring a case to SHADOW_READY, whatever the number of its required reviewers. */
  lemma {:induction false} ReadyIsReachable(env: Environment, policy: nat) returns (l: Ledger)
    requires env.Valid() && policy in env.policies && env.policies[policy].maxRounds <= U32_MAX
    requires env.policies[policy].mergeMode.Shadow? && |env.workflows[policy].RequiredIds()| + 20 <= U64_MAX
    ensures Reachable(env, l) && l.row.state.ShadowReady?
  {
    hide Reachable, Granted;
    var ci := Publish(env, policy);
    l := CiToReady(env, policy, ci);
  }

  // ---- every outcome of outstanding work continues the run ----

  /** The final reviewer is outstanding only right after an accepted preflight. */
  lemma FinalFollowsPreflight(env: Environment, l: Ledger)
    requires Obliged(env, l) && l.row.state.FinalReview? && DispatchFinalReviewer in Outstanding(l.history)
    ensures Last(l.history).Is(FinalPreflightAccepted)
  {
  }

  /** No guard of the callers stops an outcome that is not a review. */
  lemma PlainOutcomeAllowed(env: Environment, l: Ledger, effect: Effect, o: Outcome, c: Command, at: Ledger)
    requires Obliged(env, l) && effect in Outstanding(l.history) && Handles(env, l, effect, o) && !o.ReviewAnswered?
    requires EventOf(env, l, o) == Some(c.event)
    requires if o.BuilderAnswered? && l.row.state.ReadyToBuild? then at.row.state.Building? else at == l
    ensures Allowed(env, at, c, None)
  {
    hide Collecting, Emits, Emitted, ReviewEvent, FromReview, CohortReviews;
    OutstandingWork(env, l);
    if c.event.Ready? {
      FinalFollowsPreflight(env, l);
    }
  }

  lemma ReviewOutcomeAllowed(env: Environment, l: Ledger, o: Outcome, c: Command) returns (job: Option<Job>)
    requires Reachable(env, l) && env.Valid() && l.row.state.Reviewing? && o.ReviewAnswered? &&
             Pending(env, l, o.review)
    requires EventOf(env, l, o) == Some(c.event) && c.run == Some(C.ReviewResult(o.review)) && c.acceptedPlan.None?
    ensures Allowed(env, l, c, job)
  {
    hide Reachable, ReviewEvent, Dispatched, CurrentGeneration, CohortRuns;
    var found := PendingReviewPasses(env, l, o.review);
    FromPending(env, l, c, found, o.review);
    hide FromReview;
    job := Some(found);
    if !(c.event.ReviewRecorded? || c.event.ReviewsApproved? || c.event.RequestChanges?) {
      ReviewEventAllowed(env, l, o.review, c, job);
    }
  }

  lemma ReviewEventAllowed(env: Environment, l: Ledger, review: C.Review, c: Command, job: Option<Job>)
    requires l.row.state.Reviewing? && l.row.policyRevision in env.workflows &&
             ReviewEvent(env, l, review) == Ok(c.event)
    requires !(c.event.ReviewRecorded? || c.event.ReviewsApproved? || c.event.RequestChanges?)
    ensures Allowed(env, l, c, job)
  {
    hide FromReview, CohortRuns;
  }

  lemma {:induction false} OutcomeAllowed(
    env: Environment, l: Ledger, effect: Effect, o: Outcome, c: Command) returns (job: Option<Job>)
    requires Reachable(env, l) && Obliged(env, l) && effect in Outstanding(l.history) && Handles(env, l, effect, o)
    requires EventOf(env, l, o) == Some(c.event) && !(o.BuilderAnswered? && l.row.state.ReadyToBuild?)
    requires o.ReviewAnswered? ==> c.run == Some(C.ReviewResult(o.review)) && c.acceptedPlan.None?
    ensures Allowed(env, l, c, job)
  {
    hide Reachable, Collecting, Emitted, ReviewersDispatched, EventOf, Allowed, Pending, Outstanding;
    if o.ReviewAnswered? {
      OutstandingWork(env, l);
      job := ReviewOutcomeAllowed(env, l, o, c);
    } else {
      PlainOutcomeAllowed(env, l, effect, o, c, l);
      job := None;
    }
  }

  lemma {:induction false} StepsInto(env: Environment, l: Ledger, c: Command, job: Option<Job>, l': Ledger)
    requires Reachable(env, l) && l.row.policyRevision in env.policies && Allowed(env, l, c, job)
    requires Apply(env.policies, l, env.policies[l.row.policyRevision], c) == Ok(l')
    ensures Reachable(env, l')
  {
    hide Reachable, Apply, Allowed;
    RunExtends(env, l, Submit(c, job), l');
  }

  /** A builder's dispatch and its result are two steps of the run. */
  lemma {:induction false} BuilderContinues(env: Environment, l: Ledger, effect: Effect, o: Outcome, d: Delivery)
    requires Reachable(env, l) && Obliged(env, l) && l.row.state.ReadyToBuild? && o.BuilderAnswered?
    requires effect in Outstanding(l.history) && Handles(env, l, effect, o) && EventOf(env, l, o).Some?
    requires Room(env, l) && l.row.revision + 2 <= U64_MAX && d.payload.isObject
    ensures
      var r := ApplyBatch(env.policies, l, env.policies[l.row.policyRevision],
                          HandlerCommands(l, EventOf(env, l, o).value, o, d));
      r.Ok? && Reachable(env, r.value)
  {
    hide Reachable, Apply, ApplyBatch, ApplySequence, Granted, Collecting, Outstanding, Handles, EventOf, Allowed,
         ReviewersDispatched, Transition, Entered, Emits;
    var policy, event := env.policies[l.row.policyRevision], EventOf(env, l, o).value;
    var cs := HandlerCommands(l, event, o, d);
    OutcomeAccepted(env, l, effect, o, d);
    LedgerStore.BatchRefinesSequence(env.policies, l, policy, cs);
    var built := ApplyBatch(env.policies, l, policy, cs).value;
    assert !cs[0].event.RemediationBudgetExtended?;
    var l' := SplitTwo(env, l, policy, cs[0], cs[1]);
    DispatchLands(env, l, cs[0], l');
    DispatchAllowed(env, l, cs[0]);
    StepsInto(env, l, cs[0], None, l');
    PlainOutcomeAllowed(env, l, effect, o, cs[1], l');
    StepsInto(env, l', cs[1], None, built);
  }

  lemma {:induction false} SplitTwo(
    env: Environment, l: Ledger, policy: CasePolicy, a: Command, b: Command) returns (l': Ledger)
    requires ApplySequence(env.policies, l, policy, [a, b]).Ok?
    ensures Apply(env.policies, l, policy, a) == Ok(l')
    ensures Apply(env.policies, l', policy, b) == ApplySequence(env.policies, l, policy, [a, b])
  {
    hide Apply;
    assert [a, b][0] == a;
    l' := Apply(env.policies, l, policy, a).value;
    SequenceOfTwo(env.policies, l, policy, a, b, l');
  }

  lemma DispatchAllowed(env: Environment, l: Ledger, c: Command)
    requires c.event.BuilderDispatched?
    ensures Allowed(env, l, c, None)
  {
    hide FromReview, ResumeChoice;
  }

  /** Whatever the handler of an outstanding effect reports, its batch is accepted and the run goes on. */
  lemma {:induction false} RunContinues(env: Environment, l: Ledger, effect: Effect, o: Outcome, d: Delivery)
    requires Reachable(env, l) && Active(l.row.state) && Settled(l.history)
    requires l.row.policyRevision in env.policies && Room(env, l) && l.row.revision + 2 <= U64_MAX && d.payload.isObject
    requires effect in Outstanding(l.history) && Handles(env, l, effect, o)
    requires o.ReviewAnswered? ==> d.run == Some(C.ReviewResult(o.review))
    ensures l.row.policyRevision in env.workflows && EventOf(env, l, o).Some?
    ensures
      var r := ApplyBatch(env.policies, l, env.policies[l.row.policyRevision],
                          HandlerCommands(l, EventOf(env, l, o).value, o, d));
      r.Ok? && Reachable(env, r.value)
  {
    hide Reachable, Apply, ApplyBatch, ApplySequence, Granted, Collecting, Chain, Fenced, LoopGuarded, MergesGuarded,
         RoundsCounted;
    hide Outstanding, Handles, EventOf, Allowed, Emitted, ReviewersDispatched, Transition;
    ReachableInv(env, l);
    OutcomeAccepted(env, l, effect, o, d);
    var event := EventOf(env, l, o).value;
    var cs := HandlerCommands(l, event, o, d);
    OutstandingWork(env, l);
    OutcomeFits(env, l, effect, o, d);
    if o.BuilderAnswered? && l.row.state.ReadyToBuild? {
      BuilderContinues(env, l, effect, o, d);
    } else {
      var policy := env.policies[l.row.policyRevision];
      LedgerStore.BatchRefinesSequence(env.policies, l, policy, cs);
      SequenceOfOne(env.policies, l, policy, cs[0]);
      var l' := ApplyBatch(env.policies, l, policy, cs).value;
      OutcomeOrdinary(env, l, effect, o);
      var job := OutcomeAllowed(env, l, effect, o, cs[0]);
      StepsInto(env, l, cs[0], job, l');
    }
  }

  /** Every reachable, active and settled case has a longer run. */
  lemma {:induction false} RunNeverStops(env: Environment, l: Ledger) returns (l': Ledger)
    requires Reachable(env, l) && Active(l.row.state) && Settled(l.history)
    requires l.row.policyRevision in env.policies && Room(env, l) && l.row.revision + 2 <= U64_MAX
    ensures Reachable(env, l') && l.history <= l'.history && |l'.history| > |l.history|
  {
    hide Reachable, ApplyBatch, Granted, Collecting, Chain, Fenced, LoopGuarded, MergesGuarded, RoundsCounted,
         Outstanding, Handles, EventOf;
    ReachableInv(env, l);
    SomeOutcome(env, l);
    var effect, o :| effect in Outstanding(l.history) && Handles(env, l, effect, o);
    var d := if o.ReviewAnswered? then POSTED.(run := Some(C.ReviewResult(o.review))) else POSTED;
    RunContinues(env, l, effect, o, d);
    var cs := HandlerCommands(l, EventOf(env, l, o).value, o, d);
    l' := ApplyBatch(env.policies, l, env.policies[l.row.policyRevision], cs).value;
    LedgerStore.BatchGrows(env.policies, l, env.policies[l.row.policyRevision], cs);
  }

  // ---- resuming a parked case ----

  /** The resume of `apply_control_commands_once`, or its replan, under an accepted policy. */
  function ResumeCommand(l: Ledger, to: nat, replan: bool): Command
    requires l.history != []
  {
    var park := Last(l.history);
    var granted := if RoundsExhausted(park, l.row.state) then RESUME_GRANTED_ROUNDS else 0;
    Plain(l, HumanResumed).(payload := Payload(true, Some(Landing(park, replan)), Some(granted), Some(to), None, true))
  }

  function Landing(park: Record, replan: bool): CaseState { if replan then Planning else ResumeTarget(park) }

  lemma ResumeTargets(park: Record, replan: bool, state: CaseState, ctx: Context)
    requires state.Parked() && ctx.resumeTarget == Some(Landing(park, replan)) && ctx.maxRounds > 0
    ensures
      var r := Transition(state, HumanResumed, ctx);
      r.Ok? && r.value.next == Landing(park, replan)
    ensures BeforeCi(Landing(park, replan)) && !Landing(park, replan).Building?
  {
    hide Transition;
    TransitionExact(state, HumanResumed, ctx, Landing(park, replan));
  }

  lemma ResumePrepares(l: Ledger, to: nat, replan: bool, effective: CasePolicy)
    requires l.history != [] && l.row.state.Parked() && l.row.revision < U64_MAX
    requires effective.revision == l.row.policyRevision && effective.maxRounds > 0
    ensures
      var c := ResumeCommand(l, to, replan);
      var prepared := Prepare(effective, c);
      prepared.Ok? && prepared.value.event == c.event && prepared.value.revision == l.row.revision &&
      prepared.value.payload == c.payload && prepared.value.next == Landing(Last(l.history), replan)
  {
    hide Transition, Emits, ResumeTarget, Landing;
    var target := Landing(Last(l.history), replan);
    ResumeTargets(Last(l.history), replan, l.row.state,
                  Context(l.row.round, effective.maxRounds, effective.mergeMode, Some(target)));
  }

  lemma ResumeAccepted(env: Environment, l: Ledger, to: nat, replan: bool)
    requires Inv(env, l) && l.row.state.Parked() && l.row.revision < U64_MAX && Room(env, l)
    requires to in env.policies && to >= l.row.policyRevision
    ensures
      var r := Apply(env.policies, l, env.policies[l.row.policyRevision], ResumeCommand(l, to, replan));
      r.Ok? && r.value.row.policyRevision == to && r.value.row.state == Landing(Last(l.history), replan)
  {
    hide Transition, Prepare, Granted, Chain, Collecting, Fenced, LoopGuarded, MergesGuarded, Emitted,
         ReviewersDispatched, RoundsCounted, ResumeTarget, Landing, RoundsExhausted;
    var policy := env.policies[l.row.policyRevision];
    ResumePrepares(l, to, replan, policy.(maxRounds := policy.maxRounds + Granted(l.history)));
  }

  lemma ResumeAllowed(env: Environment, l: Ledger, to: nat, replan: bool)
    requires Inv(env, l) && l.row.state.Parked()
    ensures Allowed(env, l, ResumeCommand(l, to, replan), None)
  {
    hide Granted, Chain, Collecting, Fenced, LoopGuarded, MergesGuarded, Emitted, ReviewersDispatched, RoundsCounted,
         ResumeTarget, RoundsExhausted;
  }

  /** Every reachable parked case resumes to the target of its parking record, or plans again, with the rounds of its
      grant. */
  lemma {:induction false} ResumeParked(env: Environment, l: Ledger, to: nat, replan: bool) returns (l': Ledger)
    requires Reachable(env, l) && l.row.policyRevision in env.policies && Room(env, l) && l.row.state.Parked()
    requires to in env.policies && to >= l.row.policyRevision
    ensures l.history != [] && Reachable(env, l') && Continues(l, l', 1) && l'.history != []
    ensures Step(env, l, Submit(ResumeCommand(l, to, replan), None), l')
    ensures l'.row.state == if replan then Planning else ResumeTarget(Last(l.history))
    ensures BeforeCi(l'.row.state) && l'.row.policyRevision == to && l'.row.round == l.row.round
    ensures Granted(l'.history) ==
            Granted(l.history) + if RoundsExhausted(Last(l.history), l.row.state) then 3 else 0
  {
    hide Reachable, Apply, Transition, Allowed, Granted, Chain, Collecting, Fenced, LoopGuarded, MergesGuarded, Emitted,
         ReviewersDispatched, Dispatchable, ResumeTarget, Entered, Emits, RoundsExhausted;
    ReachableInv(env, l);
    var c := ResumeCommand(l, to, replan);
    ResumeAccepted(env, l, to, replan);
    ResumeAllowed(env, l, to, replan);
    l' := Apply(env.policies, l, env.policies[l.row.policyRevision], c).value;
    RunExtends(env, l, Submit(c, None), l');
    StepAppends(env, l, Submit(c, None), l');
    BudgetStep(env, l, c, l', Last(l'.history));
    ResumeTargets(Last(l.history), replan, l.row.state, ContextOf(env, l, c));
  }

  // ---- readiness is never out of reach ----

  /** From any state before CI to SHADOW_READY. */
  lemma {:induction false} Onward(env: Environment, policy: nat, l: Ledger) returns (l': Ledger)
    requires Stage(env, policy, l, l.row.state) && BeforeCi(l.row.state) && policy in env.workflows
    requires env.policies[policy].mergeMode.Shadow?
    requires l.row.revision + |env.workflows[policy].RequiredIds()| + 11 <= U64_MAX
    ensures Stage(env, policy, l', ShadowReady) && Continues(l, l', |env.workflows[policy].RequiredIds()| + 11)
  {
    hide Reachable, Granted;
    var ci := ToCi(env, policy, l);
    l' := CiToReady(env, policy, ci);
    Then(l, ci, l', 7, |env.workflows[policy].RequiredIds()| + 4);
  }

  /** A parked case is resumed under its own policy and goes on. */
  lemma {:induction false} ResumeOnward(env: Environment, policy: nat, l: Ledger) returns (l': Ledger)
    requires Stage(env, policy, l, l.row.state) && l.row.state.Parked() && policy in env.workflows
    requires env.policies[policy].mergeMode.Shadow?
    requires env.policies[policy].maxRounds + Granted(l.history) + RESUME_GRANTED_ROUNDS <= U32_MAX
    requires l.row.revision + |env.workflows[policy].RequiredIds()| + 12 <= U64_MAX
    ensures Stage(env, policy, l', ShadowReady) && Continues(l, l', |env.workflows[policy].RequiredIds()| + 12)
  {
    hide Reachable, Granted, Step;
    var resumed := ResumeParked(env, l, policy, false);
    l' := Onward(env, policy, resumed);
    Then(l, resumed, l', 1, |env.workflows[policy].RequiredIds()| + 11);
  }

  /** Whatever the open reviews say, the case gets through or around the review. */
  lemma {:induction false} ReviewOnward(env: Environment, policy: nat, l: Ledger) returns (l': Ledger)
    requires Stage(env, policy, l, Reviewing) && policy in env.workflows && env.policies[policy].mergeMode.Shadow?
    requires env.policies[policy].maxRounds + Granted(l.history) + RESUME_GRANTED_ROUNDS <= U32_MAX
    requires l.row.revision + 2 * |env.workflows[policy].RequiredIds()| + 12 <= U64_MAX
    ensures Stage(env, policy, l', ShadowReady) && Continues(l, l', 2 * |env.workflows[policy].RequiredIds()| + 12)
  {
    hide Reachable, Granted, CohortReviews;
    var n := |env.workflows[policy].RequiredIds()|;
    WaitingFew(env, policy, l);
    var joined := ApproveAll(env, policy, l);
    if joined.row.state.FinalReview? {
      l' := Finish(env, policy, joined);
      Then(l, joined, l', n, n + 12);
    } else if joined.row.state.Escalated? {
      l' := ResumeOnward(env, policy, joined);
      Then(l, joined, l', n, n + 12);
    } else {
      l' := Onward(env, policy, joined);
      Then(l, joined, l', n, n + 12);
    }
  }

  lemma WaitingFew(env: Environment, policy: nat, l: Ledger)
    requires policy in env.workflows
    ensures |Waiting(env, policy, l)| <= |env.workflows[policy].RequiredIds()|
  {
    var all, waiting := env.workflows[policy].RequiredIds(), Waiting(env, policy, l);
    assert all == waiting + (all - waiting);
  }

  lemma ShadowHasNoMerge(env: Environment, l: Ledger)
    requires Reachable(env, l) && l.row.policyRevision in env.policies
    requires env.policies[l.row.policyRevision].mergeMode.Shadow?
    ensures env.Valid() && l.row.policyRevision in env.workflows
    ensures !l.row.state.ReadyToMerge? && !l.row.state.Merging?
  {
    hide Reachable, Chain, Collecting, Fenced, LoopGuarded, MergesGuarded, ReviewersDispatched, Dispatchable,
         RoundsCounted, Emits;
    ReachableInv(env, l);
  }

  /** From every reachable case under a shadow policy that is not terminal, the case can still become ready. */
  lemma {:induction false} ReadyStaysReachable(env: Environment, l: Ledger) returns (l': Ledger)
    requires Reachable(env, l) && l.row.policyRevision in env.policies && !l.row.state.Terminal()
    requires env.policies[l.row.policyRevision].mergeMode.Shadow? && l.row.policyRevision in env.workflows
    requires env.policies[l.row.policyRevision].maxRounds + Granted(l.history) + RESUME_GRANTED_ROUNDS <= U32_MAX
    requires l.row.revision + 2 * |env.workflows[l.row.policyRevision].RequiredIds()| + 12 <= U64_MAX
    ensures Reachable(env, l') && l'.row.state.ShadowReady? && l.history <= l'.history
  {
    hide Reachable, Granted;
    ShadowHasNoMerge(env, l);
    var policy := l.row.policyRevision;
    if l.row.state.ShadowReady? {
      l' := l;
    } else if l.row.state.FinalReview? {
      l' := Finish(env, policy, l);
    } else if l.row.state.Reviewing? {
      l' := ReviewOnward(env, policy, l);
    } else if l.row.state.Parked() {
      l' := ResumeOnward(env, policy, l);
    } else {
      l' := Onward(env, policy, l);
    }
  }
}
