/** No reachable case is stuck: every active state has outstanding work, and every outcome its
    handler can report is accepted by the ledger. */
module Liveness {
  import opened Prelude
  import opened StateMachine
  import opened Ledger
  import opened Workflow
  import C = Contracts
  import R = Reviews
  import opened Readiness
  import LedgerStore

  /** A state the controller itself must move on. */
  predicate Active(state: CaseState) { !state.Terminal() && !state.Parked() && !state.ShadowReady? }

  /** Undelivered effects: each event supersedes the effects before it, but a recorded review
      keeps the review jobs of its cohort. */
  function Outstanding(history: seq<Record>): set<Effect> {
    if history == [] then {}
    else if Last(history).Is(ReviewRecorded) then Outstanding(history[..|history| - 1])
    else set e | e in Last(history).effects
  }

  /** Nothing is half done: a builder dispatch is committed only together with its result. */
  predicate Settled(history: seq<Record>) { history != [] && !Last(history).Is(BuilderDispatched) }

  /** The review jobs of a reviewing case stay outstanding while reviews are recorded. */
  predicate ReviewersDispatched(l: Ledger) {
    l.row.state.Reviewing? ==> Outstanding(l.history) == {DispatchReviewers}
  }

  lemma ReviewersStep(env: Environment, l: Ledger, c: Command, l': Ledger, r: Record)
    requires Appends(env, l, c, l', r) && ReviewersDispatched(l)
    ensures ReviewersDispatched(l')
  {
  }

  // ---- what a handler can report ----

  datatype Outcome =
    | PlannerAnswered(plan: C.PlannerOutcome)
    | PlanPublished(published: C.PlannerOutcome)
    | BuilderAnswered(build: C.BuilderOutcome)
    | DraftPublished(pr: nat, head: Sha)
    | CiObserved(accepted: bool)
    | ReviewAnswered(review: C.Review)
    | LanesPublished
    | PreflightObserved(clean: bool)
    | FinalAnswered(final: C.FinalOutcome)
    | MergeBegun
    | MergeExecuted

  /** The outcomes of the handler of one outstanding effect. */
  ghost predicate Handles(env: Environment, l: Ledger, effect: Effect, o: Outcome) {
    match effect
    case DispatchPlanner => o.PlannerAnswered?
    case PublishPlan => o.PlanPublished?
    case DispatchBuilder => o.BuilderAnswered?
    case PublishDraftPullRequest => o.DraftPublished? && (l.row.pr.Some? ==> l.row.pr.value == o.pr)
    case ObserveCi => o.CiObserved?
    case DispatchReviewers => o.ReviewAnswered? && Pending(env, l, o.review)
    case PublishReviews => o.LanesPublished?
    case ObserveFinalPreflight => o.PreflightObserved?
    case DispatchFinalReviewer => o.FinalAnswered?
    case BeginMerge => o.MergeBegun?
    case ExecuteMerge => o.MergeExecuted?
    case _ => false
  }

  /** A required reviewer answers for the current generation and has not answered yet. */
  ghost predicate Pending(env: Environment, l: Ledger, review: C.Review) {
    l.row.policyRevision in env.workflows && Keyed(review, l.row) &&
    env.workflows[l.row.policyRevision].Requires(review.reviewer, review.role) &&
    review.reviewer !in R.Ids(CohortReviews(l.history))
  }

  function PlannerEvent(outcome: C.PlannerOutcome): Event {
    match outcome
    case Proceed => Event.Proceed
    case AlreadyFixed => Event.AlreadyFixed
    case NotReproducible => Event.NotReproducible
    case Duplicate => Event.Duplicate
    case RootCauseDifferentScope => Event.RootCauseDifferentScope
    case CrossRepoDependency => Event.CrossRepoDependency
    case WaitingForIssueCreator => Event.WaitingForIssueCreator
    case NeedsHumanScopeDecision => Event.NeedsHumanScopeDecision
    case Abandon => Event.Abandon
    case Blocked => Event.Blocked
    case BlockedUnexpectedModel => Event.BlockedUnexpectedModel
  }

  function BuilderEvent(outcome: C.BuilderOutcome): Event {
    match outcome
    case ReviewReady => BuildRecorded
    case ReturnToPlanning => Event.ReturnToPlanning
    case Blocked => Event.Blocked
    case Abandon => Event.Abandon
    case BlockedUnexpectedModel => Event.BlockedUnexpectedModel
  }

  function FinalEvent(outcome: C.FinalOutcome): Event {
    match outcome
    case Ready => Event.Ready
    case ReturnToBuild => Event.ReturnToBuild
    case ReturnToReview => Event.ReturnToReview
    case ReturnToPlanning => Event.ReturnToPlanning
    case WaitForIssueCreator => Event.WaitForIssueCreator
    case Blocked => Event.Blocked
    case Abandon => Event.Abandon
    case BlockedUnexpectedModel => Event.BlockedUnexpectedModel
  }

  /** The event of an outcome; a review goes through the join. */
  function EventOf(env: Environment, l: Ledger, o: Outcome): Option<Event>
    requires l.row.policyRevision in env.workflows
  {
    match o
    case PlannerAnswered(plan) =>
      Some(if plan.BlockedUnexpectedModel? then Event.BlockedUnexpectedModel else PlanRecorded)
    case PlanPublished(plan) => Some(PlannerEvent(plan))
    case BuilderAnswered(build) => Some(BuilderEvent(build))
    case DraftPublished(_, _) => Some(Event.ReviewReady)
    case CiObserved(accepted) => Some(if accepted then CiAccepted else CiFailed)
    case ReviewAnswered(review) =>
      var joined := ReviewEvent(env, l, review);
      if joined.Ok? then Some(joined.value) else None
    case LanesPublished => Some(ReviewsPublished)
    case PreflightObserved(clean) => Some(if clean then FinalPreflightAccepted else Event.ReturnToBuild)
    case FinalAnswered(final) => Some(FinalEvent(final))
    case MergeBegun => Some(MergeStarted)
    case MergeExecuted => Some(MergeVerified)
  }

  // ---- a handler's command is accepted ----

  /** The command speaks about the current row and carries the bindings its event needs. */
  predicate Fits(l: Ledger, c: Command) {
    Matches(l.row, c) && c.policyRevision == l.row.policyRevision && c.payload.isObject &&
    !Recovery(c.event) && !c.event.HumanResumed? &&
    (c.acceptedPlan == Some(NextVersion(c.plan)) || (c.acceptedPlan.None? && !c.event.Proceed?)) &&
    (if c.event.ReviewReady? then c.nextHead.Some? && c.nextPr.Some? && (c.pr.Some? ==> c.pr == c.nextPr)
     else c.nextHead.None? && c.nextPr.None?)
  }

  /** The counters of the ledger have room for one more event. */
  predicate Room(env: Environment, l: Ledger)
    requires l.row.policyRevision in env.policies
  {
    env.policies[l.row.policyRevision].maxRounds + Granted(l.history) <= U32_MAX && l.row.revision + 1 <= U64_MAX
  }

  lemma PrepareAccepts(env: Environment, l: Ledger, c: Command, effective: CasePolicy)
    requires Fits(l, c) && effective.revision == l.row.policyRevision && effective.maxRounds <= U32_MAX
    requires l.row.revision + 1 <= U64_MAX
    requires Transition(l.row.state, c.event, Context(l.row.round, effective.maxRounds, effective.mergeMode, None)).Ok?
    ensures
      var prepared := Prepare(effective, c);
      prepared.Ok? && prepared.value.event == c.event && prepared.value.revision == l.row.revision
  {
    hide Transition, Emits;
  }

  lemma CommandAccepted(env: Environment, l: Ledger, c: Command)
    requires env.Valid() && l.row.policyRevision in env.policies && Room(env, l)
    requires Fits(l, c) && l.row.pr.Some? == l.row.head.Some?
    requires Transition(l.row.state, c.event, ContextOf(env, l, c)).Ok?
    ensures Apply(env.policies, l, env.policies[l.row.policyRevision], c).Ok?
  {
    hide Transition, Prepare, Granted;
    var policy := env.policies[l.row.policyRevision];
    var effective := policy.(maxRounds := policy.maxRounds + Granted(l.history));
    PrepareAccepts(env, l, c, effective);
  }

  // ---- every outcome is expected where its effect is outstanding ----

  lemma PlanningMoves(o: Outcome, ctx: Context, env: Environment, l: Ledger)
    requires ctx.maxRounds > 0 && l.row.policyRevision in env.workflows && (o.PlannerAnswered? || o.PlanPublished?)
    ensures EventOf(env, l, o).Some? && Transition(Planning, EventOf(env, l, o).value, ctx).Ok?
  {
  }

  lemma BuildMoves(state: CaseState, o: Outcome, ctx: Context, env: Environment, l: Ledger)
    requires ctx.maxRounds > 0 && l.row.policyRevision in env.workflows && (state.Building? || state.Remediating?)
    requires o.BuilderAnswered? || o.DraftPublished?
    ensures EventOf(env, l, o).Some? && Transition(state, EventOf(env, l, o).value, ctx).Ok?
  {
  }

  lemma FinalMoves(o: Outcome, ctx: Context, env: Environment, l: Ledger)
    requires ctx.maxRounds > 0 && l.row.policyRevision in env.workflows
    requires o.LanesPublished? || o.PreflightObserved? || o.FinalAnswered?
    ensures EventOf(env, l, o).Some? && Transition(FinalReview, EventOf(env, l, o).value, ctx).Ok?
  {
  }

  /** A pending review always becomes an event, and the reviewing case accepts it. */
  lemma ReviewMoves(o: Outcome, ctx: Context, env: Environment, l: Ledger)
    requires ctx.maxRounds > 0 && l.row.state.Reviewing? && Collecting(env, l) && o.ReviewAnswered? &&
             Pending(env, l, o.review)
    ensures EventOf(env, l, o).Some? && Transition(Reviewing, EventOf(env, l, o).value, ctx).Ok?
  {
    hide CohortRuns, Transition;
    ReviewVerdict(env, l, o.review);
    ReviewingMoves(EventOf(env, l, o).value, ctx);
  }

  lemma ReviewingMoves(event: Event, ctx: Context)
    requires ctx.maxRounds > 0
    requires event.ReviewRecorded? || event.ReviewsApproved? || event.RequestChanges? || event.Blocked? ||
             event.BlockedUnexpectedModel?
    ensures Transition(Reviewing, event, ctx).Ok?
  {
  }

  lemma ReviewVerdict(env: Environment, l: Ledger, review: C.Review)
    requires l.row.state.Reviewing? && Collecting(env, l) && Pending(env, l, review)
    ensures
      var e := ReviewEvent(env, l, review);
      e.Ok? && (e.value.ReviewRecorded? || e.value.ReviewsApproved? || e.value.RequestChanges? ||
                e.value.Blocked? || e.value.BlockedUnexpectedModel?)
  {
    hide CohortRuns;
    var w := env.workflows[l.row.policyRevision];
    if R.Decided(review) {
      MatchingAll(CohortRuns(l.history), review, l.row);
      var cohort := CohortReviews(l.history) + [review];
      assert R.Seated(w, cohort);
      R.SeatedIds(w, cohort);
    }
  }

  /** Some required reviewer of a reviewing case has not answered. */
  lemma SomeReviewPending(env: Environment, l: Ledger)
    requires l.row.state.Reviewing? && Collecting(env, l) && l.row.policyRevision in env.workflows
    requires l.row.pr.Some? && l.row.head.Some?
    ensures exists review :: Pending(env, l, review)
  {
    var w := env.workflows[l.row.policyRevision];
    var id :| id in w.RequiredIds() && id !in R.Ids(CohortReviews(l.history));
    var seat :| seat in w.reviewers && seat.mode == C.Required && seat.id == id;
    assert R.Seat(seat.id, seat.role, C.Required) == seat;
    var review := C.Review(seat.id, seat.role, C.ReviewOutcome.Approve, l.row.plan, ReviewRound(l.row.round),
                           l.row.pr.value, l.row.head.value, [], []);
    assert Pending(env, l, review);
  }

  // ---- the obligation of a state ----

  /** The last record carries the effects of its own decision. */
  predicate Emitted(env: Environment, l: Ledger) {
    Projected(l) && l.row.policyRevision in env.policies &&
    var last := Last(l.history);
    (if last.kind.Applied? then last.effects == Emits(last.kind.event, l.row.state)
     else l.row.state.Planning? && last.effects == [DispatchPlanner]) &&
    (last.Is(ReviewRecorded) ==> l.row.state.Reviewing?) &&
    (l.row.state.FinalReview? ==>
       last.Is(ReviewsApproved) || last.Is(ReviewsPublished) || last.Is(FinalPreflightAccepted)) &&
    (l.row.state.ReadyToMerge? || l.row.state.Merging? ==> env.policies[l.row.policyRevision].mergeMode.Guarded?)
  }

  lemma EmittedStep(env: Environment, l: Ledger, c: Command, l': Ledger, r: Record)
    requires Appends(env, l, c, l', r) && Emitted(env, l)
    ensures Emitted(env, l')
  {
    hide Emits;
    assert Last(l'.history) == r;
  }

  ghost predicate Obliged(env: Environment, l: Ledger) {
    env.Valid() && Emitted(env, l) && Collecting(env, l) && ReviewersDispatched(l) && Settled(l.history) &&
    Active(l.row.state) && l.row.pr.Some? == l.row.head.Some? && (l.row.state.Reviewing? ==> l.row.head.Some?)
  }

  /** The work that can be outstanding in an active state. */
  predicate Due(state: CaseState, effect: Effect) {
    match state
    case Planning => effect.DispatchPlanner? || effect.PublishPlan?
    case ReadyToBuild => effect.DispatchBuilder?
    case Building => effect.PublishDraftPullRequest?
    case WaitingCi => effect.ObserveCi?
    case Reviewing => effect.DispatchReviewers?
    case Remediating => effect.DispatchBuilder? || effect.PublishDraftPullRequest? || effect.PublishReviews?
    case FinalReview => effect.PublishReviews? || effect.ObserveFinalPreflight? || effect.DispatchFinalReviewer?
    case ReadyToMerge => effect.BeginMerge?
    case Merging => effect.ExecuteMerge?
    case _ => false
  }

  lemma OutstandingWork(env: Environment, l: Ledger)
    requires Obliged(env, l)
    ensures Outstanding(l.history) != {} && forall effect :: effect in Outstanding(l.history) ==>
              Due(l.row.state, effect)
  {
    hide Collecting, CohortRuns;
    if !l.row.state.Reviewing? {
      assert Last(l.history).effects[0] in Outstanding(l.history);
    }
  }

  lemma OutcomeMoves(env: Environment, l: Ledger, effect: Effect, o: Outcome, ctx: Context)
    requires Obliged(env, l) && Due(l.row.state, effect) && Handles(env, l, effect, o)
    requires ctx.maxRounds > 0 && ctx.mergeMode == env.policies[l.row.policyRevision].mergeMode
    ensures EventOf(env, l, o).Some?
    ensures
      var state := if l.row.state.ReadyToBuild? then Building else l.row.state;
      Transition(state, EventOf(env, l, o).value, ctx).Ok?
  {
    hide Transition, Collecting, CohortRuns, Pending, Entered, ReviewEvent;
    match l.row.state {
      case Planning => PlanningMoves(o, ctx, env, l);
      case ReadyToBuild => BuildMoves(Building, o, ctx, env, l);
      case Building => BuildMoves(Building, o, ctx, env, l);
      case WaitingCi => CiMoves(o, ctx, env, l);
      case Reviewing => ReviewMoves(o, ctx, env, l);
      case Remediating =>
        if effect.PublishReviews? { OtherMoves(ctx); }
        else { BuildMoves(Remediating, o, ctx, env, l); }
      case FinalReview => FinalMoves(o, ctx, env, l);
      case ReadyToMerge => OtherMoves(ctx);
      case Merging => OtherMoves(ctx);
      case _ =>
    }
  }

  lemma OtherMoves(ctx: Context)
    requires ctx.maxRounds > 0
    ensures Transition(Remediating, ReviewsPublished, ctx).Ok?
    ensures ctx.mergeMode.Guarded? ==>
              Transition(ReadyToMerge, MergeStarted, ctx).Ok? && Transition(Merging, MergeVerified, ctx).Ok?
  {
    hide Transition;
    TransitionExact(Remediating, ReviewsPublished, ctx, Remediating);
    TransitionExact(ReadyToMerge, MergeStarted, ctx, Merging);
    TransitionExact(Merging, MergeVerified, ctx, Completed);
  }

  lemma CiMoves(o: Outcome, ctx: Context, env: Environment, l: Ledger)
    requires ctx.maxRounds > 0 && l.row.policyRevision in env.workflows && o.CiObserved?
    ensures EventOf(env, l, o).Some? && Transition(WaitingCi, EventOf(env, l, o).value, ctx).Ok?
  {
  }

  // ---- the commands of a handler ----

  /** What a handler adds to the projection of the row: identities, payload and the recorded run. */
  datatype Delivery = Delivery(key: CaseKey, dispatchId: EventId, resultId: EventId, payload: Payload,
                               run: Option<C.WorkerResult>)

  function CommandOn(
    row: Case, event: Event, o: Outcome, id: EventId, d: Delivery, run: Option<C.WorkerResult>): Command {
    Command(d.key, id, row.state, row.revision, row.policyRevision, row.round, row.plan, row.pr, row.head, event,
            if event.Proceed? then Some(NextVersion(row.plan)) else None,
            if o.DraftPublished? then Some(o.pr) else None, if o.DraftPublished? then Some(o.head) else None,
            d.payload, run)
  }

  /** A builder that answers a case still waiting to build is dispatched and recorded in one batch. */
  function HandlerCommands(l: Ledger, event: Event, o: Outcome, d: Delivery): seq<Command> {
    if o.BuilderAnswered? && l.row.state.ReadyToBuild? then
      [CommandOn(l.row, BuilderDispatched, o, d.dispatchId, d, None),
       CommandOn(l.row.(state := Building, revision := l.row.revision + 1), event, o, d.resultId, d, d.run)]
    else [CommandOn(l.row, event, o, d.resultId, d, d.run)]
  }

  /** Handlers produce neither recoveries nor resumes, and bind a head only by publishing a draft. */
  lemma OutcomeFits(env: Environment, l: Ledger, effect: Effect, o: Outcome, d: Delivery)
    requires Obliged(env, l) && Due(l.row.state, effect) && Handles(env, l, effect, o)
    requires EventOf(env, l, o).Some? && d.payload.isObject
    ensures
      var e := EventOf(env, l, o).value;
      Fits(l, CommandOn(l.row, e, o, d.resultId, d, d.run)) && !e.BuilderDispatched?
  {
    hide Collecting, CohortRuns, Transition, EventOf, Emitted, Emits, Pending, Recovery;
    OutcomeOrdinary(env, l, effect, o);
  }

  lemma OutcomeOrdinary(env: Environment, l: Ledger, effect: Effect, o: Outcome)
    requires Obliged(env, l) && Due(l.row.state, effect) && Handles(env, l, effect, o) && EventOf(env, l, o).Some?
    ensures
      var e := EventOf(env, l, o).value;
      !Recovery(e) && !e.HumanResumed? && !e.BuilderDispatched? && (e.ReviewReady? <==> o.DraftPublished?) &&
      (o.ReviewAnswered? ==> !e.Proceed?)
  {
    hide Collecting, CohortRuns, Transition, ReviewEvent, Emitted, Emits, Pending, ReviewersDispatched;
    if o.ReviewAnswered? {
      ReviewVerdict(env, l, o.review);
    }
  }

  /** Dispatching the builder moves only the state and the revision. */
  lemma DispatchLands(env: Environment, l: Ledger, c: Command, l': Ledger)
    requires env.Valid() && Projected(l) && l.row.policyRevision in env.policies && c.event.BuilderDispatched?
    requires c.acceptedPlan.None?
    requires Apply(env.policies, l, env.policies[l.row.policyRevision], c) == Ok(l')
    ensures l'.row == l.row.(state := Building, revision := l.row.revision + 1)
    ensures Granted(l'.history) == Granted(l.history)
  {
    hide Apply, Transition, Entered, Emits;
    StepAppends(env, l, Submit(c, None), l');
    assert l'.history[..|l'.history| - 1] == l.history;
    DispatchTarget(Last(l'.history).next, l.row.state, ContextOf(env, l, c));
  }

  lemma DispatchTarget(next: CaseState, state: CaseState, ctx: Context)
    requires Entered(next, state, BuilderDispatched, ctx)
    ensures next.Building?
  {
  }

  lemma BuilderAccepted(env: Environment, l: Ledger, event: Event, o: Outcome, d: Delivery)
    requires env.Valid() && Projected(l) && l.row.policyRevision in env.policies && l.row.pr.Some? == l.row.head.Some?
    requires l.row.state.ReadyToBuild? && o.BuilderAnswered? && d.payload.isObject
    requires Room(env, l) && l.row.revision + 2 <= U64_MAX
    requires Fits(l, CommandOn(l.row, event, o, d.resultId, d, d.run))
    requires Transition(Building, event, ContextOf(env, l, CommandOn(l.row, event, o, d.resultId, d, d.run))).Ok?
    ensures ApplySequence(env.policies, l, env.policies[l.row.policyRevision], HandlerCommands(l, event, o, d)).Ok?
  {
    hide Apply, Transition, Granted, Emits, Entered, ApplySequence;
    var cs := HandlerCommands(l, event, o, d);
    var first, policy := cs[0], env.policies[l.row.policyRevision];
    DispatchMoves(ContextOf(env, l, first));
    CommandAccepted(env, l, first);
    var l' := Apply(env.policies, l, policy, first).value;
    DispatchLands(env, l, first, l');
    CommandAccepted(env, l', cs[1]);
    SequenceOfTwo(env.policies, l, policy, first, cs[1], l');
  }

  lemma DispatchMoves(ctx: Context)
    requires ctx.maxRounds > 0
    ensures Transition(ReadyToBuild, BuilderDispatched, ctx).Ok?
  {
  }

  lemma SequenceOfTwo(policies: Policies, l: Ledger, policy: CasePolicy, a: Command, b: Command, l': Ledger)
    requires Apply(policies, l, policy, a) == Ok(l')
    ensures ApplySequence(policies, l, policy, [a, b]) == Apply(policies, l', policy, b)
  {
    hide Apply;
    assert [a, b][1..] == [b] && [b][1..] == [];
    assert ApplySequence(policies, l', policy, [b]) == Apply(policies, l', policy, b) by {
      if Apply(policies, l', policy, b).Ok? {
        assert ApplySequence(policies, Apply(policies, l', policy, b).value, policy,
                             []) == Ok(Apply(policies, l', policy, b).value);
      }
    }
  }

  lemma SequenceOfOne(policies: Policies, l: Ledger, policy: CasePolicy, a: Command)
    ensures ApplySequence(policies, l, policy, [a]) == Apply(policies, l, policy, a)
  {
    hide Apply;
    assert [a][1..] == [];
    if Apply(policies, l, policy, a).Ok? {
      assert ApplySequence(policies, Apply(policies, l, policy, a).value, policy,
                           []) == Ok(Apply(policies, l, policy, a).value);
    }
  }

  /** Every outcome of outstanding work becomes an event, and the ledger accepts its commands as one batch. */
  lemma OutcomeAccepted(env: Environment, l: Ledger, effect: Effect, o: Outcome, d: Delivery)
    requires Obliged(env, l) && effect in Outstanding(l.history) && Handles(env, l, effect, o)
    requires Room(env, l) && l.row.revision + 2 <= U64_MAX && d.payload.isObject
    ensures EventOf(env, l, o).Some?
    ensures ApplyBatch(env.policies, l, env.policies[l.row.policyRevision],
                       HandlerCommands(l, EventOf(env, l, o).value, o, d)).Ok?
  {
    hide Apply, ApplyBatch, ApplySequence, Transition, Granted, Collecting, EventOf, Outstanding;
    OutstandingWork(env, l);
    var policy := env.policies[l.row.policyRevision];
    var ctx := Context(l.row.round, policy.maxRounds + Granted(l.history), policy.mergeMode, None);
    OutcomeMoves(env, l, effect, o, ctx);
    var event := EventOf(env, l, o).value;
    OutcomeFits(env, l, effect, o, d);
    var cs := HandlerCommands(l, event, o, d);
    if l.row.state.ReadyToBuild? {
      BuilderAccepted(env, l, event, o, d);
    } else {
      CommandAccepted(env, l, cs[0]);
      SequenceOfOne(env.policies, l, policy, cs[0]);
    }
    LedgerStore.BatchRefinesSequence(env.policies, l, policy, cs);
  }
}
