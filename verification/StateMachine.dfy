/** The case state machine of crates/pip-core/src/state_machine.rs. */
module StateMachine {
  import opened Prelude

  datatype CaseState =
    | Planning | WaitingHuman | ReadyToBuild | Building | WaitingCi | Reviewing
    | Remediating | FinalReview | ShadowReady | ReadyToMerge | Merging
    | Completed | Blocked | Escalated | Abandoned | TakenOver
  {
    predicate Terminal() { Completed? || Abandoned? || TakenOver? }

    /** A parked case waits for a trusted human. */
    predicate Parked() { Escalated? || Blocked? || WaitingHuman? }
  }

  datatype Event =
    | PlanRecorded | Proceed | WaitingForIssueCreator | NeedsHumanScopeDecision
    | RootCauseDifferentScope | CrossRepoDependency | AlreadyFixed | NotReproducible
    | Duplicate | Abandon | HumanNarrowedScope | HumanApprovedStaleBase | HumanClarified
    | HumanFeedbackReceived | BuilderDispatched | NativeReviewRetryAuthorized
    | ReviewCoordinationRecoveryAuthorized | InfrastructureRecoveryAuthorized
    | RemediationBudgetExtended | FollowUpRecoveryAuthorized | PublicationRetryAuthorized
    | BuildRecorded | ReviewReady | ReturnToPlanning | Blocked | HumanReaffirmedScope
    | CiAccepted | CiFailed | ReviewRecorded | ReviewsApproved | ReviewsPublished
    | FinalPreflightAccepted | RequestChanges | Ready | ReturnToBuild | ReturnToReview
    | WaitForIssueCreator | HumanMerged | PrerequisiteResolved | BlockedUnexpectedModel
    | MergeStarted | MergeVerified | HumanTookOver | AuthorizationRemoved
    | OperationalBoundReached | HumanResumed | HumanAbandoned

  datatype MergeMode = Shadow | Guarded

  datatype Effect =
    | DispatchPlanner | PublishPlan | DispatchBuilder | PublishDraftPullRequest | ObserveCi
    | DispatchReviewers | PublishReviews | ObserveFinalPreflight | DispatchFinalReviewer
    | HoldForHuman | NotifyShadowReady | BeginMerge | ExecuteMerge | RecordCompletion
    | RecordAbandonment | RecordBlock | RecordTakeover | Escalate

  datatype Context = Context(round: nat, maxRounds: nat, mergeMode: MergeMode, resumeTarget: Option<CaseState>)
  {
    /** The remediation loop guard: no round is left to spend. */
    predicate Exhausted() { round >= maxRounds }
  }

  datatype Decision = Decision(next: CaseState, effects: seq<Effect>)

  datatype TransitionError =
    | InvalidLoopBound
    | TerminalState(state: CaseState)
    | InvalidTransition(from: CaseState, event: Event)

  /** The effects that go with an accepted event and the state it enters. */
  function Emits(event: Event, next: CaseState): seq<Effect> {
    match next
    case Planning => if event.PlanRecorded? then [PublishPlan] else [DispatchPlanner]
    case WaitingHuman => [HoldForHuman]
    case ReadyToBuild => [DispatchBuilder]
    case Building => if event.BuilderDispatched? then [] else [PublishDraftPullRequest]
    case WaitingCi => [ObserveCi]
    case Reviewing => if event.ReviewRecorded? then [] else [DispatchReviewers]
    case Remediating =>
      if event.BuildRecorded? then [PublishDraftPullRequest]
      else if event.RequestChanges? then [PublishReviews]
      else [DispatchBuilder]
    case FinalReview =>
      if event.ReviewsApproved? then [PublishReviews]
      else if event.ReviewsPublished? then [ObserveFinalPreflight]
      else [DispatchFinalReviewer]
    case ShadowReady => [NotifyShadowReady]
    case ReadyToMerge => [BeginMerge]
    case Merging => [ExecuteMerge]
    case Completed => [RecordCompletion]
    case Blocked => [RecordBlock]
    case Escalated => if event.RequestChanges? then [PublishReviews, Effect.Escalate] else [Effect.Escalate]
    case Abandoned => [RecordAbandonment]
    case TakenOver => [RecordTakeover]
  }

  /** The loop guard parks exactly these events. */
  predicate Looping(state: CaseState, event: Event) {
    match event
    case CiFailed => state.WaitingCi?
    case RequestChanges => state.Reviewing?
    case ReturnToBuild | ReturnToReview | ReturnToPlanning | WaitForIssueCreator => state.FinalReview?
    case HumanFeedbackReceived =>
      state.Planning? || state.WaitingHuman? || state.ReadyToBuild? || state.WaitingCi? || state.Reviewing? ||
      state.Remediating? || state.FinalReview? || state.ShadowReady?
    case _ => false
  }

  /** The table read backwards: how each state can be entered. */
  predicate Entered(next: CaseState, state: CaseState, event: Event, ctx: Context) {
    var resumed := event.HumanResumed? && state.Parked() && ctx.resumeTarget == Some(next);
    match next
    case Planning =>
      resumed ||
      (state.Planning? && (event.PlanRecorded? || event.HumanNarrowedScope? || event.HumanApprovedStaleBase?)) ||
      ((state.WaitingHuman? || state.Escalated?) && event.HumanClarified?) ||
      (state.Blocked? && event.PrerequisiteResolved?) ||
      ((state.Building? || state.Remediating?) && event.ReturnToPlanning?) ||
      (Looping(state, event) && !ctx.Exhausted() && (event.HumanFeedbackReceived? || event.ReturnToPlanning?)) ||
      (state.TakenOver? && event.FollowUpRecoveryAuthorized?)
    case WaitingHuman =>
      (state.Planning? && (event.WaitingForIssueCreator? || event.NeedsHumanScopeDecision? ||
                           event.RootCauseDifferentScope?)) ||
      (state.FinalReview? && event.WaitForIssueCreator? && !ctx.Exhausted())
    case ReadyToBuild =>
      resumed || (state.Planning? && event.Proceed?) || (state.Building? && event.HumanReaffirmedScope?)
    case Building =>
      (state.ReadyToBuild? && event.BuilderDispatched?) || (state.Building? && event.BuildRecorded?) ||
      ((state.WaitingCi? || state.Reviewing? || state.FinalReview?) && event.PublicationRetryAuthorized?)
    case WaitingCi =>
      resumed || ((state.Building? || state.Remediating?) && event.ReviewReady?) ||
      (state.Escalated? && (event.NativeReviewRetryAuthorized? || event.RemediationBudgetExtended?)) ||
      ((state.Escalated? || state.Reviewing?) && event.ReviewCoordinationRecoveryAuthorized?)
    case Reviewing =>
      (state.WaitingCi? && event.CiAccepted?) || (state.Reviewing? && event.ReviewRecorded?) ||
      (state.FinalReview? && event.ReturnToReview? && !ctx.Exhausted())
    case Remediating =>
      resumed || (state.Remediating? && (event.BuildRecorded? || event.ReviewsPublished?)) ||
      (!ctx.Exhausted() &&
       ((Looping(state, event) && (event.CiFailed? || event.RequestChanges? || event.ReturnToBuild?)) ||
        ((state.Escalated? || state.Blocked?) && event.InfrastructureRecoveryAuthorized?)))
    case FinalReview =>
      (state.Reviewing? && event.ReviewsApproved?) ||
      (state.FinalReview? && (event.ReviewsPublished? || event.FinalPreflightAccepted?))
    case ShadowReady => state.FinalReview? && event.Ready? && ctx.mergeMode.Shadow?
    case ReadyToMerge => state.FinalReview? && event.Ready? && ctx.mergeMode.Guarded?
    case Merging => state.ReadyToMerge? && event.MergeStarted? && ctx.mergeMode.Guarded?
    case Completed =>
      (state.Planning? && (event.AlreadyFixed? || event.NotReproducible? || event.Duplicate?)) ||
      ((state.ShadowReady? || state.TakenOver?) && event.HumanMerged?) ||
      (state.Merging? && event.MergeVerified? && ctx.mergeMode.Guarded?)
    case Blocked =>
      (!state.Terminal() && event.BlockedUnexpectedModel?) || (state.Planning? && event.CrossRepoDependency?) ||
      (event.Blocked? && !state.Parked() && !state.ReadyToBuild? && !state.Terminal())
    case Escalated =>
      (!state.Terminal() && event.OperationalBoundReached?) || (Looping(state, event) && ctx.Exhausted())
    case Abandoned =>
      (!state.Terminal() && event.AuthorizationRemoved?) || (state.Parked() && event.HumanAbandoned?) ||
      ((state.Planning? || state.Building? || state.Remediating? || state.FinalReview?) && event.Abandon?)
    case TakenOver => !state.Terminal() && event.HumanTookOver?
  }

  /** A decision enters a state the way the backward table says, with exactly the effects of that entry. */
  predicate Sound(state: CaseState, event: Event, ctx: Context, d: Decision) {
    Entered(d.next, state, event, ctx) && d.effects == Emits(event, d.next)
  }

  function Transition(state: CaseState, event: Event, ctx: Context): (r: Result<Decision, TransitionError>)
    ensures r.Ok? ==> ctx.maxRounds != 0 && Sound(state, event, ctx, r.value)
  {
    if ctx.maxRounds == 0 then
      Err(InvalidLoopBound)
    else if state.TakenOver? && event.HumanMerged? then
      Ok(Decision(Completed, [RecordCompletion]))
    else if state.TakenOver? && event.FollowUpRecoveryAuthorized? then
      Ok(Decision(Planning, [DispatchPlanner]))
    else if state.Terminal() then
      Err(TerminalState(state))
    else if event.HumanTookOver? then
      Ok(Decision(TakenOver, [RecordTakeover]))
    else if event.AuthorizationRemoved? then
      Ok(Decision(Abandoned, [RecordAbandonment]))
    else if event.BlockedUnexpectedModel? then
      Ok(Decision(CaseState.Blocked, [RecordBlock]))
    else if event.OperationalBoundReached? then
      Ok(Decision(Escalated, [Effect.Escalate]))
    else if event.HumanAbandoned? && state.Parked() then
      Ok(Decision(Abandoned, [RecordAbandonment]))
    else
      var decision := if event.HumanResumed? && state.Parked() then Resume(state, ctx) else Advance(state, event, ctx);
      if decision.None? then Err(InvalidTransition(state, event)) else Ok(decision.value)
  }

  /** A resume re-enters the workflow only where a dispatch can restart it. */
  function Resume(state: CaseState, ctx: Context): (d: Option<Decision>)
    requires state.Parked()
    ensures d.Some? ==> Sound(state, HumanResumed, ctx, d.value)
  {
    match ctx.resumeTarget
    case Some(Planning) => Some(Decision(Planning, [DispatchPlanner]))
    case Some(ReadyToBuild) => Some(Decision(ReadyToBuild, [DispatchBuilder]))
    case Some(Remediating) => Some(Decision(Remediating, [DispatchBuilder]))
    case Some(WaitingCi) => Some(Decision(WaitingCi, [ObserveCi]))
    case _ => None
  }

  /** The state-and-event table for every event without a global rule. */
  function Advance(state: CaseState, event: Event, ctx: Context): (d: Option<Decision>)
    ensures d.Some? ==> Sound(state, event, ctx, d.value)
  {
    if event.HumanFeedbackReceived? then Feedback(state, ctx)
    else if event.Blocked? then Block(state, ctx)
    else
      match state
      case Planning => FromPlanning(event, ctx)
      case WaitingHuman => FromParked(state, event, ctx)
      case Blocked => FromParked(state, event, ctx)
      case Escalated => FromParked(state, event, ctx)
      case ReadyToBuild => FromBuild(state, event, ctx)
      case Building => FromBuild(state, event, ctx)
      case Remediating => FromBuild(state, event, ctx)
      case WaitingCi => FromCi(event, ctx)
      case Reviewing => FromReviewing(event, ctx)
      case FinalReview => FromFinalReview(event, ctx)
      case ShadowReady => FromReady(state, event, ctx)
      case ReadyToMerge => FromReady(state, event, ctx)
      case Merging => FromReady(state, event, ctx)
      case _ => None
  }

  /** The loop guard: with no round left, the case escalates instead. */
  function Guard(ctx: Context, next: CaseState, effect: Effect): Option<Decision> {
    if ctx.Exhausted() then Some(Decision(Escalated, [Effect.Escalate])) else Some(Decision(next, [effect]))
  }

  function Feedback(state: CaseState, ctx: Context): (d: Option<Decision>)
    ensures d.Some? ==> Sound(state, HumanFeedbackReceived, ctx, d.value)
  {
    match state
    case Building | ReadyToMerge | Merging | Blocked | Escalated => None
    case Completed | Abandoned | TakenOver => None
    case _ => Guard(ctx, Planning, DispatchPlanner)
  }

  function Block(state: CaseState, ctx: Context): (d: Option<Decision>)
    ensures d.Some? ==> Sound(state, Event.Blocked, ctx, d.value)
  {
    match state
    case WaitingHuman | ReadyToBuild | Blocked | Escalated => None
    case Completed | Abandoned | TakenOver => None
    case _ => Some(Decision(CaseState.Blocked, [RecordBlock]))
  }

  function FromPlanning(event: Event, ctx: Context): (d: Option<Decision>)
    ensures d.Some? ==> Sound(Planning, event, ctx, d.value)
  {
    match event
    case PlanRecorded => Some(Decision(Planning, [PublishPlan]))
    case Proceed => Some(Decision(ReadyToBuild, [DispatchBuilder]))
    case WaitingForIssueCreator | NeedsHumanScopeDecision | RootCauseDifferentScope =>
      Some(Decision(WaitingHuman, [HoldForHuman]))
    case CrossRepoDependency => Some(Decision(CaseState.Blocked, [RecordBlock]))
    case AlreadyFixed | NotReproducible | Duplicate => Some(Decision(Completed, [RecordCompletion]))
    case Abandon => Some(Decision(Abandoned, [RecordAbandonment]))
    case HumanNarrowedScope | HumanApprovedStaleBase => Some(Decision(Planning, [DispatchPlanner]))
    case _ => None
  }

  function FromParked(state: CaseState, event: Event, ctx: Context): (d: Option<Decision>)
    requires state.Parked()
    ensures d.Some? ==> Sound(state, event, ctx, d.value)
  {
    match event
    case HumanClarified => if state.Blocked? then None else Some(Decision(Planning, [DispatchPlanner]))
    case PrerequisiteResolved => if state.Blocked? then Some(Decision(Planning, [DispatchPlanner])) else None
    case NativeReviewRetryAuthorized | ReviewCoordinationRecoveryAuthorized | RemediationBudgetExtended =>
      if state.Escalated? then Some(Decision(WaitingCi, [ObserveCi])) else None
    case InfrastructureRecoveryAuthorized =>
      if state.WaitingHuman? || ctx.Exhausted() then None else Some(Decision(Remediating, [DispatchBuilder]))
    case _ => None
  }

  function FromBuild(state: CaseState, event: Event, ctx: Context): (d: Option<Decision>)
    requires state.ReadyToBuild? || state.Building? || state.Remediating?
    ensures d.Some? ==> Sound(state, event, ctx, d.value)
  {
    match event
    case BuilderDispatched => if state.ReadyToBuild? then Some(Decision(Building, [])) else None
    case HumanReaffirmedScope => if state.Building? then Some(Decision(ReadyToBuild, [DispatchBuilder])) else None
    case ReviewsPublished => if state.Remediating? then Some(Decision(Remediating, [DispatchBuilder])) else None
    case BuildRecorded => if state.ReadyToBuild? then None else Some(Decision(state, [PublishDraftPullRequest]))
    case ReviewReady => if state.ReadyToBuild? then None else Some(Decision(WaitingCi, [ObserveCi]))
    case ReturnToPlanning => if state.ReadyToBuild? then None else Some(Decision(Planning, [DispatchPlanner]))
    case Abandon => if state.ReadyToBuild? then None else Some(Decision(Abandoned, [RecordAbandonment]))
    case _ => None
  }

  function FromCi(event: Event, ctx: Context): (d: Option<Decision>)
    ensures d.Some? ==> Sound(WaitingCi, event, ctx, d.value)
  {
    match event
    case CiAccepted => Some(Decision(Reviewing, [DispatchReviewers]))
    case CiFailed => Guard(ctx, Remediating, DispatchBuilder)
    case PublicationRetryAuthorized => Some(Decision(Building, [PublishDraftPullRequest]))
    case _ => None
  }

  function FromReviewing(event: Event, ctx: Context): (d: Option<Decision>)
    ensures d.Some? ==> Sound(Reviewing, event, ctx, d.value)
  {
    match event
    case ReviewRecorded => Some(Decision(Reviewing, []))
    case ReviewsApproved => Some(Decision(FinalReview, [PublishReviews]))
    case RequestChanges =>
      if ctx.Exhausted() then Some(Decision(Escalated, [PublishReviews, Effect.Escalate]))
      else Some(Decision(Remediating, [PublishReviews]))
    case ReviewCoordinationRecoveryAuthorized => Some(Decision(WaitingCi, [ObserveCi]))
    case PublicationRetryAuthorized => Some(Decision(Building, [PublishDraftPullRequest]))
    case _ => None
  }

  function FromFinalReview(event: Event, ctx: Context): (d: Option<Decision>)
    ensures d.Some? ==> Sound(FinalReview, event, ctx, d.value)
  {
    match event
    case ReviewsPublished => Some(Decision(FinalReview, [ObserveFinalPreflight]))
    case FinalPreflightAccepted => Some(Decision(FinalReview, [DispatchFinalReviewer]))
    case Ready =>
      if ctx.mergeMode.Shadow? then Some(Decision(ShadowReady, [NotifyShadowReady]))
      else Some(Decision(ReadyToMerge, [BeginMerge]))
    case ReturnToBuild => Guard(ctx, Remediating, DispatchBuilder)
    case ReturnToReview => Guard(ctx, Reviewing, DispatchReviewers)
    case ReturnToPlanning => Guard(ctx, Planning, DispatchPlanner)
    case WaitForIssueCreator => Guard(ctx, WaitingHuman, HoldForHuman)
    case PublicationRetryAuthorized => Some(Decision(Building, [PublishDraftPullRequest]))
    case Abandon => Some(Decision(Abandoned, [RecordAbandonment]))
    case _ => None
  }

  function FromReady(state: CaseState, event: Event, ctx: Context): (d: Option<Decision>)
    requires state.ShadowReady? || state.ReadyToMerge? || state.Merging?
    ensures d.Some? ==> Sound(state, event, ctx, d.value)
  {
    match event
    case HumanMerged => if state.ShadowReady? then Some(Decision(Completed, [RecordCompletion])) else None
    case MergeStarted =>
      if state.ReadyToMerge? && ctx.mergeMode.Guarded? then Some(Decision(Merging, [ExecuteMerge])) else None
    case MergeVerified =>
      if state.Merging? && ctx.mergeMode.Guarded? then Some(Decision(Completed, [RecordCompletion])) else None
    case _ => None
  }

  /** A refusal says why: no budget, a terminal state, or no transition for this state and event. */
  lemma TransitionRefuses(state: CaseState, event: Event, ctx: Context)
    requires Transition(state, event, ctx).Err?
    ensures Transition(state, event, ctx).error ==
            if ctx.maxRounds == 0 then InvalidLoopBound
            else if state.Completed? || state.Abandoned? || state.TakenOver? then TerminalState(state)
            else InvalidTransition(state, event)
  {
    hide Resume, Advance;
  }

  /** A human can resume or abandon exactly the cases that wait for one. */
  lemma ParkedExactly(state: CaseState, target: CaseState, ctx: Context)
    requires ctx.maxRounds != 0 && ctx.resumeTarget == Some(target)
    ensures Transition(state, HumanAbandoned, ctx).Ok? <==> state in {WaitingHuman, CaseState.Blocked, Escalated}
    ensures Transition(state, HumanResumed, ctx).Ok? <==>
            state in {WaitingHuman, CaseState.Blocked, Escalated} &&
            target in {Planning, ReadyToBuild, Remediating, WaitingCi}
  {
  }

  // ---- the two tables agree ----

  lemma EnteredOnce(state: CaseState, event: Event, ctx: Context, a: CaseState, b: CaseState)
    requires Entered(a, state, event, ctx) && Entered(b, state, event, ctx)
    ensures a == b
  {
  }

  lemma IntoPlanning(state: CaseState, event: Event, ctx: Context, next: CaseState)
    requires ctx.maxRounds != 0 && Entered(next, state, event, ctx) && (next.Planning?)
    ensures Transition(state, event, ctx).Ok?
  {
  }

  lemma IntoBuild(state: CaseState, event: Event, ctx: Context, next: CaseState)
    requires ctx.maxRounds != 0 && Entered(next, state, event, ctx) &&
             (next.WaitingHuman? || next.ReadyToBuild? || next.Building?)
    ensures Transition(state, event, ctx).Ok?
  {
  }

  lemma IntoReview(state: CaseState, event: Event, ctx: Context, next: CaseState)
    requires ctx.maxRounds != 0 && Entered(next, state, event, ctx) && (next.WaitingCi? || next.Reviewing?)
    ensures Transition(state, event, ctx).Ok?
  {
  }

  lemma IntoRemediation(state: CaseState, event: Event, ctx: Context, next: CaseState)
    requires ctx.maxRounds != 0 && Entered(next, state, event, ctx) && (next.Remediating?)
    ensures Transition(state, event, ctx).Ok?
  {
  }

  lemma IntoFinal(state: CaseState, event: Event, ctx: Context, next: CaseState)
    requires ctx.maxRounds != 0 && Entered(next, state, event, ctx) &&
             (next.FinalReview? || next.ShadowReady? || next.ReadyToMerge? || next.Merging?)
    ensures Transition(state, event, ctx).Ok?
  {
  }

  lemma IntoCompletion(state: CaseState, event: Event, ctx: Context, next: CaseState)
    requires ctx.maxRounds != 0 && Entered(next, state, event, ctx) && (next.Completed?)
    ensures Transition(state, event, ctx).Ok?
  {
  }

  lemma IntoParking(state: CaseState, event: Event, ctx: Context, next: CaseState)
    requires ctx.maxRounds != 0 && Entered(next, state, event, ctx) && (next.Blocked? || next.Escalated?)
    ensures Transition(state, event, ctx).Ok?
  {
  }

  lemma IntoWithdrawal(state: CaseState, event: Event, ctx: Context, next: CaseState)
    requires ctx.maxRounds != 0 && Entered(next, state, event, ctx) && (next.Abandoned? || next.TakenOver?)
    ensures Transition(state, event, ctx).Ok?
  {
  }

  /** An event is accepted into a state exactly when the backward table lists it, and then with these effects. */
  lemma TransitionExact(state: CaseState, event: Event, ctx: Context, next: CaseState)
    ensures Transition(state, event, ctx).Ok? && Transition(state, event, ctx).value.next == next
            <==> ctx.maxRounds != 0 && Entered(next, state, event, ctx)
  {
    hide Transition, Entered;
    if ctx.maxRounds != 0 && Entered(next, state, event, ctx) {
      match next {
        case Planning => IntoPlanning(state, event, ctx, next);
        case WaitingHuman | ReadyToBuild | Building => IntoBuild(state, event, ctx, next);
        case WaitingCi | Reviewing => IntoReview(state, event, ctx, next);
        case Remediating => IntoRemediation(state, event, ctx, next);
        case FinalReview | ShadowReady | ReadyToMerge | Merging => IntoFinal(state, event, ctx, next);
        case Completed => IntoCompletion(state, event, ctx, next);
        case Blocked | Escalated => IntoParking(state, event, ctx, next);
        case Abandoned | TakenOver => IntoWithdrawal(state, event, ctx, next);
      }
      EnteredOnce(state, event, ctx, next, Transition(state, event, ctx).value.next);
    }
  }
}
