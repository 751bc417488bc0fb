/** What every answer and observation does to a case: the event it is recorded as and the state it leads to. */
module Meaning {
  import opened Prelude
  import opened StateMachine
  import opened Ledger
  import opened Workflow
  import opened WorkflowSafety
  import opened Readiness
  import opened Liveness
  import opened Runs
  import opened Reachability
  import LedgerStore
  import C = Contracts
  import R = Reviews

  // ---- the answers of the workers ----

  predicate PlannerMeans(o: C.PlannerOutcome, event: Event, next: CaseState) {
    if o.BlockedUnexpectedModel? then event.BlockedUnexpectedModel? && next.Blocked?
    else event.PlanRecorded? && next.Planning?
  }

  predicate BuilderMeans(o: C.BuilderOutcome, from: CaseState, event: Event, next: CaseState) {
    match o
    case ReviewReady => event.BuildRecorded? && next == if from.Remediating? then Remediating else Building
    case ReturnToPlanning => event.ReturnToPlanning? && next.Planning?
    case Blocked => event.Blocked? && next.Blocked?
    case Abandon => event.Abandon? && next.Abandoned?
    case BlockedUnexpectedModel => event.BlockedUnexpectedModel? && next.Blocked?
  }

  /** A decided review waits while a required reviewer is missing; the last one approves if everybody did, and
      otherwise asks for changes. `earlier` are the reviews already recorded for the same generation. */
  predicate ReviewMeans(
    required: set<C.ReviewerId>, earlier: seq<C.Review>, review: C.Review, spent: bool, event: Event, next: CaseState) {
    if review.outcome.Blocked? then event.Blocked? && next.Blocked?
    else if review.outcome.BlockedUnexpectedModel? then event.BlockedUnexpectedModel? && next.Blocked?
    else if exists id :: id in required && id != review.reviewer && id !in R.Ids(earlier) then
      event.ReviewRecorded? && next.Reviewing?
    else if review.outcome.Approve? && forall x :: x in earlier ==> x.outcome.Approve? then
      event.ReviewsApproved? && next.FinalReview?
    else event.RequestChanges? && next == if spent then Escalated else Remediating
  }

  predicate FinalMeans(o: C.FinalOutcome, spent: bool, shadow: bool, event: Event, next: CaseState) {
    match o
    case Ready => event.Ready? && next == if shadow then ShadowReady else ReadyToMerge
    case ReturnToBuild => event.ReturnToBuild? && next == if spent then Escalated else Remediating
    case ReturnToReview => event.ReturnToReview? && next == if spent then Escalated else Reviewing
    case ReturnToPlanning => event.ReturnToPlanning? && next == if spent then Escalated else Planning
    case WaitForIssueCreator => event.WaitForIssueCreator? && next == if spent then Escalated else WaitingHuman
    case Blocked => event.Blocked? && next.Blocked?
    case Abandon => event.Abandon? && next.Abandoned?
    case BlockedUnexpectedModel => event.BlockedUnexpectedModel? && next.Blocked?
  }

  // ---- what the controller does itself ----

  predicate PlanMeans(o: C.PlannerOutcome, event: Event, next: CaseState) {
    match o
    case Proceed => event.Proceed? && next.ReadyToBuild?
    case AlreadyFixed => event.AlreadyFixed? && next.Completed?
    case NotReproducible => event.NotReproducible? && next.Completed?
    case Duplicate => event.Duplicate? && next.Completed?
    case RootCauseDifferentScope => event.RootCauseDifferentScope? && next.WaitingHuman?
    case WaitingForIssueCreator => event.WaitingForIssueCreator? && next.WaitingHuman?
    case NeedsHumanScopeDecision => event.NeedsHumanScopeDecision? && next.WaitingHuman?
    case CrossRepoDependency => event.CrossRepoDependency? && next.Blocked?
    case Abandon => event.Abandon? && next.Abandoned?
    case Blocked => event.Blocked? && next.Blocked?
    case BlockedUnexpectedModel => event.BlockedUnexpectedModel? && next.Blocked?
  }

  predicate Spent(env: Environment, l: Ledger)
    requires l.row.policyRevision in env.policies
  {
    l.row.round >= env.policies[l.row.policyRevision].maxRounds + Granted(l.history)
  }

  predicate Shadowed(env: Environment, l: Ledger)
    requires l.row.policyRevision in env.policies
  {
    env.policies[l.row.policyRevision].mergeMode.Shadow?
  }

  /** The record of every outcome: its event, its next state, and the bindings it leaves. */
  predicate Means(env: Environment, l: Ledger, o: Outcome, event: Event, r: Record)
    requires l.row.policyRevision in env.policies && l.row.policyRevision in env.workflows
  {
    match o
    case PlannerAnswered(plan) => PlannerMeans(plan, event, r.next)
    case PlanPublished(plan) => PlanMeans(plan, event, r.next)
    case BuilderAnswered(build) => BuilderMeans(build, l.row.state, event, r.next)
    case DraftPublished(pr, head) =>
      event.ReviewReady? && r.next.WaitingCi? && r.pr == Some(pr) && r.head == Some(head)
    case CiObserved(accepted) =>
      if accepted then event.CiAccepted? && r.next.Reviewing?
      else event.CiFailed? && r.next == if Spent(env, l) then Escalated else Remediating
    case ReviewAnswered(review) =>
      ReviewMeans(env.workflows[l.row.policyRevision].RequiredIds(), R.Matching(CohortRuns(l.history), review), review,
                  Spent(env, l), event, r.next)
    case LanesPublished => event.ReviewsPublished? && r.next == l.row.state
    case PreflightObserved(clean) =>
      if clean then event.FinalPreflightAccepted? && r.next.FinalReview?
      else event.ReturnToBuild? && r.next == if Spent(env, l) then Escalated else Remediating
    case FinalAnswered(final) => FinalMeans(final, Spent(env, l), Shadowed(env, l), event, r.next)
    case MergeBegun => event.MergeStarted? && r.next.Merging?
    case MergeExecuted => event.MergeVerified? && r.next.Completed?
  }

  /** Nothing but a published draft moves the head, and nothing but an accepted plan moves the plan. */
  predicate Keeps(l: Ledger, o: Outcome, r: Record) {
    (o.DraftPublished? || (r.pr == l.row.pr && r.head == l.row.head)) &&
    r.plan == if o == PlanPublished(C.PlannerOutcome.Proceed) then NextVersion(l.row.plan) else l.row.plan
  }

  // ---- the last record of a handler's batch ----

  /** The result is decided on the row it arrives at: a builder's on the dispatched case. */
  function Arrives(l: Ledger, o: Outcome): CaseState {
    if o.BuilderAnswered? && l.row.state.ReadyToBuild? then Building else l.row.state
  }

  function Decisive(env: Environment, l: Ledger): Context
    requires l.row.policyRevision in env.policies
  {
    var p := env.policies[l.row.policyRevision];
    Context(l.row.round, p.maxRounds + Granted(l.history), p.mergeMode, None)
  }

  /** What a batch of a handler leaves as its last record. */
  ghost predicate Recorded(env: Environment, l: Ledger, event: Event, o: Outcome, d: Delivery, r: Record)
    requires l.row.policyRevision in env.policies
  {
    r.Is(event) && r.run == d.run && r.previous == Some(Arrives(l, o)) &&
    Entered(r.next, Arrives(l, o), event, Decisive(env, l)) &&
    r.plan == (if event.Proceed? then NextVersion(l.row.plan) else l.row.plan) &&
    if event.ReviewReady? && o.DraftPublished? then r.pr == Some(o.pr) && r.head == Some(o.head)
    else r.pr == l.row.pr && r.head == l.row.head
  }

  lemma OneRecorded(env: Environment, l: Ledger, event: Event, o: Outcome, d: Delivery, c: Command, l': Ledger)
    requires env.Valid() && Projected(l) && l.row.policyRevision in env.policies && !event.HumanResumed?
    requires c == CommandOn(l.row, event, o, d.resultId, d, d.run) && !(o.BuilderAnswered? && l.row.state.ReadyToBuild?)
    requires Apply(env.policies, l, env.policies[l.row.policyRevision], c) == Ok(l')
    ensures l'.history == l.history + [Last(l'.history)] && Recorded(env, l, event, o, d, Last(l'.history))
  {
    hide Apply, Entered, Emits, Granted;
    ApplyAppends(env, l, c, l');
  }

  /** The records a handler's batch appends: a builder that answers a waiting case is dispatched first. */
  lemma {:induction false} BatchRecorded(
    env: Environment, l: Ledger, event: Event, o: Outcome, d: Delivery, l': Ledger)
    requires env.Valid() && Projected(l) && l.row.policyRevision in env.policies && !event.HumanResumed?
    requires ApplyBatch(env.policies, l, env.policies[l.row.policyRevision], HandlerCommands(l, event, o, d)) == Ok(l')
    ensures l'.history != [] && Recorded(env, l, event, o, d, Last(l'.history)) && l.history <= l'.history
    ensures |l'.history| == |l.history| + if o.BuilderAnswered? && l.row.state.ReadyToBuild? then 2 else 1
    ensures o.BuilderAnswered? && l.row.state.ReadyToBuild? ==> l'.history[|l.history|].Is(BuilderDispatched)
  {
    hide Apply, ApplyBatch, ApplySequence, Granted, Entered, Emits, Recorded, Projected;
    var cs, policy := HandlerCommands(l, event, o, d), env.policies[l.row.policyRevision];
    LedgerStore.BatchRefinesSequence(env.policies, l, policy, cs);
    if o.BuilderAnswered? && l.row.state.ReadyToBuild? {
      TwoRecorded(env, l, event, o, d, l');
    } else {
      SequenceOfOne(env.policies, l, policy, cs[0]);
      OneRecorded(env, l, event, o, d, cs[0], l');
    }
  }

  lemma {:induction false} TwoRecorded(
    env: Environment, l: Ledger, event: Event, o: Outcome, d: Delivery, l': Ledger)
    requires env.Valid() && Projected(l) && l.row.policyRevision in env.policies && !event.HumanResumed?
    requires o.BuilderAnswered? && l.row.state.ReadyToBuild?
    requires ApplySequence(env.policies, l, env.policies[l.row.policyRevision], HandlerCommands(l, event, o, d)) ==
             Ok(l')
    ensures l'.history != [] && Recorded(env, l, event, o, d, Last(l'.history)) && l.history <= l'.history
    ensures |l'.history| == |l.history| + 2 && l'.history[|l.history|].Is(BuilderDispatched)
  {
    hide Apply, ApplySequence, Granted, Entered, Emits, Recorded;
    var cs, policy := HandlerCommands(l, event, o, d), env.policies[l.row.policyRevision];
    var m := SplitTwo(env, l, policy, cs[0], cs[1]);
    ApplyAppends(env, l, cs[0], m);
    DispatchLands(env, l, cs[0], m);
    OneRecorded(env, m, event, o, d, cs[1], l');
    SameRecord(env, l, m, event, o, d, Last(l'.history));
  }

  lemma SameRecord(env: Environment, l: Ledger, m: Ledger, event: Event, o: Outcome, d: Delivery, r: Record)
    requires l.row.policyRevision in env.policies && o.BuilderAnswered? && l.row.state.ReadyToBuild?
    requires m.row == l.row.(state := Building, revision := m.row.revision) && Granted(m.history) == Granted(l.history)
    requires Recorded(env, m, event, o, d, r)
    ensures Recorded(env, l, event, o, d, r)
  {
    hide Entered;
  }

  // ---- each outcome ----

  lemma PlannerNext(o: C.PlannerOutcome, ctx: Context, event: Event, next: CaseState)
    requires event == (if o.BlockedUnexpectedModel? then Event.BlockedUnexpectedModel else PlanRecorded)
    requires Entered(next, Planning, event, ctx)
    ensures PlannerMeans(o, event, next)
  {
  }

  lemma PlanNext(o: C.PlannerOutcome, ctx: Context, next: CaseState)
    requires Entered(next, Planning, PlannerEvent(o), ctx)
    ensures PlanMeans(o, PlannerEvent(o), next)
  {
  }

  lemma BuilderNext(o: C.BuilderOutcome, from: CaseState, ctx: Context, next: CaseState)
    requires from.ReadyToBuild? || from.Building? || from.Remediating?
    requires Entered(next, if from.ReadyToBuild? then Building else from, BuilderEvent(o), ctx)
    ensures BuilderMeans(o, from, BuilderEvent(o), next)
  {
  }

  lemma FinalNext(o: C.FinalOutcome, ctx: Context, next: CaseState)
    requires Entered(next, FinalReview, FinalEvent(o), ctx)
    ensures FinalMeans(o, ctx.Exhausted(), ctx.mergeMode.Shadow?, FinalEvent(o), next)
  {
  }

  lemma ReviewNext(w: R.Workflow, earlier: seq<C.Review>, review: C.Review, ctx: Context, event: Event, next: CaseState)
    requires match review.outcome
             case Blocked => event.Blocked?
             case BlockedUnexpectedModel => event.BlockedUnexpectedModel?
             case _ => R.Join(Some(w), earlier, review) == Ok(event)
    requires Entered(next, Reviewing, event, ctx)
    ensures ReviewMeans(w.RequiredIds(), earlier, review, ctx.Exhausted(), event, next)
  {
    var cohort := earlier + [review];
    assert cohort[|earlier|] == review;
    assert forall x :: x in cohort <==> x in earlier || x == review;
  }

  lemma OtherNext(o: Outcome, state: CaseState, ctx: Context, event: Event, next: CaseState)
    requires
      match o
      case DraftPublished(_, _) => event.ReviewReady?
      case CiObserved(accepted) => event == if accepted then CiAccepted else CiFailed
      case LanesPublished => event.ReviewsPublished?
      case PreflightObserved(clean) => event == if clean then FinalPreflightAccepted else ReturnToBuild
      case MergeBegun => event.MergeStarted?
      case MergeExecuted => event.MergeVerified?
      case _ => false
    requires Entered(next, state, event, ctx)
    ensures o.DraftPublished? ==> next.WaitingCi?
    ensures o.CiObserved? ==>
              next == if o.accepted then Reviewing else if ctx.Exhausted() then Escalated else Remediating
    ensures o.LanesPublished? ==> next == state
    ensures o.PreflightObserved? ==>
              next == if o.clean then FinalReview else if ctx.Exhausted() then Escalated else Remediating
    ensures o.MergeBegun? ==> next.Merging?
    ensures o.MergeExecuted? ==> next.Completed?
  {
  }

  lemma OutcomeMeans(env: Environment, l: Ledger, o: Outcome, event: Event, d: Delivery, r: Record)
    requires l.row.policyRevision in env.policies && l.row.policyRevision in env.workflows
    requires EventOf(env, l, o) == Some(event) && Recorded(env, l, event, o, d, r)
    requires o.PlannerAnswered? || o.PlanPublished? ==> l.row.state.Planning?
    requires o.BuilderAnswered? ==> l.row.state.ReadyToBuild? || l.row.state.Building? || l.row.state.Remediating?
    requires o.ReviewAnswered? ==> l.row.state.Reviewing?
    requires o.FinalAnswered? ==> l.row.state.FinalReview?
    ensures Means(env, l, o, event, r)
  {
    hide Entered, Granted, CohortRuns, R.Join;
    var ctx := Decisive(env, l);
    match o {
      case PlannerAnswered(plan) => PlannerNext(plan, ctx, event, r.next);
      case PlanPublished(plan) => PlanNext(plan, ctx, r.next);
      case BuilderAnswered(build) => BuilderNext(build, l.row.state, ctx, r.next);
      case FinalAnswered(final) => FinalNext(final, ctx, r.next);
      case ReviewAnswered(review) =>
        ReviewNext(env.workflows[l.row.policyRevision], R.Matching(CohortRuns(l.history), review), review, ctx, event,
                   r.next);
      case _ => OtherNext(o, l.row.state, ctx, event, r.next);
    }
  }

  lemma OutcomeKeeps(env: Environment, l: Ledger, o: Outcome, event: Event, d: Delivery, r: Record)
    requires l.row.policyRevision in env.policies && l.row.policyRevision in env.workflows
    requires EventOf(env, l, o) == Some(event) && Recorded(env, l, event, o, d, r)
    requires o.ReviewAnswered? ==> !event.Proceed? && !event.ReviewReady?
    ensures Keeps(l, o, r) && r.Is(event) && r.run == d.run
  {
    hide Entered, ReviewEvent, Decisive;
  }

  /** Whatever the handler of an outstanding effect reports, the case records exactly what it means. */
  lemma {:induction false} OutcomeRecorded(env: Environment, l: Ledger, effect: Effect, o: Outcome, d: Delivery)
    requires Reachable(env, l) && Active(l.row.state) && Settled(l.history)
    requires l.row.policyRevision in env.policies && Room(env, l) && l.row.revision + 2 <= U64_MAX && d.payload.isObject
    requires effect in Outstanding(l.history) && Handles(env, l, effect, o)
    ensures l.row.policyRevision in env.workflows && EventOf(env, l, o).Some?
    ensures
      var event := EventOf(env, l, o).value;
      var r := ApplyBatch(env.policies, l, env.policies[l.row.policyRevision], HandlerCommands(l, event, o, d));
      r.Ok? && r.value.history != [] && l.history <= r.value.history &&
      var last := Last(r.value.history);
      last.Is(event) && last.run == d.run && Means(env, l, o, event, last) && Keeps(l, o, last)
  {
    hide Reachable, Fenced, Chain, MergesGuarded, LoopGuarded, Granted, Entries, Apply, ApplyBatch, Emits, Collecting,
         Outstanding, EventOf, HandlerCommands, Means, Keeps, Recorded;
    ReachableInv(env, l);
    OutcomeAccepted(env, l, effect, o, d);
    OutcomeOrdinary(env, l, effect, o) by { OutstandingWork(env, l); }
    var event := EventOf(env, l, o).value;
    var l' := ApplyBatch(env.policies, l, env.policies[l.row.policyRevision], HandlerCommands(l, event, o, d)).value;
    BatchRecorded(env, l, event, o, d, l');
    OutcomeMeans(env, l, o, event, d, Last(l'.history)) by { OutstandingWork(env, l); }
    OutcomeKeeps(env, l, o, event, d, Last(l'.history));
  }
}
