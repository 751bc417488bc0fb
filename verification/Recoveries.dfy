/** Leaving a dead end: where a resume lands, and when each audited recovery is accepted. */
module Recoveries {
  import opened Prelude
  import opened StateMachine
  import opened Ledger
  import opened Workflow
  import opened WorkflowSafety
  import opened Readiness
  import opened Liveness
  import opened Runs
  import opened Provenance
  import opened Reachability

  // ---- resuming undoes parking ----

  /** A parked case goes back to where it was, a step earlier where a worker has to be dispatched again; a loop guard
      lets the refused event through, and feedback or a question is planned again. */
  predicate ReturnsTo(cause: Event, from: CaseState, to: CaseState) {
    if cause.HumanFeedbackReceived? then to.Planning?
    else
      match from
      case Planning => to.Planning?
      case WaitingHuman => to.Planning?
      case ReadyToBuild => to.ReadyToBuild?
      case Building => to.ReadyToBuild?
      case Remediating => to.Remediating?
      case WaitingCi => if cause.CiFailed? then to.Remediating? else to.WaitingCi?
      case Reviewing => if cause.RequestChanges? then to.Remediating? else to.WaitingCi?
      case FinalReview =>
        if cause.ReturnToBuild? then to.Remediating?
        else if cause.ReturnToPlanning? || cause.WaitForIssueCreator? then to.Planning?
        else to.WaitingCi?
      case ShadowReady => to.WaitingCi?
      case ReadyToMerge => to.WaitingCi?
      case Merging => to.WaitingCi?
      case _ => false
  }

  /** The last step of a run to this case. */
  lemma LastStep(env: Environment, l: Ledger) returns (m: Ledger, a: Action)
    requires Reachable(env, l) && !l.row.state.Planning?
    ensures Inv(env, m) && Step(env, m, a, l)
  {
    hide Inv, Step;
    var ledgers, actions :| Run(env, ledgers, actions) && l == ledgers[|actions|];
    var n := |actions|;
    RunKeeps(env, ledgers, actions, n - 1);
    m, a := ledgers[n - 1], actions[n - 1];
    assert Step(env, ledgers[n - 1], actions[n - 1], ledgers[n]);
  }

  lemma ParkedFrom(park: Record, state: CaseState, ctx: Context)
    requires park.kind.Applied? && park.previous.Some? && park.next == state && state.Parked()
    requires park.previous.value !in {Escalated, CaseState.Blocked}
    requires Entered(state, park.previous.value, park.kind.event, ctx)
    ensures ReturnsTo(park.kind.event, park.previous.value, ResumeTarget(park))
  {
  }

  /** The parking record of every reachable parked case says where its resume lands. */
  lemma ParkedReturns(env: Environment, l: Ledger)
    requires Reachable(env, l) && l.row.state.Parked()
    ensures l.history != [] && Last(l.history).kind.Applied? && Last(l.history).previous.Some?
    ensures ReturnsTo(Last(l.history).kind.event, Last(l.history).previous.value, ResumeTarget(Last(l.history)))
  {
    hide Reachable, Fenced, Collecting, Chain, Emits, ReviewersDispatched, MergesGuarded, LoopGuarded, RoundsCounted,
         Granted, Apply, Allowed, ResumeTarget, ReturnsTo, Entered;
    ReachableInv(env, l);
    var m, a := LastStep(env, l);
    ParkingStep(env, m, a, l);
    var park := Last(l.history);
    ParkedFrom(park, l.row.state, ContextOf(env, m, a.command));
  }

  lemma ParkingStep(env: Environment, m: Ledger, a: Action, l: Ledger)
    requires Inv(env, m) && Step(env, m, a, l) && l.row.state.Parked()
    ensures a.Submit? && m.row.policyRevision in env.policies && l.history != []
    ensures
      var park := Last(l.history);
      park.kind == Applied(a.command.event) && park.previous == Some(m.row.state) && park.next == l.row.state &&
      Entered(park.next, m.row.state, a.command.event, ContextOf(env, m, a.command))
  {
    hide Fenced, Collecting, Chain, Emits, Emitted, ReviewersDispatched, MergesGuarded, LoopGuarded, RoundsCounted,
         Granted, Apply, Allowed, ResumeTarget, Entered, Dispatchable;
    if a.Submit? {
      StepAppends(env, m, a, l);
    }
  }

  /** Every resume lands where the parking record says, or in planning when it asks for that, and keeps the plan, the
      pull request, the head and the rounds spent. */
  lemma ResumeReturns(env: Environment, l: Ledger, c: Command, job: Option<Job>, l': Ledger)
    requires Reachable(env, l) && Step(env, l, Submit(c, job), l') && c.event.HumanResumed?
    ensures l.row.state.Parked() && l.history != [] && Last(l.history).kind.Applied? && Last(l.history).previous.Some?
    ensures l'.row.state.Planning? ||
            ReturnsTo(Last(l.history).kind.event, Last(l.history).previous.value, l'.row.state)
    ensures c.payload.resumeTarget == Some(l'.row.state) && l'.row.round == l.row.round
    ensures l'.row.pr == l.row.pr && l'.row.head == l.row.head && (c.acceptedPlan.None? ==> l'.row.plan == l.row.plan)
  {
    hide Reachable, Fenced, Collecting, Chain, Emits, Emitted, ReviewersDispatched, MergesGuarded, LoopGuarded,
         RoundsCounted, Granted, Apply, ResumeTarget, ReturnsTo, Resumable, Dispatchable;
    ReachableInv(env, l);
    StepAppends(env, l, Submit(c, job), l');
    ParkedReturns(env, l);
    ResumeStep(env, l, c, l', Last(l'.history));
  }

  // ---- audited recoveries ----

  /** The case was parked by this event, from one of these states. */
  predicate ParkedBy(l: Ledger, cause: Event, from: set<CaseState>) {
    l.history != [] && l.history[|l.history| - 1].kind == Applied(cause) &&
    exists state :: state in from && l.history[|l.history| - 1].previous == Some(state)
  }

  predicate Never(l: Ledger, event: Event) {
    forall i :: 0 <= i < |l.history| ==> l.history[i].kind != Applied(event)
  }

  /** The last three records: ready, feedback on it, and a takeover that misread it, all of one plan. */
  predicate MisreadFeedback(l: Ledger) {
    var h, n := l.history, |l.history|;
    n >= 3 && h[n - 3].kind == Applied(Ready) && h[n - 3].next.ShadowReady? &&
    h[n - 2].kind == Applied(HumanFeedbackReceived) && h[n - 2].next.Planning? &&
    h[n - 1].kind == Applied(HumanTookOver) && h[n - 3].plan == h[n - 2].plan == h[n - 1].plan
  }

  /** When the case can be recovered by this event. */
  ghost predicate Recoverable(env: Environment, l: Ledger, event: Event)
    requires l.row.policyRevision in env.policies
  {
    match event
    case InfrastructureRecoveryAuthorized =>
      l.row.round < env.policies[l.row.policyRevision].maxRounds &&
      ((l.row.state.Escalated? && ParkedBy(l, OperationalBoundReached, {Reviewing, FinalReview})) ||
       (l.row.state.Blocked? && ParkedBy(l, Event.Blocked, {Remediating})))
    case NativeReviewRetryAuthorized =>
      l.row.state.Escalated? && ParkedBy(l, OperationalBoundReached, {Reviewing}) && Never(l, event)
    case ReviewCoordinationRecoveryAuthorized =>
      (l.row.state.Reviewing? || (l.row.state.Escalated? && ParkedBy(l, OperationalBoundReached, {FinalReview}))) &&
      Never(l, event)
    case RemediationBudgetExtended =>
      l.row.state.Escalated? && ParkedBy(l, CiFailed, {WaitingCi}) &&
      exists to :: to in env.policies && Raises(env, l.row, to)
    case FollowUpRecoveryAuthorized => l.row.state.TakenOver? && MisreadFeedback(l)
    case _ => false
  }

  /** A later policy that differs only in its limit, which leaves the case a round. */
  predicate Raises(env: Environment, row: Case, to: nat)
    requires row.policyRevision in env.policies && to in env.policies
  {
    var p, q := env.policies[row.policyRevision], env.policies[to];
    row.policyRevision < to && p.maxRounds <= row.round < q.maxRounds &&
    q.mergeMode == p.mergeMode && q.settings == p.settings
  }

  lemma RecoveryNeeds(env: Environment, l: Ledger, c: Command, l': Ledger)
    requires env.Valid() && Projected(l) && l.row.policyRevision in env.policies && Recovery(c.event)
    requires Apply(env.policies, l, env.policies[l.row.policyRevision], c) == Ok(l')
    ensures Recoverable(env, l, c.event)
  {
    hide Apply, Transition, Granted, Prepare, Entered, Emits;
    var policy := env.policies[l.row.policyRevision];
    ApplyFactors(env.policies, l, policy, c, l');
    var effective := policy.(maxRounds := policy.maxRounds + Granted(l.history));
    var input := Prepare(effective, c).value;
    PrepareKeeps(effective, c, input);
    RuleNeeds(env, l, input);
  }

  lemma RuleNeeds(env: Environment, l: Ledger, input: TransitionInput)
    requires Projected(l) && l.row.policyRevision in env.policies && Recovery(input.event)
    requires StoreRule(env.policies, l, input).Some?
    ensures Recoverable(env, l, input.event)
  {
  }

  /** The operator's command for a recovery. */
  function Authorization(l: Ledger, event: Event, to: nat, limit: nat): Command {
    Plain(l, event).(payload := Payload(true, None, None, Some(to), Some(limit), true))
  }

  function AuthorizedInput(l: Ledger, event: Event, next: CaseState, to: nat, limit: nat): TransitionInput {
    var c := Authorization(l, event, to, limit);
    TransitionInput(c.key, c.eventId, l.row.revision, next,
                    if next.Remediating? && !l.row.state.Remediating? then l.row.round + 1 else l.row.round,
                    l.row.plan, l.row.pr, l.row.head, event, c.payload, None, Emits(event, next))
  }

  lemma AuthorizationPrepares(
    env: Environment, l: Ledger, event: Event, next: CaseState, to: nat, limit: nat, effective: CasePolicy)
    requires effective.revision == l.row.policyRevision && 0 < effective.maxRounds <= U32_MAX
    requires l.row.revision < U64_MAX && Recovery(event)
    requires Entered(next, l.row.state, event, Context(l.row.round, effective.maxRounds, effective.mergeMode, None))
    ensures Prepare(effective, Authorization(l, event, to, limit)) == Ok(AuthorizedInput(l, event, next, to, limit))
  {
    hide Transition, Entered, Emits;
    var ctx := Context(l.row.round, effective.maxRounds, effective.mergeMode, None);
    TransitionExact(l.row.state, event, ctx, next);
    RoundLeft(l.row.state, event, ctx, next);
  }

  lemma RoundLeft(state: CaseState, event: Event, ctx: Context, next: CaseState)
    requires Entered(next, state, event, ctx) && Recovery(event)
    ensures next.Remediating? ==> ctx.round < ctx.maxRounds
  {
  }

  function RecoveryState(event: Event): CaseState {
    match event
    case InfrastructureRecoveryAuthorized => Remediating
    case FollowUpRecoveryAuthorized => Planning
    case _ => WaitingCi
  }

  lemma RecoveryEnters(env: Environment, l: Ledger, event: Event, ctx: Context)
    requires l.row.policyRevision in env.policies && Recoverable(env, l, event)
    requires ctx.round == l.row.round && ctx.maxRounds >= env.policies[l.row.policyRevision].maxRounds
    ensures Entered(RecoveryState(event), l.row.state, event, ctx)
  {
  }

  /** What a record without a rebinding event keeps from the one before it. */
  predicate Follows(before: Record, r: Record) {
    r.previous == Some(before.next) && r.pr == before.pr && r.head == before.head &&
    r.policyRevision == before.policyRevision
  }

  lemma StepFollows(env: Environment, m: Ledger, a: Action, l: Ledger)
    requires Inv(env, m) && Step(env, m, a, l) && l.history != [] && Last(l.history).kind.Applied?
    requires
      var e := Last(l.history).kind.event;
      !e.ReviewReady? && !e.HumanResumed? && !e.RemediationBudgetExtended?
    ensures m.history != [] && Follows(Last(m.history), Last(l.history))
  {
    hide Fenced, Collecting, Chain, Emits, Emitted, ReviewersDispatched, MergesGuarded, LoopGuarded, RoundsCounted,
         Granted, Apply, Allowed, Dispatchable, Entered;
    if a.Submit? {
      StepAppends(env, m, a, l);
    }
  }

  lemma RecordFollows(env: Environment, l: Ledger, i: nat)
    requires Reachable(env, l) && 0 < i < |l.history| && l.history[i].kind.Applied?
    requires
      var e := l.history[i].kind.event;
      !e.ReviewReady? && !e.HumanResumed? && !e.RemediationBudgetExtended?
    ensures Follows(l.history[i - 1], l.history[i])
  {
    hide Inv, Step, Initial;
    var ledgers, actions :| Run(env, ledgers, actions) && l == ledgers[|actions|];
    var n := |actions|;
    HistoryGrows(env, ledgers, actions, n, n);
    HistoryGrows(env, ledgers, actions, i - 1, n);
    HistoryGrows(env, ledgers, actions, i, n);
    RunKeeps(env, ledgers, actions, i - 1);
    assert Step(env, ledgers[i - 1], actions[i - 1], ledgers[i]);
    StepFollows(env, ledgers[i - 1], actions[i - 1], ledgers[i]);
  }

  /** A misread feedback is the lineage the store looks for, on the head that was ready. */
  lemma MisreadLineage(env: Environment, l: Ledger)
    requires Reachable(env, l) && l.row.state.TakenOver? && MisreadFeedback(l)
    ensures FalseTakeover(l.history, l.row) && l.row.head.Some? && l.row.pr.Some? && l.row.plan >= 1
  {
    hide Inv, Step, Initial, Reachable;
    var h, n := l.history, |l.history|;
    RecordFollows(env, l, n - 1);
    RecordFollows(env, l, n - 2);
    ReadyBound(env, l, n - 3);
    LastProjected(env, l);
  }

  lemma LastProjected(env: Environment, l: Ledger)
    requires Reachable(env, l)
    ensures Projected(l) && l.row.pr.Some? == l.row.head.Some? && (l.row.head.Some? ==> l.row.plan >= 1)
  {
    hide Reachable, Fenced, Collecting, Chain, Emitted, ReviewersDispatched, MergesGuarded, LoopGuarded, RoundsCounted,
         Resumable;
    ReachableInv(env, l);
  }

  /** A record that made the case ready holds its head. */
  lemma ReadyBound(env: Environment, l: Ledger, i: nat)
    requires Reachable(env, l) && i < |l.history| && l.history[i].next.ShadowReady?
    ensures l.history[i].head.Some?
  {
    hide Inv, Step, Initial;
    var ledgers, actions :| Run(env, ledgers, actions) && l == ledgers[|actions|];
    HistoryGrows(env, ledgers, actions, |actions|, |actions|);
    HistoryGrows(env, ledgers, actions, i, |actions|);
    RunKeeps(env, ledgers, actions, i);
    ReadyHead(env, ledgers[i]);
  }

  lemma ReadyHead(env: Environment, l: Ledger)
    requires Inv(env, l) && Last(l.history).next.ShadowReady?
    ensures Last(l.history).head.Some?
  {
    hide Fenced, Collecting, Chain, Emitted, ReviewersDispatched, MergesGuarded, LoopGuarded, RoundsCounted, Resumable;
  }

  /** A recoverable case has the head, pull request and plan its recovery continues on. */
  lemma RecoveryBound(env: Environment, l: Ledger, event: Event)
    requires Reachable(env, l) && l.row.policyRevision in env.policies && Recoverable(env, l, event)
    ensures l.row.pr.Some? && l.row.head.Some? && l.row.plan >= 1
  {
    hide Reachable, MisreadFeedback;
    LastProjected(env, l);
    if event.FollowUpRecoveryAuthorized? {
      MisreadLineage(env, l);
    } else if l.row.state.Parked() {
      ParkedReturns(env, l);
      ParkedHead(env, l);
    } else {
      ReviewingHead(env, l);
    }
  }

  lemma ReviewingHead(env: Environment, l: Ledger)
    requires Reachable(env, l) && l.row.state.Reviewing?
    ensures l.row.head.Some?
  {
    hide Reachable, Fenced, Collecting, Chain, Emitted, ReviewersDispatched, MergesGuarded, LoopGuarded, RoundsCounted,
         Resumable;
    ReachableInv(env, l);
  }

  /** A case that resumes after its head was published still has it. */
  lemma ParkedHead(env: Environment, l: Ledger)
    requires Reachable(env, l) && l.row.state.Parked()
    ensures l.history != [] && (NeedsHead(ResumeTarget(Last(l.history))) ==> l.row.head.Some?)
  {
    hide Reachable, Fenced, Collecting, Chain, Emitted, ReviewersDispatched, MergesGuarded, LoopGuarded, RoundsCounted,
         ResumeTarget;
    ReachableInv(env, l);
  }

  lemma RuleAccepts(env: Environment, l: Ledger, event: Event, to: nat, limit: nat)
    requires Projected(l) && l.row.policyRevision in env.policies && Recoverable(env, l, event)
    requires l.row.pr.Some? && l.row.head.Some? && l.row.plan >= 1
    requires event.RemediationBudgetExtended? ==>
               to in env.policies && Raises(env, l.row, to) && limit == env.policies[to].maxRounds &&
               env.policies[to].revision == to
    requires event.FollowUpRecoveryAuthorized? ==> FalseTakeover(l.history, l.row)
    ensures StoreRule(env.policies, l, AuthorizedInput(l, event, RecoveryState(event), to, limit)).Some?
  {
  }

  predicate Accepts(env: Environment, l: Ledger, c: Command)
    requires l.row.policyRevision in env.policies
  {
    Apply(env.policies, l, env.policies[l.row.policyRevision], c).Ok?
  }

  /** Every audited recovery is accepted on exactly the dead ends it was made for. */
  lemma {:induction false} RecoveredExactly(env: Environment, l: Ledger, event: Event)
    requires Reachable(env, l) && l.row.policyRevision in env.policies && Room(env, l) && Recovery(event)
    ensures (exists c: Command :: c.event == event && Accepts(env, l, c)) <==> Recoverable(env, l, event)
  {
    hide Reachable, Apply, Recoverable, Granted, Recovery, Projected;
    RecoveryGround(env, l);
    forall c: Command | c.event == event && Accepts(env, l, c)
      ensures Recoverable(env, l, event)
    {
      RecoveryNeeds(env, l, c, Apply(env.policies, l, env.policies[l.row.policyRevision], c).value);
    }
    if Recoverable(env, l, event) {
      var c := Recover(env, l, event);
    }
  }

  lemma RecoveryGround(env: Environment, l: Ledger)
    requires Reachable(env, l)
    ensures env.Valid() && Projected(l)
  {
    hide Reachable, Fenced, Collecting, Chain, Emitted, ReviewersDispatched, MergesGuarded, LoopGuarded, RoundsCounted,
         Dispatchable;
    ReachableInv(env, l);
  }

  lemma Raise(env: Environment, l: Ledger) returns (to: nat)
    requires l.row.policyRevision in env.policies && Recoverable(env, l, RemediationBudgetExtended)
    ensures to in env.policies && Raises(env, l.row, to)
  {
    to :| to in env.policies && Raises(env, l.row, to);
  }

  lemma Misread(env: Environment, l: Ledger)
    requires l.row.policyRevision in env.policies && Recoverable(env, l, FollowUpRecoveryAuthorized)
    ensures l.row.state.TakenOver? && MisreadFeedback(l)
  {
  }

  lemma AuthorizationAccepted(env: Environment, l: Ledger, event: Event, to: nat, limit: nat, effective: CasePolicy)
    requires l.row.policyRevision in env.policies && Room(env, l) && l.row.pr.Some? == l.row.head.Some?
    requires EffectivePolicy(l, env.policies[l.row.policyRevision]) == Ok(effective)
    requires Prepare(effective, Authorization(l, event, to, limit)) ==
             Ok(AuthorizedInput(l, event, RecoveryState(event), to, limit))
    requires StoreRule(env.policies, l, AuthorizedInput(l, event, RecoveryState(event), to, limit)).Some?
    ensures Accepts(env, l, Authorization(l, event, to, limit))
  {
    hide Prepare, StoreRule, EffectivePolicy, RecoveryState, Emits;
  }

  lemma Effective(env: Environment, l: Ledger) returns (effective: CasePolicy)
    requires env.Valid() && l.row.policyRevision in env.policies && Room(env, l)
    ensures EffectivePolicy(l, env.policies[l.row.policyRevision]) == Ok(effective)
    ensures effective.revision == l.row.policyRevision && 0 < effective.maxRounds <= U32_MAX
    ensures effective.maxRounds >= env.policies[l.row.policyRevision].maxRounds && l.row.revision < U64_MAX
    ensures forall r :: r in env.policies ==> env.policies[r].revision == r
  {
    effective := EffectivePolicy(l, env.policies[l.row.policyRevision]).value;
  }

  lemma {:induction false} Recover(env: Environment, l: Ledger, event: Event) returns (c: Command)
    requires Reachable(env, l) && l.row.policyRevision in env.policies && Room(env, l) && Recovery(event)
    requires env.Valid() && Projected(l) && Recoverable(env, l, event)
    ensures c.event == event && Accepts(env, l, c)
  {
    hide Reachable, Recoverable, Prepare, StoreRule, Entered, Accepts, EffectivePolicy, AuthorizedInput, RecoveryState,
         FalseTakeover, MisreadFeedback, Projected, Raises, Room, Recovery;
    var to := 0;
    if event.RemediationBudgetExtended? {
      to := Raise(env, l);
    }
    var limit := if to in env.policies then env.policies[to].maxRounds else 0;
    RecoveryBound(env, l, event);
    var effective := Effective(env, l);
    RecoveryEnters(env, l, event, Context(l.row.round, effective.maxRounds, effective.mergeMode, None));
    AuthorizationPrepares(env, l, event, RecoveryState(event), to, limit, effective);
    if event.FollowUpRecoveryAuthorized? {
      Misread(env, l);
      MisreadLineage(env, l);
    }
    RuleAccepts(env, l, event, to, limit);
    AuthorizationAccepted(env, l, event, to, limit, effective);
    c := Authorization(l, event, to, limit);
  }

  /** An accepted recovery keeps the plan, the pull request and the head: infrastructure repairs spend a round on
      building again, misread feedback is planned again, and the others observe CI again. */
  lemma RecoveryLands(env: Environment, l: Ledger, c: Command, l': Ledger)
    requires env.Valid() && Projected(l) && l.row.policyRevision in env.policies && Recovery(c.event)
    requires Apply(env.policies, l, env.policies[l.row.policyRevision], c) == Ok(l')
    ensures l'.row.plan == l.row.plan && l'.row.pr == l.row.pr && l'.row.head == l.row.head
    ensures if c.event.InfrastructureRecoveryAuthorized? then
              l'.row.state.Remediating? && l'.row.round == l.row.round + 1
            else
              l'.row.round == l.row.round && l'.row.state == if c.event.FollowUpRecoveryAuthorized? then Planning
                                                             else WaitingCi
    ensures l'.row.policyRevision > l.row.policyRevision <==> c.event.RemediationBudgetExtended?
    ensures l'.row.policyRevision >= l.row.policyRevision
  {
    hide Apply, Granted, Emits, StoreRule, Entered;
    ApplyAppends(env, l, c, l');
    RecoveryTarget(l.row.state, c.event, ContextOf(env, l, c), Last(l'.history).next);
    if c.event.RemediationBudgetExtended? {
      ExtensionRebinds(env, l, c, l');
    }
  }

  lemma RecoveryTarget(state: CaseState, event: Event, ctx: Context, next: CaseState)
    requires Entered(next, state, event, ctx) && Recovery(event)
    ensures next == if event.InfrastructureRecoveryAuthorized? then Remediating
                    else if event.FollowUpRecoveryAuthorized? then Planning else WaitingCi
    ensures event.InfrastructureRecoveryAuthorized? ==> !state.Remediating?
  {
  }

  lemma ExtensionRebinds(env: Environment, l: Ledger, c: Command, l': Ledger)
    requires c.event.RemediationBudgetExtended? && l.row.policyRevision in env.policies
    requires Apply(env.policies, l, env.policies[l.row.policyRevision], c) == Ok(l')
    ensures l'.row.policyRevision > l.row.policyRevision
  {
    hide Transition, Granted;
  }

  predicate Single(event: Event) { event.NativeReviewRetryAuthorized? || event.ReviewCoordinationRecoveryAuthorized? }

  /** In every run each of these recoveries happens at most once. */
  lemma RecoveredOnce(env: Environment, l: Ledger, event: Event, i: nat, j: nat)
    requires Reachable(env, l) && i < j < |l.history| && Single(event)
    ensures !(l.history[i].Is(event) && l.history[j].Is(event))
  {
    hide Inv, Step, Initial, Single;
    var ledgers: seq<Ledger>, actions: seq<Action> :| Run(env, ledgers, actions) && l == ledgers[|actions|];
    var n := |actions|;
    HistoryGrows(env, ledgers, actions, n, n);
    HistoryGrows(env, ledgers, actions, j - 1, n);
    HistoryGrows(env, ledgers, actions, j, n);
    RunKeeps(env, ledgers, actions, j - 1);
    assert Step(env, ledgers[j - 1], actions[j - 1], ledgers[j]);
    if l.history[i].Is(event) && l.history[j].Is(event) {
      assert ledgers[j - 1].history[i] == l.history[i];
      SingleStep(env, ledgers[j - 1], actions[j - 1], ledgers[j], event, i);
    }
  }

  lemma SingleStep(env: Environment, m: Ledger, a: Action, l: Ledger, event: Event, i: nat)
    requires Inv(env, m) && Step(env, m, a, l) && Single(event) && i < |m.history| && m.history[i].Is(event)
    ensures l.history != [] && !Last(l.history).Is(event)
  {
    hide Fenced, Collecting, Chain, Emits, Emitted, ReviewersDispatched, MergesGuarded, LoopGuarded, RoundsCounted,
         Granted, Apply, Allowed, Dispatchable, Entered, ParkedBy;
    if a.Submit? {
      StepAppends(env, m, a, l);
      if Last(l.history).Is(event) {
        RecoveryNeeds(env, m, a.command, l);
      }
    }
  }
}
