/** When the ledger takes a command, and what its refusals mean. */
module Refusals {
  import opened Prelude
  import opened StateMachine
  import opened Ledger
  import opened Workflow
  import opened Runs
  import opened Recoveries
  import opened Liveness

  // ---- the store's own rules ----

  /** What the operator's command for a recovery carries. */
  predicate Authorizes(env: Environment, l: Ledger, c: Command)
    requires l.row.policyRevision in env.policies
  {
    c.payload.audited && c.run.None? && (c.acceptedPlan.None? || c.acceptedPlan == Some(l.row.plan)) &&
    (c.event.RemediationBudgetExtended? ==>
       c.payload.policyRevision.Some? && c.payload.policyRevision.value in env.policies &&
       Raises(env, l.row, c.payload.policyRevision.value) &&
       c.payload.newLimit == Some(env.policies[c.payload.policyRevision.value].maxRounds))
  }

  /** A resume of a parked case names an accepted policy that is not older, and grants at most ten rounds. */
  predicate Resumes(env: Environment, l: Ledger, c: Command) {
    l.row.state.Parked() && c.payload.policyRevision.Some? && c.payload.policyRevision.value in env.policies &&
    c.payload.policyRevision.value >= l.row.policyRevision && c.payload.granted.Some? && c.payload.granted.value <= 10
  }

  ghost predicate Stored(env: Environment, l: Ledger, c: Command)
    requires l.row.policyRevision in env.policies
  {
    (Recovery(c.event) ==> Recoverable(env, l, c.event) && Authorizes(env, l, c)) &&
    (c.event.HumanResumed? ==> Resumes(env, l, c))
  }

  // ---- the meaning of every refusal ----

  function Deciding(l: Ledger, policy: CasePolicy, c: Command): Context {
    Context(c.round, policy.maxRounds + Granted(l.history), policy.mergeMode,
            if c.event.HumanResumed? then c.payload.resumeTarget else None)
  }

  ghost predicate NoWay(l: Ledger, policy: CasePolicy, c: Command) {
    forall next :: !Entered(next, c.state, c.event, Deciding(l, policy, c))
  }

  /** The reason an error states holds of the command. */
  ghost predicate Holds(env: Environment, l: Ledger, c: Command, e: Error)
    requires l.row.policyRevision in env.policies
  {
    var policy := env.policies[l.row.policyRevision];
    match e
    case PayloadNotObject => !c.payload.isObject
    case IncompleteBinding => (c.pr.Some? && c.head.None?) || (c.pr.None? && c.head.Some?) ||
                              (c.nextPr.Some? && c.nextHead.None?)
    case ProjectionMismatch =>
      c.revision == l.row.revision &&
      !(c.state == l.row.state && c.round == l.row.round && c.plan == l.row.plan && c.pr == l.row.pr &&
        c.head == l.row.head && c.policyRevision == l.row.policyRevision)
    case StaleRevision => c.revision != l.row.revision
    case PolicyRevisionUnavailable => c.policyRevision != l.row.policyRevision
    case BudgetOverflow => policy.maxRounds + Granted(l.history) > U32_MAX
    case StateRevisionExhausted => c.revision >= U64_MAX
    case ResumeWithoutTarget => c.event.HumanResumed? && c.payload.resumeTarget.None?
    case Core(TerminalState(state)) => state == c.state && state.Terminal() && NoWay(l, policy, c)
    case Core(InvalidTransition(state, event)) =>
      state == c.state && event == c.event && !state.Terminal() && NoWay(l, policy, c)
    case PlanRequired => c.event.Proceed? && c.acceptedPlan.None?
    case PlanNotNext =>
      c.acceptedPlan.Some? && c.acceptedPlan.value != if c.plan < U32_MAX then c.plan + 1 else U32_MAX
    case RoundExhausted =>
      c.round >= U32_MAX && !c.state.Remediating? && !c.event.HumanResumed? &&
      Entered(Remediating, c.state, c.event, Deciding(l, policy, c))
    case HeadRequired => c.event.ReviewReady? && c.nextHead.None?
    case PullRequestRequired => c.event.ReviewReady? && c.pr.None? && c.nextPr.None?
    case PullRequestReplaced => c.event.ReviewReady? && c.pr.Some? && c.nextPr.Some? && c.pr != c.nextPr
    case UnexpectedHead => !c.event.ReviewReady? && (c.nextPr.Some? || c.nextHead.Some?)
    case InvalidEvent => !Stored(env, l, c)
    case _ => false
  }

  /** Preparing a command succeeds exactly when none of its own reasons holds. */
  lemma PrepareRefuses(env: Environment, l: Ledger, c: Command)
    requires env.Valid() && l.row.policyRevision in env.policies
    ensures
      var policy := env.policies[l.row.policyRevision];
      var r := Prepare(policy.(maxRounds := policy.maxRounds + Granted(l.history)), c);
      (r.Err? ==> Holds(env, l, c, r.error) && !r.error.InvalidEvent?) &&
      (r.Ok? ==> forall e: Error :: Holds(env, l, c, e) ==>
         e.PayloadNotObject? || e.IncompleteBinding? || e.ProjectionMismatch? || e.StaleRevision? ||
         e.BudgetOverflow? || e.InvalidEvent?)
  {
    hide Transition, Entered, Granted, Stored;
    var policy := env.policies[l.row.policyRevision];
    var ctx := Deciding(l, policy, c);
    forall next ensures Transition(c.state, c.event, ctx).Ok? && Transition(c.state, c.event, ctx).value.next == next
                        <==> Entered(next, c.state, c.event, ctx)
    {
      TransitionExact(c.state, c.event, ctx, next);
    }
    if Transition(c.state, c.event, ctx).Err? {
      TransitionRefuses(c.state, c.event, ctx);
    }
  }

  /** The fields a prepared command hands to the store. */
  predicate Carried(l: Ledger, c: Command, input: TransitionInput, ctx: Context) {
    input.event == c.event && input.payload == c.payload && input.run == c.run && input.revision == c.revision &&
    input.plan == (if c.acceptedPlan.Some? then c.acceptedPlan.value else l.row.plan) &&
    (!c.event.ReviewReady? ==> input.pr == l.row.pr && input.head == l.row.head) &&
    input.round == l.row.round + (if input.next.Remediating? && !l.row.state.Remediating? &&
                                  !c.event.HumanResumed? then 1 else 0) &&
    Entered(input.next, l.row.state, c.event, ctx) && input.effects == Emits(c.event, input.next)
  }

  lemma RecoveryEmits(event: Event, next: CaseState)
    requires Recovery(event)
    requires next == if event.InfrastructureRecoveryAuthorized? then Remediating
                     else if event.FollowUpRecoveryAuthorized? then Planning else WaitingCi
    ensures Emits(event, next) == if event.InfrastructureRecoveryAuthorized? then [DispatchBuilder]
                                  else if event.FollowUpRecoveryAuthorized? then [DispatchPlanner] else [ObserveCi]
  {
  }

  lemma RecoveryStored(env: Environment, l: Ledger, c: Command, input: TransitionInput, ctx: Context)
    requires env.Valid() && Projected(l) && l.row.policyRevision in env.policies && Recovery(c.event)
    requires Carried(l, c, input, ctx) && Recoverable(env, l, c.event) && Authorizes(env, l, c)
    requires l.row.pr.Some? && l.row.head.Some? && l.row.plan >= 1
    requires c.event.FollowUpRecoveryAuthorized? ==> FalseTakeover(l.history, l.row)
    ensures StoreRule(env.policies, l, input).Some?
  {
    hide Entered, Emits, FalseTakeover, MisreadFeedback;
    RecoveryTarget(l.row.state, c.event, ctx, input.next);
    RecoveryEmits(c.event, input.next);
  }

  lemma RecoveryAuthorized(env: Environment, l: Ledger, c: Command, input: TransitionInput, ctx: Context)
    requires env.Valid() && Projected(l) && l.row.policyRevision in env.policies && Recovery(c.event)
    requires Carried(l, c, input, ctx) && StoreRule(env.policies, l, input).Some?
    ensures Authorizes(env, l, c)
  {
    hide Entered, Emits, FalseTakeover, LastIs, Has;
  }

  /** The store takes a prepared event exactly when its rule holds of the case and the command. */
  lemma {:induction false} StoredExactly(env: Environment, l: Ledger, c: Command, input: TransitionInput, ctx: Context)
    requires Reachable(env, l) && l.row.policyRevision in env.policies && Carried(l, c, input, ctx)
    ensures StoreRule(env.policies, l, input).Some? <==> Stored(env, l, c)
  {
    hide Reachable, Carried, StoreRule, Recoverable, Authorizes, Projected;
    RecoveryGround(env, l);
    if Recovery(c.event) {
      CarriedEvent(l, c, input, ctx);
      if StoreRule(env.policies, l, input).Some? {
        RuleNeeds(env, l, input);
        RecoveryAuthorized(env, l, c, input, ctx);
      }
      if Recoverable(env, l, c.event) && Authorizes(env, l, c) {
        RecoveryBound(env, l, c.event);
        if c.event.FollowUpRecoveryAuthorized? {
          Misread(env, l);
          MisreadLineage(env, l);
        }
        RecoveryStored(env, l, c, input, ctx);
      }
    } else {
      OrdinaryStored(env, l, c, input, ctx);
    }
  }

  lemma CarriedEvent(l: Ledger, c: Command, input: TransitionInput, ctx: Context)
    requires Carried(l, c, input, ctx)
    ensures input.event == c.event
  {
  }

  lemma OrdinaryStored(env: Environment, l: Ledger, c: Command, input: TransitionInput, ctx: Context)
    requires Carried(l, c, input, ctx) && !Recovery(c.event)
    ensures StoreRule(env.policies, l, input).Some? <==> (c.event.HumanResumed? ==> Resumes(env, l, c))
  {
    hide Entered, Emits;
  }

  lemma PreparedCarries(l: Ledger, policy: CasePolicy, c: Command, input: TransitionInput)
    requires Prepare(policy.(maxRounds := policy.maxRounds + Granted(l.history)), c) == Ok(input)
    ensures input.revision == c.revision && (Matches(l.row, c) ==> Carried(l, c, input, Deciding(l, policy, c)))
  {
    hide Prepare, Granted, Entered, Emits;
    PrepareKeeps(policy.(maxRounds := policy.maxRounds + Granted(l.history)), c, input);
  }

  lemma {:induction false} RefusalHolds(env: Environment, l: Ledger, c: Command)
    requires Reachable(env, l) && l.row.policyRevision in env.policies
    requires Apply(env.policies, l, env.policies[l.row.policyRevision], c).Err?
    ensures Holds(env, l, c, Apply(env.policies, l, env.policies[l.row.policyRevision], c).error)
  {
    hide Reachable, Prepare, StoreRule, Stored, Granted, Transition, NoWay, Entered, Carried, Projected;
    RecoveryGround(env, l);
    PrepareRefuses(env, l, c);
    var policy := env.policies[l.row.policyRevision];
    var effective := policy.(maxRounds := policy.maxRounds + Granted(l.history));
    if Prepare(effective, c).Ok? {
      var input := Prepare(effective, c).value;
      PreparedCarries(l, policy, c, input);
      assert !Holds(env, l, c, StateRevisionExhausted);
      if Matches(l.row, c) {
        StoredExactly(env, l, c, input, Deciding(l, policy, c));
      }
    }
  }

  lemma {:induction false} AcceptedHolds(env: Environment, l: Ledger, c: Command, e: Error)
    requires Reachable(env, l) && l.row.policyRevision in env.policies
    requires Apply(env.policies, l, env.policies[l.row.policyRevision], c).Ok?
    ensures !Holds(env, l, c, e)
  {
    hide Reachable, Prepare, StoreRule, Stored, Granted, Transition, NoWay, Entered, Carried, Projected;
    RecoveryGround(env, l);
    PrepareRefuses(env, l, c);
    var policy := env.policies[l.row.policyRevision];
    var effective := policy.(maxRounds := policy.maxRounds + Granted(l.history));
    var l' := Apply(env.policies, l, policy, c).value;
    ApplyFactors(env.policies, l, policy, c, l');
    var input := Prepare(effective, c).value;
    PreparedCarries(l, policy, c, input);
    StoredExactly(env, l, c, input, Deciding(l, policy, c));
  }

  /** A command is accepted on a reachable case exactly when no reason against it holds, and a refusal names a reason
      that does. */
  lemma RefusedExactly(env: Environment, l: Ledger, c: Command)
    requires Reachable(env, l) && l.row.policyRevision in env.policies
    ensures
      var r := Apply(env.policies, l, env.policies[l.row.policyRevision], c);
      (r.Ok? <==> forall e: Error :: !Holds(env, l, c, e)) && (r.Err? ==> Holds(env, l, c, r.error))
  {
    hide Reachable, Apply, Holds;
    if Apply(env.policies, l, env.policies[l.row.policyRevision], c).Ok? {
      forall e: Error ensures !Holds(env, l, c, e) {
        AcceptedHolds(env, l, c, e);
      }
    } else {
      RefusalHolds(env, l, c);
    }
  }
}
