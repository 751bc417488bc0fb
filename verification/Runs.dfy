/** The theorems over whole runs of a case. */
module Runs {
  import opened Prelude
  import opened StateMachine
  import opened Ledger
  import opened Workflow
  import opened WorkflowSafety
  import opened Readiness
  import opened Liveness
  import C = Contracts
  import R = Reviews

  predicate Merges(r: Record) { BeginMerge in r.effects || ExecuteMerge in r.effects }

  /** Only a guarded policy ever started or executed a merge. */
  ghost predicate MergesGuarded(env: Environment, history: seq<Record>) {
    forall i :: 0 <= i < |history| && Merges(history[i]) ==>
      history[i].policyRevision in env.policies && env.policies[history[i].policyRevision].mergeMode.Guarded?
  }

  /** An escalated case: its parking record says whether the loop guard parked it. */
  ghost predicate LoopGuarded(env: Environment, l: Ledger) {
    l.row.state.Escalated? && l.history != [] && l.row.policyRevision in env.policies ==>
      var park := Last(l.history);
      (RoundsExhausted(park, Escalated) <==> ParkedByLoopGuard(l, park)) &&
      (RoundsExhausted(park, Escalated) ==> l.row.round >= Budget(env, l))
  }

  ghost predicate Inv(env: Environment, l: Ledger) {
    env.Valid() && Projected(l) && l.row.policyRevision in env.policies &&
    Dispatchable(l) && Fenced(l.history) && RoundsCounted(l) && LoopGuarded(env, l) &&
    Collecting(env, l) && Chain(env, l) && Emitted(env, l) && ReviewersDispatched(l) && MergesGuarded(env, l.history)
  }

  lemma RecordedReviewKeeps(env: Environment, l: Ledger, c: Command, job: Option<Job>, l': Ledger, r: Record)
    requires Projected(l) && Allowed(env, l, c, job) && Appends(env, l, c, l', r) && r.Is(ReviewRecorded)
    ensures SameGeneration(l.row, l'.row) && r.policyRevision == l.row.policyRevision
  {
    hide Emits, ReviewEvent, Dispatched, CurrentGeneration;
  }

  lemma FencedStep(env: Environment, l: Ledger, c: Command, job: Option<Job>, l': Ledger, r: Record)
    requires Projected(l) && Fenced(l.history) && Allowed(env, l, c, job) && Appends(env, l, c, l', r)
    ensures Fenced(l'.history)
  {
    hide Emits, Entered, Allowed, NextFields, PolicyKept, ContextOf;
    forall i | 1 <= i < |l'.history| && l'.history[i].Is(ReviewRecorded)
      ensures SameGeneration(RowAt(l'.history, i), RowAt(l'.history, i + 1)) &&
              l'.history[i].policyRevision == l'.history[i - 1].policyRevision
    {
      if i < |l.history| {
        assert l'.history[i] == l.history[i] && l'.history[i - 1] == l.history[i - 1];
        assert SameGeneration(RowAt(l.history, i), RowAt(l.history, i + 1));
      } else {
        RecordedReviewKeeps(env, l, c, job, l', r);
        assert l'.history[i] == r && l'.history[i - 1] == Last(l.history);
        assert l.row == RowAt(l'.history, i);
        assert l'.row == RowAt(l'.history, i + 1);
      }
    }
  }

  lemma MergesStep(env: Environment, l: Ledger, c: Command, l': Ledger, r: Record)
    requires MergesGuarded(env, l.history) && Appends(env, l, c, l', r)
    ensures MergesGuarded(env, l'.history)
  {
  }

  lemma LoopGuardStep(env: Environment, l: Ledger, c: Command, l': Ledger, r: Record)
    requires Projected(l) && Appends(env, l, c, l', r) && RoundsCounted(l)
    ensures LoopGuarded(env, l')
  {
    if l'.row.state.Escalated? {
      ExhaustionStep(env, l, c, l', r);
      BudgetStep(env, l, c, l', r);
      assert Last(l'.history) == r;
    }
  }

  lemma SubmitKeeps(env: Environment, l: Ledger, a: Action, l': Ledger)
    requires Inv(env, l) && Step(env, l, a, l') && a.Submit?
    ensures Inv(env, l')
  {
    hide Apply, Dispatchable, Fenced, RoundsCounted, LoopGuarded, Collecting, Chain, Emitted, ReviewersDispatched,
         MergesGuarded, Allowed;
    hide NextFields, Decided, Recovery, DataPresent;
    StepAppends(env, l, a, l');
    var c, r := a.command, Last(l'.history);
    ParkingGuarded(env, l, c, a.job);
    if c.event.HumanResumed? {
      ResumeStep(env, l, c, l', r);
    } else {
      DispatchableStep(env, l, c, l', r);
    }
    FencedStep(env, l, c, a.job, l', r);
    BudgetStep(env, l, c, l', r);
    LoopGuardStep(env, l, c, l', r);
    CollectingStep(env, l, c, a.job, l', r);
    WaitingCiBound(l);
    ChainStep(env, l, c, a.job, l', r);
    EmittedStep(env, l, c, l', r);
    ReviewersStep(env, l, c, l', r);
    MergesStep(env, l, c, l', r);
  }

  lemma ParkingGuarded(env: Environment, l: Ledger, c: Command, job: Option<Job>)
    requires Allowed(env, l, c, job)
    ensures ParkingGuards(l, c)
  {
    hide FromReview, ResumeChoice;
  }

  lemma WaitingCiBound(l: Ledger)
    requires Dispatchable(l)
    ensures l.row.state.WaitingCi? ==> l.row.head.Some?
  {
  }

  // ---- a reauthorized case starts planning again ----

  lemma ReauthorizeKeeps(env: Environment, l: Ledger, a: Action, l': Ledger)
    requires Inv(env, l) && Step(env, l, a, l') && a.Reauthorize?
    ensures Inv(env, l')
  {
    hide Collecting, Chain, Fenced, MergesGuarded, ParkedByLoopGuard, CohortRuns, Entered, Apply, Allowed, Emits,
         Granted, ResumeTarget, RoundsCounted, LoopGuarded, ReviewersDispatched;
    var r := Last(l'.history);
    assert l'.history == l.history + [r] && l'.history[..|l'.history| - 1] == l.history;
    PlanningChain(env, l, l', r);
    PlanningFenced(env, l, l', r);
    PlanningLoop(env, l, l', r);
  }

  lemma PlanningLoop(env: Environment, l: Ledger, l': Ledger, r: Record)
    requires l'.history == l.history + [r] && r.kind.Reauthorized? && r.next.Planning? && l'.row.state.Planning? &&
             l'.row.round == l.row.round
    requires RoundsCounted(l)
    ensures RoundsCounted(l') && LoopGuarded(env, l') && ReviewersDispatched(l')
  {
  }

  lemma PlanningChain(env: Environment, l: Ledger, l': Ledger, r: Record)
    requires l'.history == l.history + [r] && r.kind.Reauthorized? && l'.row.state.Planning? &&
             l'.row.head == l.row.head
    requires Chain(env, l)
    ensures Chain(env, l') && Collecting(env, l')
  {
    hide JoinedAt, CohortRuns, CohortStart, Track;
    TrackAppend(l.history, r);
  }

  lemma PlanningFenced(env: Environment, l: Ledger, l': Ledger, r: Record)
    requires l'.history == l.history + [r] && r.kind.Reauthorized? && r.effects == [DispatchPlanner]
    requires Fenced(l.history) && MergesGuarded(env, l.history)
    ensures Fenced(l'.history) && MergesGuarded(env, l'.history)
  {
    forall i | 1 <= i < |l'.history| && l'.history[i].Is(ReviewRecorded)
      ensures SameGeneration(RowAt(l'.history, i), RowAt(l'.history, i + 1)) &&
              l'.history[i].policyRevision == l'.history[i - 1].policyRevision
    {
      assert l'.history[i] == l.history[i] && l'.history[i - 1] == l.history[i - 1];
      assert SameGeneration(RowAt(l.history, i), RowAt(l.history, i + 1));
    }
  }

  lemma InitialHolds(env: Environment, l: Ledger)
    requires env.Valid() && Initial(env, l)
    ensures Inv(env, l)
  {
  }

  lemma {:induction false} RunKeeps(env: Environment, ledgers: seq<Ledger>, actions: seq<Action>, i: nat)
    requires Run(env, ledgers, actions) && i <= |actions|
    ensures Inv(env, ledgers[i])
  {
    hide Inv, Step, Initial;
    if i == 0 {
      InitialHolds(env, ledgers[0]);
    } else {
      RunKeeps(env, ledgers, actions, i - 1);
      assert Step(env, ledgers[i - 1], actions[i - 1], ledgers[i]);
      if actions[i - 1].Submit? {
        SubmitKeeps(env, ledgers[i - 1], actions[i - 1], ledgers[i]);
      } else {
        ReauthorizeKeeps(env, ledgers[i - 1], actions[i - 1], ledgers[i]);
      }
    }
  }

  // ---- the theorems ----

  ghost predicate Reachable(env: Environment, l: Ledger) {
    exists ledgers, actions :: Run(env, ledgers, actions) && l == ledgers[|actions|]
  }

  lemma ReachableInv(env: Environment, l: Ledger)
    requires Reachable(env, l)
    ensures Inv(env, l)
  {
    hide Inv, Step, Initial;
    var ledgers, actions :| Run(env, ledgers, actions) && l == ledgers[|actions|];
    RunKeeps(env, ledgers, actions, |actions|);
  }

  /** Every reachable case is dispatchable: no effect it emitted misses its plan, pull request or head,
      and a parked case resumes into a state whose data is present. */
  lemma EveryCaseDispatchable(env: Environment, l: Ledger, effect: Effect, w: R.Workflow)
    requires Reachable(env, l)
    ensures l.row.pr.Some? == l.row.head.Some? && (l.row.head.Some? ==> l.row.plan >= 1) &&
            DataPresent(l.row.state, l.row)
    ensures l.history != [] && effect in Last(l.history).effects ==> ScheduleEffect(effect, l.row, w).Ok?
    ensures l.row.state.Parked() ==>
              ParkingRecord(l.history, l.row.state).Some? &&
              DataPresent(ResumeTarget(ParkingRecord(l.history, l.row.state).value), l.row)
  {
    hide Reachable, Chain, Collecting, Fenced, MergesGuarded, LoopGuarded, RoundsCounted, CohortRuns,
         ReviewersDispatched;
    ReachableInv(env, l);
  }

  /** A case in SHADOW_READY (or ready to merge) has, since the publication that bound its current head,
      a CI acceptance, then a join in which every required reviewer approved exactly that head, and
      the final preflight accepted immediately before READY. */
  lemma ReadyIsEarned(env: Environment, l: Ledger)
    requires Reachable(env, l) && (l.row.state.ShadowReady? || l.row.state.ReadyToMerge?)
    ensures l.row.head.Some?
    ensures exists b: nat, ci: nat, j: nat ::
              BoundAt(l.history, b, l.row.head) && CiAt(l.history, b, ci) &&
              JoinedAt(env, l.history, ci, j, l.row.head) &&
              j < |l.history| - 2
    ensures Preflighted(l.history)
  {
    hide Reachable, Collecting, Fenced, MergesGuarded, LoopGuarded, RoundsCounted, CohortRuns, ReviewersDispatched,
         Dispatchable, Emitted, Track;
    ReachableInv(env, l);
    var p := Track(l.history);
    JoinBefore(env, l.history, p.ci.value, p.join.value, l.row.head);
    assert BoundAt(l.history, p.bound.value, l.row.head) && CiAt(l.history, p.bound.value, p.ci.value);
  }

  lemma JoinBefore(env: Environment, history: seq<Record>, ci: nat, j: nat, head: Option<Sha>)
    requires JoinedAt(env, history, ci, j, head) && Preflighted(history)
    ensures j < |history| - 2
  {
  }

  /** Under shadow policies no run ever begins or executes a merge. */
  lemma ShadowNeverMerges(env: Environment, l: Ledger, i: nat)
    requires Reachable(env, l) && i < |l.history|
    requires forall p :: p in env.policies ==> env.policies[p].mergeMode.Shadow?
    ensures BeginMerge !in l.history[i].effects && ExecuteMerge !in l.history[i].effects
  {
    hide Reachable, Chain, Collecting, Fenced, LoopGuarded, RoundsCounted, CohortRuns, ReviewersDispatched,
         Dispatchable, Emitted;
    ReachableInv(env, l);
    assert !Merges(l.history[i]);
  }

  /** An accepted generation is the current one: late results of another plan, head or round are refused. */
  lemma AcceptedJobIsCurrent(env: Environment, l: Ledger, frozen: nat, reviewer: bool)
    requires Reachable(env, l) && 1 <= frozen <= |l.history| && CurrentGeneration(l, frozen, reviewer)
    ensures SameGeneration(RowAt(l.history, frozen), l.row)
  {
    hide Reachable, Chain, Collecting, LoopGuarded, RoundsCounted, CohortRuns, ReviewersDispatched, Dispatchable,
         Emitted, MergesGuarded, Fenced;
    ReachableInv(env, l);
    GenerationFence(l, frozen, reviewer);
  }

  /** An accepted review is always of the current plan, pull request, exact head and round, by the reviewer its job
      was dispatched to. */
  lemma AcceptedReviewIsCurrent(env: Environment, l: Ledger, c: Command, job: Option<Job>)
    requires Reachable(env, l) && FromReview(env, l, c, job)
    ensures
      var review := c.run.value.review;
      review.plan == l.row.plan && l.row.pr == Some(review.pr) && l.row.head == Some(review.head) &&
      review.round == (if l.row.round < U32_MAX then l.row.round + 1 else U32_MAX) &&
      job.value.reviewer == Some(review.reviewer) && job.value.role == review.role
  {
    hide Reachable, Chain, Collecting, LoopGuarded, RoundsCounted, CohortRuns, ReviewersDispatched, Dispatchable,
         Emitted, MergesGuarded, Fenced;
    ReachableInv(env, l);
    AcceptedReviewKeyed(env, l, c, job);
  }

  /** The ledger alone would let a recorded review move the generation: exactly with an accepted plan below the
      saturated version. */
  lemma LedgerFence(env: Environment, l: Ledger, c: Command, l': Ledger)
    requires env.Valid() && Projected(l) && l.row.policyRevision in env.policies && c.event.ReviewRecorded?
    requires Apply(env.policies, l, env.policies[l.row.policyRevision], c) == Ok(l')
    ensures SameGeneration(l.row, l'.row) <==> c.acceptedPlan.None? || l.row.plan == U32_MAX
  {
  }

  // ---- the loop budget ----

  function Maximum(env: Environment, l: Ledger): nat
    requires l.row.policyRevision in env.policies
  {
    env.policies[l.row.policyRevision].maxRounds
  }

  /** The policy maximum is never lowered along the run. */
  ghost predicate NeverLowered(env: Environment, ledgers: seq<Ledger>) {
    forall i {:trigger ledgers[i]} :: 0 <= i < |ledgers| - 1 ==>
      ledgers[i].row.policyRevision in env.policies && ledgers[i + 1].row.policyRevision in env.policies &&
      env.policies[ledgers[i].row.policyRevision].maxRounds <= env.policies[ledgers[i + 1].row.policyRevision].maxRounds
  }

  /** Between any two points of a run the round rises by the non-resume entries into REMEDIATING. */
  lemma RoundsConserved(env: Environment, ledgers: seq<Ledger>, actions: seq<Action>, i: nat, j: nat)
    requires Run(env, ledgers, actions) && i <= j <= |actions|
    ensures ledgers[j].row.round - ledgers[i].row.round == Entries(ledgers[j].history) - Entries(ledgers[i].history)
  {
    hide Step, Initial, Dispatchable, Fenced, LoopGuarded, Collecting, Chain, Emitted, ReviewersDispatched,
         MergesGuarded, Projected, Entries;
    RunKeeps(env, ledgers, actions, i);
    RunKeeps(env, ledgers, actions, j);
  }

  lemma {:induction false} BudgetNeverExceeded(env: Environment, ledgers: seq<Ledger>, actions: seq<Action>, i: nat)
    requires Run(env, ledgers, actions) && i <= |actions| && NeverLowered(env, ledgers)
    ensures ledgers[i].row.policyRevision in env.policies && ledgers[i].row.round <= Budget(env, ledgers[i])
  {
    hide Step, Inv, Entries, Granted;
    RunKeeps(env, ledgers, actions, i);
    if i == 0 {
    } else {
      BudgetNeverExceeded(env, ledgers, actions, i - 1);
      RunKeeps(env, ledgers, actions, i - 1);
      assert Step(env, ledgers[i - 1], actions[i - 1], ledgers[i]);
      BudgetOfStep(env, ledgers[i - 1], actions[i - 1], ledgers[i]);
    }
  }

  lemma BudgetOfStep(env: Environment, l: Ledger, a: Action, l': Ledger)
    requires Inv(env, l) && Step(env, l, a, l') && l'.row.policyRevision in env.policies
    requires env.policies[l.row.policyRevision].maxRounds <= env.policies[l'.row.policyRevision].maxRounds
    requires l.row.round <= Budget(env, l)
    ensures l'.row.round <= Budget(env, l')
  {
    hide Dispatchable, Fenced, LoopGuarded, Collecting, Chain, Emitted, ReviewersDispatched, MergesGuarded, Apply,
         Allowed;
    if a.Submit? {
      StepAppends(env, l, a, l');
      BudgetStep(env, l, a.command, l', Last(l'.history));
    } else {
      assert l'.history[..|l'.history| - 1] == l.history;
    }
  }

  /** `rounds_exhausted` holds of a reachable parked case exactly when the loop guard parked it. */
  lemma ExhaustionIsLoopGuard(env: Environment, l: Ledger)
    requires Reachable(env, l) && l.row.state.Escalated?
    ensures ParkingRecord(l.history, Escalated).Some?
    ensures
      var park := ParkingRecord(l.history, Escalated).value;
      (RoundsExhausted(park, Escalated) <==> ParkedByLoopGuard(l, park)) &&
      (RoundsExhausted(park, Escalated) ==> l.row.policyRevision in env.policies && l.row.round >= Budget(env, l))
  {
    hide Reachable, Fenced, Collecting, Chain, Emitted, ReviewersDispatched, MergesGuarded, ParkedByLoopGuard, Granted,
         ResumeTarget;
    ReachableInv(env, l);
  }

  /** Resuming a case that the loop guard parked leaves exactly the three granted rounds, plus
      whatever the policy maximum rose by. */
  lemma ResumeLeavesThree(env: Environment, ledgers: seq<Ledger>, actions: seq<Action>, i: nat)
    requires Run(env, ledgers, actions) && NeverLowered(env, ledgers) && i < |actions|
    requires actions[i].Submit? && actions[i].command.event.HumanResumed?
    requires ledgers[i].row.state.Escalated? && ledgers[i].history != [] &&
             RoundsExhausted(Last(ledgers[i].history), Escalated)
    ensures
      var l, l' := ledgers[i], ledgers[i + 1];
      l.row.policyRevision in env.policies && l'.row.policyRevision in env.policies &&
      Budget(env, l') - l'.row.round ==
        3 + Maximum(env, l') - Maximum(env, l)
  {
    hide Inv, Step, Initial, Granted;
    RunKeeps(env, ledgers, actions, i);
    BudgetNeverExceeded(env, ledgers, actions, i);
    assert Step(env, ledgers[i], actions[i], ledgers[i + 1]);
    ResumeGrants(env, ledgers[i], actions[i], ledgers[i + 1]);
  }

  lemma ResumeGrants(env: Environment, l: Ledger, a: Action, l': Ledger)
    requires Inv(env, l) && Step(env, l, a, l') && a.Submit? && a.command.event.HumanResumed?
    requires l.row.state.Escalated? && RoundsExhausted(Last(l.history), Escalated) && l.row.round <= Budget(env, l)
    ensures l'.row.policyRevision in env.policies
    ensures Budget(env, l') - l'.row.round ==
              RESUME_GRANTED_ROUNDS + Maximum(env, l') - Maximum(env, l)
  {
    hide Fenced, Collecting, Chain, Emitted, ReviewersDispatched, MergesGuarded, ParkedByLoopGuard, Granted, Entries,
         Apply, ResumeTarget, Entered, Emits;
    StepAppends(env, l, a, l');
    BudgetStep(env, l, a.command, l', Last(l'.history));
  }

  // ---- the join and its publication ----

  lemma JoinedFrom(env: Environment, l: Ledger, c: Command, l': Ledger, r: Record)
    requires Appends(env, l, c, l', r) && (c.event.ReviewsApproved? || c.event.RequestChanges?)
    ensures l.row.state.Reviewing?
  {
  }

  /** Whenever a review completes the join, `joined_reviews` succeeds on the next row. */
  lemma JoinAlwaysPublishes(env: Environment, l: Ledger, c: Command, job: Option<Job>, l': Ledger)
    requires Reachable(env, l) && Step(env, l, Submit(c, job), l') &&
             (c.event.ReviewsApproved? || c.event.RequestChanges?)
    ensures l'.row.policyRevision in env.workflows && l'.row.pr.Some? && l'.row.head.Some?
    ensures
      var candidates := R.Candidates(CohortRuns(l'.history), l'.row.plan, l'.row.pr.value, l'.row.head.value);
      var top := R.AtRound(candidates, R.TopRound(candidates));
      candidates != [] && R.Joinable(env.workflows[l'.row.policyRevision], top) &&
      (c.event.ReviewsApproved? <==> R.Unanimous(top))
  {
    hide Reachable, Fenced, Chain, Emitted, ReviewersDispatched, MergesGuarded, LoopGuarded, Granted, Entries, Apply,
         Emits, Collecting, Dispatchable, Entered, FromReview;
    ReachableInv(env, l);
    StepAppends(env, l, Submit(c, job), l');
    assert Allowed(env, l, c, job);
    JoinedFrom(env, l, c, l', Last(l'.history));
    hide Allowed, NextFields, R.Candidates, R.AtRound, R.TopRound, R.Joinable, R.Unanimous;
    JoinPublishes(env, l, c, job, l', Last(l'.history));
  }

  // ---- no reachable case is stuck ----

  /** Deadlock freedom: an active case that is not in mid-transaction has outstanding work with a possible
      outcome, and every outcome of every outstanding effect is accepted as one batch. */
  lemma NeverStuck(env: Environment, l: Ledger, d: Delivery)
    requires Reachable(env, l) && Active(l.row.state) && Settled(l.history)
    requires l.row.policyRevision in env.policies && Room(env, l) && l.row.revision + 2 <= U64_MAX && d.payload.isObject
    ensures l.row.policyRevision in env.workflows
    ensures exists effect, o :: effect in Outstanding(l.history) && Handles(env, l, effect, o)
    ensures forall effect, o :: effect in Outstanding(l.history) && Handles(env, l, effect, o) ==>
              EventOf(env, l, o).Some? &&
              ApplyBatch(env.policies, l, env.policies[l.row.policyRevision],
                         HandlerCommands(l, EventOf(env, l, o).value, o, d)).Ok?
  {
    hide Reachable, Fenced, Chain, MergesGuarded, LoopGuarded, Granted, Entries, Apply, ApplyBatch, Emits, Collecting,
         Outstanding, Handles, EventOf, HandlerCommands;
    ReachableInv(env, l);
    SomeOutcome(env, l);
    forall effect, o | effect in Outstanding(l.history) && Handles(env, l, effect, o)
      ensures EventOf(env, l, o).Some?
      ensures ApplyBatch(env.policies, l, env.policies[l.row.policyRevision],
                         HandlerCommands(l, EventOf(env, l, o).value, o, d)).Ok?
    {
      OutcomeAccepted(env, l, effect, o, d);
    }
  }

  lemma SomeOutcome(env: Environment, l: Ledger)
    requires Obliged(env, l)
    ensures exists effect, o :: effect in Outstanding(l.history) && Handles(env, l, effect, o)
  {
    hide Collecting, Outstanding, CohortRuns;
    OutstandingWork(env, l);
    var effect :| effect in Outstanding(l.history);
    if effect.DispatchReviewers? {
      SomeReviewPending(env, l);
      var review :| Pending(env, l, review);
      assert Handles(env, l, effect, ReviewAnswered(review));
    } else {
      var o := match effect
        case DispatchPlanner => PlannerAnswered(C.PlannerOutcome.Proceed)
        case PublishPlan => PlanPublished(C.PlannerOutcome.Proceed)
        case DispatchBuilder => BuilderAnswered(C.BuilderOutcome.ReviewReady)
        case PublishDraftPullRequest => DraftPublished(if l.row.pr.Some? then l.row.pr.value else 0, 0)
        case ObserveCi => CiObserved(true)
        case PublishReviews => LanesPublished
        case ObserveFinalPreflight => PreflightObserved(true)
        case DispatchFinalReviewer => FinalAnswered(C.FinalOutcome.Ready)
        case BeginMerge => MergeBegun
        case _ => MergeExecuted;
      assert Handles(env, l, effect, o);
    }
  }

  // ---- the pending reviewers' jobs stay current ----

  /** The revision that dispatched the reviewers, with only recorded reviews after it. */
  lemma {:induction false} DispatchRevision(history: seq<Record>) returns (frozen: nat)
    requires DispatchReviewers in Outstanding(history)
    ensures 1 <= frozen <= |history| && DispatchReviewers in history[frozen - 1].effects
    ensures forall i :: 0 <= i < |history| && i + 1 > frozen ==> history[i].Is(ReviewRecorded)
  {
    var front := history[..|history| - 1];
    if Last(history).Is(ReviewRecorded) {
      frozen := DispatchRevision(front);
      assert history[frozen - 1] == front[frozen - 1];
      forall i | 0 <= i < |history| && i + 1 > frozen ensures history[i].Is(ReviewRecorded) {
        assert i < |front| ==> history[i] == front[i];
      }
    } else {
      frozen := |history|;
    }
  }

  lemma SeatScheduled(env: Environment, history: seq<Record>, frozen: nat, seat: R.Seat)
    requires 1 <= frozen <= |history| && DispatchReviewers in history[frozen - 1].effects
    requires history[frozen - 1].policyRevision in env.workflows &&
             seat in env.workflows[history[frozen - 1].policyRevision].reviewers
    requires RequireReviewBinding(RowAt(history, frozen)).None?
    ensures Dispatched(env, history, JobFor(RowAt(history, frozen), seat.role, Some(seat.id), Some(seat.mode)))
  {
    var row, w := RowAt(history, frozen), env.workflows[history[frozen - 1].policyRevision];
    var job := JobFor(row, seat.role, Some(seat.id), Some(seat.mode));
    var k :| 0 <= k < |w.reviewers| && w.reviewers[k] == seat;
    var jobs := ScheduleEffect(DispatchReviewers, row, w).value;
    assert jobs[k] == job;
    assert Schedules(DispatchReviewers, row, w, job);
  }

  /** A review that is still pending always passes the generation fence: its job was dispatched, is
      current, and carries exactly what the review must answer. */
  lemma PendingReviewPasses(env: Environment, l: Ledger, review: C.Review) returns (job: Job)
    requires Reachable(env, l) && l.row.state.Reviewing? && Pending(env, l, review)
    ensures Dispatched(env, l.history, job) && CurrentGeneration(l, job.revision, true) && Answers(review, job)
  {
    hide Reachable, Chain, Collecting, Fenced, LoopGuarded, RoundsCounted, MergesGuarded, CohortRuns, Emits, Granted,
         Dispatched;
    ReachableInv(env, l);
    var frozen := DispatchRevision(l.history);
    FenceHolds(l.history, frozen);
    var seat := R.Seat(review.reviewer, review.role, C.Required);
    SeatIsReviewer(env, l.row.policyRevision, seat);
    SeatScheduled(env, l.history, frozen, seat);
    job := JobFor(RowAt(l.history, frozen), seat.role, Some(seat.id), Some(seat.mode));
  }

  lemma SeatIsReviewer(env: Environment, policyRevision: nat, seat: R.Seat)
    requires env.Valid() && policyRevision in env.workflows && seat in env.workflows[policyRevision].reviewers
    ensures seat.role.Reviewer()
  {
  }
}
