/** Which jobs a case dispatches, and which of their results are still wanted. */
module Dispatch {
  import opened Prelude
  import opened StateMachine
  import opened Ledger
  import opened Workflow
  import opened WorkflowSafety
  import opened Readiness
  import opened Liveness
  import opened Runs
  import opened Provenance
  import C = Contracts
  import R = Reviews

  /** The job holds the plan, pull request, head and round of the case at its revision. */
  predicate Frozen(job: Job, row: Case, role: C.WorkerRole, plan: nat) {
    job.revision == row.revision && job.role == role && job.plan == plan && job.round == row.round &&
    job.pr == row.pr && job.head == row.head
  }

  predicate Unseated(job: Job) { job.reviewer.None? && job.mode.None? }

  /** One planner job for the next plan, one builder job for the accepted plan, one job for each configured reviewer
      and one final review on the bound pull request and head, and no job for any other effect. */
  predicate JobsOf(effect: Effect, row: Case, w: R.Workflow, jobs: seq<Job>) {
    if effect.DispatchPlanner? then
      |jobs| == 1 && Frozen(jobs[0], row, C.Planner, row.plan + 1) && Unseated(jobs[0])
    else if effect.DispatchBuilder? then
      row.plan >= 1 && |jobs| == 1 && Frozen(jobs[0], row, C.Builder, row.plan) && Unseated(jobs[0])
    else if effect.DispatchFinalReviewer? then
      row.plan >= 1 && row.pr.Some? && row.head.Some? &&
      |jobs| == 1 && Frozen(jobs[0], row, C.FinalReviewer, row.plan) && Unseated(jobs[0])
    else if effect.DispatchReviewers? then
      row.plan >= 1 && row.pr.Some? && row.head.Some? && |jobs| == |w.reviewers| &&
      forall i :: 0 <= i < |jobs| ==>
        Frozen(jobs[i], row, w.reviewers[i].role, row.plan) && w.reviewers[i].role.Reviewer() &&
        jobs[i].reviewer == Some(w.reviewers[i].id) && jobs[i].mode == Some(w.reviewers[i].mode)
    else jobs == []
  }

  /** Every effect of every reachable case dispatches exactly its jobs. */
  lemma EffectsDispatch(env: Environment, l: Ledger, effect: Effect)
    requires Reachable(env, l) && l.history != [] && effect in Last(l.history).effects
    ensures l.row.policyRevision in env.workflows
    ensures
      var w := env.workflows[l.row.policyRevision];
      var r := ScheduleEffect(effect, l.row, w);
      r.Ok? && JobsOf(effect, l.row, w, r.value)
  {
    hide Reachable, Chain, Collecting, Fenced, MergesGuarded, LoopGuarded, RoundsCounted, CohortRuns,
         ReviewersDispatched;
    ReachableInv(env, l);
  }

  /** An effect is refused exactly for the first thing it needs and misses: the plan, then the pull request, then the
      head; a planner needs nothing, and a builder only the plan. */
  lemma DispatchRefuses(effect: Effect, row: Case, w: R.Workflow)
    ensures
      var reviewed := effect.DispatchReviewers? || effect.DispatchFinalReviewer?;
      var r := ScheduleEffect(effect, row, w);
      (r == Err(MissingPlan) <==> (reviewed || effect.DispatchBuilder?) && row.plan == 0) &&
      (r == Err(MissingPullRequest) <==> reviewed && row.plan > 0 && row.pr.None?) &&
      (r == Err(MissingExactHead) <==> reviewed && row.plan > 0 && row.pr.Some? && row.head.None?)
  {
  }

  predicate Dispatches(effect: Effect) {
    effect.DispatchPlanner? || effect.DispatchBuilder? || effect.DispatchReviewers? || effect.DispatchFinalReviewer?
  }

  /** A record that dispatches jobs leaves the case in a state that waits for them. */
  lemma DispatchingState(event: Event, state: CaseState, effect: Effect)
    requires effect in Emits(event, state) && Dispatches(effect)
    ensures state.Planning? || state.ReadyToBuild? || state.Remediating? || state.Reviewing? || state.FinalReview?
    ensures state.Reviewing? <==> effect.DispatchReviewers?
  {
  }

  lemma RecordedWhileReviewing(env: Environment, l: Ledger, a: Action, l': Ledger)
    requires Inv(env, l) && Step(env, l, a, l') && l'.history != [] && Last(l'.history).Is(ReviewRecorded)
    ensures l.row.state.Reviewing?
  {
    hide Dispatchable, Fenced, RoundsCounted, LoopGuarded, Collecting, Chain, Emitted, ReviewersDispatched,
         MergesGuarded, Allowed, Apply, Emits, Granted;
    if a.Submit? {
      StepAppends(env, l, a, l');
    }
  }

  predicate OnlyReviewsSince(history: seq<Record>, revision: nat) {
    forall i :: 0 <= i < |history| && i >= revision ==> history[i].Is(ReviewRecorded)
  }

  /** The dispatching record, in the ledger it was appended to. */
  lemma DispatchedWhile(env: Environment, l: Ledger, job: Job) returns (effect: Effect)
    requires Inv(env, l) && job.revision == |l.history| && Dispatched(env, l.history, job)
    ensures Dispatches(effect) && effect in Last(l.history).effects && CurrentGeneration(l, job.revision, false)
    ensures l.row.state.Reviewing? <==> effect.DispatchReviewers?
    ensures l.row.state.Reviewing? ==> job.role.Reviewer()
  {
    hide Dispatchable, Fenced, RoundsCounted, LoopGuarded, Collecting, Chain, ReviewersDispatched, MergesGuarded,
         Emits;
    var w := env.workflows[l.row.policyRevision];
    effect :| effect in Last(l.history).effects && Schedules(effect, l.row, w, job);
    var last := Last(l.history);
    if last.kind.Applied? {
      DispatchingState(last.kind.event, l.row.state, effect);
    }
  }

  /** The fence takes a result exactly when nothing but peer reviews was recorded since its job was dispatched. */
  lemma JobPassesExactly(env: Environment, ledgers: seq<Ledger>, actions: seq<Action>, job: Job)
    requires Run(env, ledgers, actions)
    requires Dispatched(env, ledgers[|actions|].history, job)
    ensures
      var l := ledgers[|actions|];
      CurrentGeneration(l, job.revision, job.role.Reviewer()) <==> OnlyReviewsSince(l.history, job.revision)
  {
    hide Inv, Step, Initial, Dispatched, CurrentGeneration;
    var n, l := |actions|, ledgers[|actions|];
    HistoryGrows(env, ledgers, actions, n, n);
    Positioned(env, l.history, job);
    var k := job.revision - 1;
    HistoryGrows(env, ledgers, actions, k, n);
    RunKeeps(env, ledgers, actions, k);
    RunKeeps(env, ledgers, actions, n);
    SameDispatch(env, l.history, ledgers[k].history, job);
    var effect := DispatchedWhile(env, ledgers[k], job);
    if k == n {
      assert CurrentGeneration(l, job.revision, job.role.Reviewer()) by { SameFence(l, job); }
    } else {
      HistoryGrows(env, ledgers, actions, k + 1, n);
      assert Step(env, ledgers[k], actions[k], ledgers[k + 1]);
      assert Last(ledgers[k + 1].history) == l.history[k + 1];
      if OnlyReviewsSince(l.history, job.revision) {
        assert l.history[k + 1].Is(ReviewRecorded) && Last(l.history).Is(ReviewRecorded);
        RecordedWhileReviewing(env, ledgers[k], actions[k], ledgers[k + 1]);
        ReviewsKeepReviewing(env, l);
      }
      LaterFence(env, l, job.revision, job.role.Reviewer());
    }
  }

  lemma Positioned(env: Environment, history: seq<Record>, job: Job)
    requires Dispatched(env, history, job)
    ensures 1 <= job.revision <= |history|
  {
  }

  lemma SameDispatch(env: Environment, history: seq<Record>, front: seq<Record>, job: Job)
    requires Dispatched(env, history, job) && |front| == job.revision <= |history| && front == history[..|front|]
    ensures Dispatched(env, front, job)
  {
    assert RowAt(front, job.revision) == RowAt(history, job.revision);
  }

  lemma SameFence(l: Ledger, job: Job)
    requires CurrentGeneration(l, job.revision, false)
    ensures CurrentGeneration(l, job.revision, job.role.Reviewer())
  {
  }

  lemma ReviewsKeepReviewing(env: Environment, l: Ledger)
    requires Inv(env, l) && Last(l.history).Is(ReviewRecorded)
    ensures l.row.state.Reviewing?
  {
    hide Dispatchable, Fenced, RoundsCounted, LoopGuarded, Collecting, Chain, ReviewersDispatched, MergesGuarded, Emits;
  }

  lemma LaterFence(env: Environment, l: Ledger, revision: nat, reviewer: bool)
    requires Inv(env, l) && revision < |l.history|
    ensures CurrentGeneration(l, revision, reviewer) <==>
            reviewer && l.row.state.Reviewing? && OnlyReviewsSince(l.history, revision)
  {
    hide Dispatchable, Fenced, RoundsCounted, LoopGuarded, Collecting, Chain, Emitted, ReviewersDispatched,
         MergesGuarded;
  }
}
