/** Readiness is tied to the exact head: the review cohort of a reviewing case, and the chain of
    publication, CI, unanimous join and preflight behind every case that is ready. */
module Readiness {
  import opened Prelude
  import opened StateMachine
  import opened Ledger
  import opened Workflow
  import C = Contracts
  import R = Reviews

  // ---- the cohort of the current review ----

  function CohortReviews(history: seq<Record>): seq<C.Review> { R.ReviewsOf(CohortRuns(history)) }

  /** The review is of the case's current plan, pull request, exact head and round. */
  predicate Keyed(review: C.Review, row: Case) {
    review.plan == row.plan && Some(review.pr) == row.pr && Some(review.head) == row.head &&
    review.round == ReviewRound(row.round)
  }

  predicate AllKeyed(reviews: seq<C.Review>, row: Case) { forall x :: x in reviews ==> Keyed(x, row) }

  /** While reviewing, the recorded reviews are a proper part of a joinable cohort. */
  ghost predicate Collecting(env: Environment, l: Ledger) {
    l.row.state.Reviewing? && l.row.policyRevision in env.workflows ==>
      var w, reviews := env.workflows[l.row.policyRevision], CohortReviews(l.history);
      R.Seated(w, reviews) && R.Distinct(reviews) && AllKeyed(reviews, l.row) && !(w.RequiredIds() <= R.Ids(reviews))
  }

  lemma CohortAppend(history: seq<Record>, r: Record)
    ensures CohortRuns(history + [r]) ==
            if r.Enters(WaitingCi) || r.Enters(Reviewing) then []
            else if r.run.Some? && r.run.value.ReviewResult? then CohortRuns(history) + [r.run.value]
            else CohortRuns(history)
  {
  }

  lemma ReviewsOfAppend(runs: seq<C.WorkerResult>, review: C.Review)
    ensures R.ReviewsOf(runs + [C.ReviewResult(review)]) == R.ReviewsOf(runs) + [review]
  {
  }

  lemma {:induction false} MatchingAll(runs: seq<C.WorkerResult>, current: C.Review, row: Case)
    requires AllKeyed(R.ReviewsOf(runs), row) && Keyed(current, row)
    ensures R.Matching(runs, current) == R.ReviewsOf(runs)
  {
    if runs == [] {
    } else {
      var front, last := runs[..|runs| - 1], runs[|runs| - 1];
      assert forall x :: x in R.ReviewsOf(front) ==> x in R.ReviewsOf(runs);
      MatchingAll(front, current, row);
      if last.ReviewResult? {
        assert R.ReviewsOf(runs) == R.ReviewsOf(front) + [last.review];
        assert last.review in R.ReviewsOf(runs);
      }
    }
  }

  /** A job that schedules a review is frozen with the row of its revision. */
  lemma ReviewJobFrozen(env: Environment, history: seq<Record>, job: Job)
    requires Dispatched(env, history, job) && job.role.Reviewer()
    ensures 1 <= job.revision <= |history|
    ensures
      var row := RowAt(history, job.revision);
      row.pr.Some? && row.head.Some? && job.plan == row.plan && job.pr == row.pr && job.head == row.head &&
      job.round == row.round
  {
  }

  /** An accepted review is always of the current plan, pull request, exact head and round. */
  lemma AcceptedReviewKeyed(env: Environment, l: Ledger, c: Command, job: Option<Job>)
    requires Projected(l) && Fenced(l.history) && FromReview(env, l, c, job)
    ensures Keyed(c.run.value.review, l.row)
  {
    hide R.Join, Dispatched, Fenced, CohortRuns;
    ReviewJobFrozen(env, l.history, job.value);
    GenerationFence(l, job.value.revision, true);
  }

  /** What one accepted review does to the cohort, whatever event it becomes. */
  lemma ReviewJoins(env: Environment, l: Ledger, c: Command, job: Option<Job>)
    requires Projected(l) && Fenced(l.history) && FromReview(env, l, c, job)
    requires l.row.state.Reviewing? && Collecting(env, l)
    requires c.event.ReviewRecorded? || c.event.ReviewsApproved? || c.event.RequestChanges?
    ensures
      var w, review := env.workflows[l.row.policyRevision], c.run.value.review;
      var cohort := CohortReviews(l.history) + [review];
      AllKeyed(cohort, l.row) && R.Seated(w, cohort) && R.Distinct(cohort) &&
      (c.event.ReviewRecorded? <==> !(w.RequiredIds() <= R.Ids(cohort))) &&
      (c.event.ReviewsApproved? ==> R.Unanimous(cohort)) && (c.event.RequestChanges? ==> !R.Unanimous(cohort)) &&
      (!c.event.ReviewRecorded? ==> R.Ids(cohort) == w.RequiredIds())
  {
    hide Dispatched, Fenced, CohortRuns, CurrentGeneration, Projected;
    var review := c.run.value.review;
    AcceptedReviewKeyed(env, l, c, job);
    MatchingAll(CohortRuns(l.history), review, l.row);
    assert review.reviewer !in R.Ids(CohortReviews(l.history));
  }

  lemma CollectingStep(env: Environment, l: Ledger, c: Command, job: Option<Job>, l': Ledger, r: Record)
    requires env.Valid() && Projected(l) && Fenced(l.history) && Collecting(env, l) && Allowed(env, l, c, job)
    requires Appends(env, l, c, l', r)
    ensures Collecting(env, l')
  {
    hide Fenced, CohortRuns, FromReview, R.Seated, R.Distinct;
    CohortAppend(l.history, r);
    if l'.row.state.Reviewing? {
      if l.row.state.Reviewing? {
        RecordedStep(env, l, c, job, l', r);
      } else {
        NoReviewsYet(env, l');
      }
    }
  }

  lemma NoReviewsYet(env: Environment, l: Ledger)
    requires env.Valid() && CohortRuns(l.history) == []
    ensures Collecting(env, l)
  {
    if l.row.policyRevision in env.workflows {
      var w := env.workflows[l.row.policyRevision];
      var i :| 0 <= i < |w.reviewers| && w.reviewers[i].role == C.ReviewerGeneral && w.reviewers[i].mode == C.Required;
      assert w.reviewers[i].id in w.RequiredIds();
    }
  }

  lemma RecordedStep(env: Environment, l: Ledger, c: Command, job: Option<Job>, l': Ledger, r: Record)
    requires Projected(l) && Fenced(l.history) && Collecting(env, l) && FromReview(env, l, c, job)
    requires Appends(env, l, c, l', r) && c.event.ReviewRecorded? && l.row.state.Reviewing?
    ensures Collecting(env, l')
  {
    hide Fenced, CohortRuns, R.Seated, R.Distinct, Entered, Emits, Dispatched, CurrentGeneration, ReviewEvent;
    CohortAppend(l.history, r);
    ReviewJoins(env, l, c, job);
    ReviewsOfAppend(CohortRuns(l.history), c.run.value.review);
  }

  // ---- the join can always be published ----

  lemma {:induction false} CandidatesAll(runs: seq<C.WorkerResult>, row: Case)
    requires AllKeyed(R.ReviewsOf(runs), row) && row.pr.Some? && row.head.Some?
    ensures R.Candidates(runs, row.plan, row.pr.value, row.head.value) == R.ReviewsOf(runs)
  {
    if runs == [] {
    } else {
      var front, last := runs[..|runs| - 1], runs[|runs| - 1];
      assert forall x :: x in R.ReviewsOf(front) ==> x in R.ReviewsOf(runs);
      CandidatesAll(front, row);
      if last.ReviewResult? {
        assert last.review in R.ReviewsOf(runs);
      }
    }
  }

  lemma {:induction false} OneRound(reviews: seq<C.Review>, round: nat)
    requires reviews != [] && forall x :: x in reviews ==> x.round == round
    ensures R.TopRound(reviews) == round && R.AtRound(reviews, round) == reviews
  {
    var front := reviews[..|reviews| - 1];
    if front == [] {
    } else {
      OneRound(front, round);
    }
    assert reviews == front + [reviews[|reviews| - 1]];
  }

  /** The join leaves the review without starting another cohort or moving plan, pull request and head. */
  lemma JoinLeaves(env: Environment, l: Ledger, c: Command, l': Ledger, r: Record)
    requires Appends(env, l, c, l', r) && (c.event.ReviewsApproved? || c.event.RequestChanges?) && c.acceptedPlan.None?
    ensures !r.Enters(WaitingCi) && !r.Enters(Reviewing) && r.run == c.run
    ensures l'.row.plan == l.row.plan && l'.row.pr == l.row.pr && l'.row.head == l.row.head
  {
  }

  /** After the last review, the publisher finds a joinable cohort of the exact head, unanimous exactly when
      the join approved. */
  lemma JoinPublishes(env: Environment, l: Ledger, c: Command, job: Option<Job>, l': Ledger, r: Record)
    requires Projected(l) && Fenced(l.history) && Collecting(env, l) && Allowed(env, l, c, job) &&
             l.row.state.Reviewing?
    requires Appends(env, l, c, l', r) && (c.event.ReviewsApproved? || c.event.RequestChanges?)
    ensures l.row.policyRevision in env.workflows && l'.row.policyRevision == l.row.policyRevision
    ensures l'.row.pr.Some? && l'.row.head.Some?
    ensures
      var candidates := R.Candidates(CohortRuns(l'.history), l'.row.plan, l'.row.pr.value, l'.row.head.value);
      var top := R.AtRound(candidates, R.TopRound(candidates));
      candidates != [] && R.Joinable(env.workflows[l'.row.policyRevision], top) &&
      (c.event.ReviewsApproved? <==> R.Unanimous(top))
  {
    JoinLeaves(env, l, c, l', r);
    hide Fenced, CohortRuns, R.Seated, R.Distinct, Emits, Entered, NextFields, Dispatched, CurrentGeneration,
         ReviewEvent;
    var review := c.run.value.review;
    CohortAppend(l.history, r);
    ReviewJoins(env, l, c, job);
    ReviewsOfAppend(CohortRuns(l.history), review);
    var cohort := CohortReviews(l.history) + [review];
    assert cohort[|cohort| - 1] == review && Keyed(review, l.row);
    CandidatesAll(CohortRuns(l'.history), l.row);
    OneRound(cohort, ReviewRound(l.row.round));
  }

  // ---- the chain behind readiness ----

  /** Positions of the last publication, and of the last CI acceptance and join after it. */
  datatype Progress = Progress(bound: Option<nat>, ci: Option<nat>, join: Option<nat>)

  function Track(history: seq<Record>): Progress {
    if history == [] then Progress(None, None, None)
    else
      var p := Track(history[..|history| - 1]);
      if Last(history).Is(ReviewReady) then Progress(Some(|history| - 1), None, None)
      else if Last(history).Is(CiAccepted) then p.(ci := Some(|history| - 1), join := None)
      else if Last(history).Is(ReviewsApproved) then p.(join := Some(|history| - 1))
      else p
  }

  /** The publication at b bound this head, and nothing was published since. */
  predicate BoundAt(history: seq<Record>, b: nat, head: Option<Sha>) {
    b < |history| && history[b].Is(ReviewReady) && history[b].head == head &&
    forall i :: b < i < |history| ==> !history[i].Is(ReviewReady)
  }

  predicate CiAt(history: seq<Record>, b: nat, ci: nat) { b < ci < |history| && history[ci].Is(CiAccepted) }

  predicate Approves(r: Record, id: C.ReviewerId, head: Option<Sha>) {
    r.run.Some? && r.run.value.ReviewResult? && r.run.value.review.reviewer == id &&
    r.run.value.review.outcome.Approve? && Some(r.run.value.review.head) == head
  }

  predicate ApprovedWithin(history: seq<Record>, from: nat, to: nat, id: C.ReviewerId, head: Option<Sha>) {
    exists k :: from < k <= to < |history| && Approves(history[k], id, head)
  }

  /** The join at j: after the CI acceptance, every required reviewer approved exactly this head. */
  ghost predicate JoinedAt(env: Environment, history: seq<Record>, ci: nat, j: nat, head: Option<Sha>) {
    ci < j < |history| && history[j].Is(ReviewsApproved) && history[j].policyRevision in env.workflows &&
    forall id :: id in env.workflows[history[j].policyRevision].RequiredIds() ==>
      ApprovedWithin(history, ci, j, id, head)
  }

  predicate UnderReview(state: CaseState) { state.Reviewing? || AfterJoin(state) }

  predicate AfterJoin(state: CaseState) {
    state.FinalReview? || state.ShadowReady? || state.ReadyToMerge? || state.Merging?
  }

  ghost predicate Chain(env: Environment, l: Ledger) {
    var p := Track(l.history);
    (l.row.head.Some? ==> p.bound.Some? && BoundAt(l.history, p.bound.value, l.row.head)) &&
    (UnderReview(l.row.state) ==> l.row.head.Some? && p.ci.Some? && CiAt(l.history, p.bound.value, p.ci.value)) &&
    (l.row.state.Reviewing? ==> CohortStart(l.history) > p.ci.value) &&
    (AfterJoin(l.row.state) ==> p.join.Some? && JoinedAt(env, l.history, p.ci.value, p.join.value, l.row.head)) &&
    (l.row.state.ShadowReady? || l.row.state.ReadyToMerge? ==> Preflighted(l.history))
  }

  predicate Preflighted(history: seq<Record>) {
    var n := |history|;
    n >= 2 && history[n - 2].Is(FinalPreflightAccepted) && history[n - 1].Is(Ready)
  }

  /** The position after the last entry into CI observation or review. */
  function CohortStart(history: seq<Record>): (start: nat)
    ensures start <= |history|
  {
    if history == [] then 0
    else if Last(history).Enters(WaitingCi) || Last(history).Enters(Reviewing) then |history|
    else CohortStart(history[..|history| - 1])
  }

  lemma {:induction false} CohortLocated(history: seq<Record>, review: C.Review)
    requires review in CohortReviews(history)
    ensures exists k :: CohortStart(history) <= k < |history| && history[k].run == Some(C.ReviewResult(review))
  {
    var front, last := history[..|history| - 1], Last(history);
    assert history == front + [last];
    CohortAppend(front, last);
    if review in CohortReviews(front) {
      CohortLocated(front, review);
      var k :| CohortStart(front) <= k < |front| && front[k].run == Some(C.ReviewResult(review));
      assert history[k].run == Some(C.ReviewResult(review));
    } else {
      ReviewsOfAppend(CohortRuns(front), last.run.value.review);
      assert history[|history| - 1].run == Some(C.ReviewResult(review));
    }
  }

  lemma TrackAppend(history: seq<Record>, r: Record)
    ensures
      var p, i := Track(history), |history|;
      Track(history + [r]) ==
      if r.Is(ReviewReady) then Progress(Some(i), None, None)
      else if r.Is(CiAccepted) then p.(ci := Some(i), join := None)
      else if r.Is(ReviewsApproved) then p.(join := Some(i))
      else p
    ensures CohortStart(history + [r]) ==
            if r.Enters(WaitingCi) || r.Enters(Reviewing) then |history| + 1 else CohortStart(history)
  {
  }

  lemma JoinKept(env: Environment, history: seq<Record>, r: Record, ci: nat, j: nat, head: Option<Sha>)
    requires JoinedAt(env, history, ci, j, head)
    ensures JoinedAt(env, history + [r], ci, j, head)
  {
    forall id | id in env.workflows[history[j].policyRevision].RequiredIds()
      ensures ApprovedWithin(history + [r], ci, j, id, head)
    {
      assert ApprovedWithin(history, ci, j, id, head);
      var k :| ci < k <= j < |history| && Approves(history[k], id, head);
      assert (history + [r])[k] == history[k];
    }
  }

  /** An approval of the completed cohort lies between the CI acceptance and the join. */
  lemma ApprovalLocated(l: Ledger, l': Ledger, r: Record, review: C.Review, x: C.Review, ci: nat)
    requires l'.history == l.history + [r] && r.run == Some(C.ReviewResult(review)) && ci < CohortStart(l.history)
    requires x in CohortReviews(l.history) + [review] && x.outcome.Approve?
    ensures ApprovedWithin(l'.history, ci, |l.history|, x.reviewer, Some(x.head))
  {
    hide CohortRuns, CohortStart;
    if x in CohortReviews(l.history) {
      CohortLocated(l.history, x);
      var k :| CohortStart(l.history) <= k < |l.history| && l.history[k].run == Some(C.ReviewResult(x));
      assert Approves(l'.history[k], x.reviewer, Some(x.head));
    } else {
      assert Approves(l'.history[|l.history|], x.reviewer, Some(x.head));
    }
  }

  lemma JoinStep(env: Environment, l: Ledger, c: Command, job: Option<Job>, l': Ledger, r: Record, ci: nat)
    requires env.Valid() && Projected(l) && Fenced(l.history) && Collecting(env, l) && FromReview(env, l, c, job)
    requires l.row.state.Reviewing? && c.event.ReviewsApproved? && Appends(env, l, c, l', r)
    requires ci < CohortStart(l.history)
    ensures JoinedAt(env, l'.history, ci, |l.history|, l'.row.head)
  {
    hide Fenced, Collecting, CohortRuns, CohortStart, R.Seated, R.Distinct, Emits, Entered, Dispatched,
         CurrentGeneration, ReviewEvent, ApprovedWithin;
    var w, review := env.workflows[l.row.policyRevision], c.run.value.review;
    ReviewJoins(env, l, c, job);
    var cohort := CohortReviews(l.history) + [review];
    forall id | id in w.RequiredIds()
      ensures ApprovedWithin(l'.history, ci, |l.history|, id, l'.row.head)
    {
      var x :| x in cohort && x.reviewer == id;
      assert Keyed(x, l.row);
      ApprovalLocated(l, l', r, review, x, ci);
    }
  }

  lemma BoundChain(env: Environment, l: Ledger, c: Command, l': Ledger, r: Record)
    requires Chain(env, l) && Appends(env, l, c, l', r)
    ensures l'.row.head.Some? ==>
              Track(l'.history).bound.Some? && BoundAt(l'.history, Track(l'.history).bound.value, l'.row.head)
  {
    hide JoinedAt, Emits, Entered, Track, CohortStart;
    TrackAppend(l.history, r);
  }

  lemma ReviewChain(env: Environment, l: Ledger, c: Command, l': Ledger, r: Record)
    requires Chain(env, l) && Appends(env, l, c, l', r) && UnderReview(l'.row.state)
    requires l.row.state.WaitingCi? ==> l.row.head.Some?
    ensures
      var p := Track(l'.history);
      l'.row.head.Some? && p.bound.Some? && p.ci.Some? && CiAt(l'.history, p.bound.value, p.ci.value) &&
      (l'.row.state.Reviewing? ==> CohortStart(l'.history) > p.ci.value)
  {
    hide JoinedAt, Emits, Track, CohortStart;
    TrackAppend(l.history, r);
  }

  /** A case after the join came there by the join, or was there and kept its place in the chain. */
  lemma JoinSource(env: Environment, l: Ledger, c: Command, l': Ledger, r: Record)
    requires Appends(env, l, c, l', r) && AfterJoin(l'.row.state)
    ensures r.kind == Applied(c.event) && l'.row.head == l.row.head && UnderReview(l.row.state)
    ensures !r.Is(ReviewReady) && !r.Is(CiAccepted) && (l.row.state.Reviewing? <==> r.Is(ReviewsApproved))
  {
  }

  lemma JoinChain(env: Environment, l: Ledger, c: Command, job: Option<Job>, l': Ledger, r: Record)
    requires env.Valid() && Projected(l) && Fenced(l.history) && Collecting(env, l) && Allowed(env, l, c, job)
    requires Chain(env, l) && Appends(env, l, c, l', r) && AfterJoin(l'.row.state)
    ensures
      var p := Track(l'.history);
      p.ci.Some? && p.join.Some? && JoinedAt(env, l'.history, p.ci.value, p.join.value, l'.row.head)
  {
    JoinSource(env, l, c, l', r);
    hide Fenced, Collecting, CohortRuns, Emits, Entered, NextFields, JoinedAt, BoundAt, FromReview, Track, CohortStart;
    var p := Track(l.history);
    TrackAppend(l.history, r);
    if l.row.state.Reviewing? {
      JoinStep(env, l, c, job, l', r, p.ci.value);
    } else {
      JoinKept(env, l.history, r, p.ci.value, p.join.value, l.row.head);
    }
  }

  lemma ChainStep(env: Environment, l: Ledger, c: Command, job: Option<Job>, l': Ledger, r: Record)
    requires env.Valid() && Projected(l) && Fenced(l.history) && Collecting(env, l) && Allowed(env, l, c, job)
    requires Chain(env, l) && Appends(env, l, c, l', r)
    requires l.row.state.WaitingCi? ==> l.row.head.Some?
    ensures Chain(env, l')
  {
    hide Fenced, Collecting, CohortRuns, Emits, JoinedAt, BoundAt, CiAt, FromReview, Track, CohortStart;
    BoundChain(env, l, c, l', r);
    if UnderReview(l'.row.state) {
      ReviewChain(env, l, c, l', r);
    }
    if AfterJoin(l'.row.state) {
      JoinChain(env, l, c, job, l', r);
    }
  }
}
