/** The final gate of crates/pip-control/src/final_preflight.rs: the ledger join over the whole run
    history, and the latest published review of each role. */
module FinalGate {
  import opened Prelude
  import opened Contracts
  import opened Reviews

  /** One run of the case; `current` says that it belongs to the current review cohort. */
  datatype Run = Run(result: WorkerResult, current: bool)

  /** The plan, pull request, head and published build the gate is evaluated for. */
  datatype Target = Target(plan: nat, pr: nat, head: Sha, published: Option<Build>)
  {
    /** The head the published build left, before publication rewrote it. */
    function Source(): Sha {
      if published.Some? && published.value.head.Some? then published.value.head.value else head
    }
  }

  datatype Blocker =
    | MissingPlan | MissingBuild | MissingApproval(reviewer: ReviewerId)
    | MissingResolution(finding: FindingId) | MissingConfirmation(origin: FindingId)

  datatype GateError = ConflictingOrigins(finding: FindingId)

  // ---- what the gate demands ----

  predicate AcceptedPlan(t: Target, result: WorkerResult) {
    result.PlannerResult? && result.plannerOutcome.Proceed? && result.planVersion == t.plan
  }

  predicate ExactBuild(t: Target, result: WorkerResult) {
    result.BuilderResult? && result.build.outcome.ReviewReady? && result.build.plan == t.plan &&
    result.build.head == Some(t.Source()) && (t.published.Some? ==> t.published.value == result.build)
  }

  predicate OfTarget(t: Target, review: Review) {
    review.plan == t.plan && review.pr == t.pr && review.head == t.head
  }

  /** The reviews of the current cohort on the exact head, in history order. */
  function CurrentReviews(t: Target, runs: seq<Run>): seq<Review> {
    if runs == [] then []
    else
      var front, last := CurrentReviews(t, runs[..|runs| - 1]), runs[|runs| - 1];
      if last.current && last.result.ReviewResult? && OfTarget(t, last.result.review)
      then front + [last.result.review] else front
  }

  predicate Raises(run: Run, finding: FindingId, origin: ReviewerId) {
    run.result.ReviewResult? && run.result.review.reviewer == origin && finding in run.result.review.findings
  }

  predicate Raised(runs: seq<Run>, finding: FindingId, origin: ReviewerId) {
    exists i :: 0 <= i < |runs| && Raises(runs[i], finding, origin)
  }

  predicate Resolves(t: Target, result: WorkerResult, finding: FindingId) {
    ExactBuild(t, result) && Resolution(finding, t.Source()) in result.build.resolutions
  }

  predicate Resolved(t: Target, runs: seq<Run>, finding: FindingId) {
    exists i :: 0 <= i < |runs| && Resolves(t, runs[i].result, finding)
  }

  predicate Confirms(t: Target, review: Review, finding: FindingId, origin: ReviewerId) {
    review.reviewer == origin && Confirmation(finding, true, t.head) in review.confirmations
  }

  predicate Confirmed(t: Target, runs: seq<Run>, finding: FindingId, origin: ReviewerId) {
    exists r :: r in CurrentReviews(t, runs) && Confirms(t, r, finding, origin)
  }

  predicate Sits(r: Review, id: ReviewerId, role: WorkerRole, round: nat) {
    r.reviewer == id && r.role == role && r.round == round
  }

  function CountSeat(reviews: seq<Review>, id: ReviewerId, role: WorkerRole, round: nat): nat {
    if reviews == [] then 0
    else
      var front := CountSeat(reviews[..|reviews| - 1], id, role, round);
      if Sits(reviews[|reviews| - 1], id, role, round) then front + 1 else front
  }

  /** No required reviewer has a current review in a later round. */
  predicate IsTop(w: Workflow, reviews: seq<Review>, round: nat) {
    forall r :: r in reviews && r.reviewer in w.RequiredIds() ==> r.round <= round
  }

  /** The reviewer has exactly one review in the top round, and it approves without a blocking finding. */
  predicate Approved(w: Workflow, reviews: seq<Review>, id: ReviewerId, role: WorkerRole) {
    exists r :: r in reviews && Approves(w, reviews, r, id, role)
  }

  predicate Approves(w: Workflow, reviews: seq<Review>, r: Review, id: ReviewerId, role: WorkerRole) {
    Sits(r, id, role, r.round) && IsTop(w, reviews, r.round) && CountSeat(reviews, id, role, r.round) == 1 &&
    r.outcome.Approve? && r.findings == []
  }

  ghost predicate Missing(t: Target, w: Workflow, runs: seq<Run>, b: Blocker) {
    match b
    case MissingPlan => !exists i :: 0 <= i < |runs| && AcceptedPlan(t, runs[i].result)
    case MissingBuild => !exists i :: 0 <= i < |runs| && ExactBuild(t, runs[i].result)
    case MissingApproval(id) =>
      exists s ::
        s in w.reviewers && s.mode.Required? && s.id == id && !Approved(w, CurrentReviews(t, runs), id, s.role)
    case MissingResolution(f) => (exists origin :: Raised(runs, f, origin)) && !Resolved(t, runs, f)
    case MissingConfirmation(f) => exists origin :: Raised(runs, f, origin) && !Confirmed(t, runs, f, origin)
  }

  /** One finding was raised by two reviewers. */
  ghost predicate Conflicting(runs: seq<Run>, f: FindingId) {
    exists a, b :: Raised(runs, f, a) && Raised(runs, f, b) && a != b
  }

  // ---- validate_ledger_join ----

  function PushUnique(blockers: seq<Blocker>, b: Blocker): seq<Blocker> {
    if b in blockers then blockers else blockers + [b]
  }

  /** The origin of every finding raised so far, when each has one. */
  ghost predicate Origins(runs: seq<Run>, mandatory: map<FindingId, ReviewerId>) {
    (forall f, a :: Raised(runs, f, a) ==> f in mandatory && mandatory[f] == a) &&
    (forall f :: f in mandatory ==> Raised(runs, f, mandatory[f]))
  }

  lemma RaisedAppend(runs: seq<Run>, run: Run, f: FindingId, a: ReviewerId)
    ensures Raised(runs + [run], f, a) <==> Raised(runs, f, a) || Raises(run, f, a)
  {
    if Raised(runs, f, a) {
      var i :| 0 <= i < |runs| && Raises(runs[i], f, a);
      assert Raises((runs + [run])[i], f, a);
    }
    if Raises(run, f, a) {
      assert Raises((runs + [run])[|runs|], f, a);
    }
  }

  method RecordFindings(
    review: Review, mandatory: map<FindingId, ReviewerId>) returns (r: Result<map<FindingId, ReviewerId>, FindingId>)
    ensures r.Ok? ==>
      (forall f :: f in r.value <==> f in mandatory || f in review.findings) &&
      (forall f :: f in mandatory ==> r.value[f] == mandatory[f]) &&
      (forall f :: f in review.findings ==> r.value[f] == review.reviewer)
    ensures r.Err? ==> r.error in review.findings && r.error in mandatory && mandatory[r.error] != review.reviewer
  {
    var held := mandatory;
    for i := 0 to |review.findings|
      invariant forall f :: f in held <==> f in mandatory || f in review.findings[..i]
      invariant forall f :: f in mandatory ==> held[f] == mandatory[f]
      invariant forall f :: f in review.findings[..i] ==> held[f] == review.reviewer
    {
      var f := review.findings[i];
      if f in held && held[f] != review.reviewer {
        return Err(f);
      }
      held := held[f := review.reviewer];
      assert review.findings[..i + 1] == review.findings[..i] + [f];
    }
    assert review.findings[..|review.findings|] == review.findings;
    return Ok(held);
  }

  /** What one pass over the history collects. */
  datatype Evidence = Evidence(
    planner: bool, builder: bool, resolutions: seq<Resolution>, reviews: seq<Review>,
    mandatory: map<FindingId, ReviewerId>)

  ghost predicate Collected(t: Target, runs: seq<Run>, e: Evidence) {
    (e.planner <==> exists i :: 0 <= i < |runs| && AcceptedPlan(t, runs[i].result)) &&
    (e.builder <==> exists i :: 0 <= i < |runs| && ExactBuild(t, runs[i].result)) &&
    (forall f :: Resolution(f, t.Source()) in e.resolutions <==> Resolved(t, runs, f)) &&
    e.reviews == CurrentReviews(t, runs) && Origins(runs, e.mandatory)
  }

  /** What the pass does with one run that raises no conflict. */
  function Gathered(t: Target, e: Evidence, run: Run, mandatory: map<FindingId, ReviewerId>): Evidence {
    match run.result
    case PlannerResult(_, _) => if AcceptedPlan(t, run.result) then e.(planner := true) else e
    case BuilderResult(build) =>
      if ExactBuild(t, run.result) then e.(builder := true, resolutions := e.resolutions + build.resolutions) else e
    case ReviewResult(review) =>
      e.(mandatory := mandatory, reviews := if run.current &&
         OfTarget(t, review) then e.reviews + [review] else e.reviews)
    case FinalResult(_, _, _, _) => e
  }

  lemma ResolvedAppend(t: Target, runs: seq<Run>, run: Run, f: FindingId)
    ensures Resolved(t, runs + [run], f) <==>
            Resolved(t, runs, f) || (ExactBuild(t, run.result) &&
                                     Resolution(f, t.Source()) in run.result.build.resolutions)
  {
    var all := runs + [run];
    if Resolved(t, runs, f) {
      var i :| 0 <= i < |runs| && ExactBuild(t, runs[i].result) &&
      Resolution(f, t.Source()) in runs[i].result.build.resolutions;
      assert all[i] == runs[i];
    }
    if ExactBuild(t, run.result) && Resolution(f, t.Source()) in run.result.build.resolutions {
      assert all[|runs|] == run;
    }
  }

  lemma OriginsAppend(runs: seq<Run>, run: Run, before: map<FindingId, ReviewerId>, after: map<FindingId, ReviewerId>)
    requires Origins(runs, before)
    requires run.result.ReviewResult? ==>
      (forall f :: f in after <==> f in before || f in run.result.review.findings) &&
      (forall f :: f in before ==> after[f] == before[f]) &&
      (forall f :: f in run.result.review.findings ==> after[f] == run.result.review.reviewer)
    requires !run.result.ReviewResult? ==> after == before
    ensures Origins(runs + [run], after)
  {
    hide Raised;
    forall f, a
      ensures Raised(runs + [run], f, a) <==> Raised(runs, f, a) || Raises(run, f, a)
    {
      RaisedAppend(runs, run, f, a);
    }
  }

  lemma CollectedAppend(t: Target, runs: seq<Run>, run: Run, e: Evidence, mandatory: map<FindingId, ReviewerId>)
    requires Collected(t, runs, e)
    requires Origins(runs + [run], if run.result.ReviewResult? then mandatory else e.mandatory)
    ensures Collected(t, runs + [run], Gathered(t, e, run, mandatory))
  {
    hide Origins;
    var all := runs + [run];
    assert all[..|runs|] == runs && all[|runs|] == run;
    forall f
      ensures Resolution(f, t.Source()) in Gathered(t, e, run, mandatory).resolutions <==> Resolved(t, all, f)
    {
      ResolvedAppend(t, runs, run, f);
    }
    assert (exists i :: 0 <= i < |all| && AcceptedPlan(t, all[i].result)) <==>
           (exists i :: 0 <= i < |runs| && AcceptedPlan(t, runs[i].result)) || AcceptedPlan(t, run.result) by {
      if i :| 0 <= i < |runs| && AcceptedPlan(t, runs[i].result) { assert all[i] == runs[i]; }
    }
    assert (exists i :: 0 <= i < |all| && ExactBuild(t, all[i].result)) <==>
           (exists i :: 0 <= i < |runs| && ExactBuild(t, runs[i].result)) || ExactBuild(t, run.result) by {
      if i :| 0 <= i < |runs| && ExactBuild(t, runs[i].result) { assert all[i] == runs[i]; }
    }
  }

  method CollectEvidence(t: Target, runs: seq<Run>) returns (r: Result<Evidence, GateError>)
    ensures r.Ok? ==> Collected(t, runs, r.value)
    ensures r.Err? ==> Conflicting(runs, r.error.finding)
  {
    hide Collected;
    var e := Evidence(false, false, [], [], map[]);
    NothingCollected(t, e);
    for i := 0 to |runs|
      invariant Collected(t, runs[..i], e)
    {
      var run, mandatory := runs[i], e.mandatory;
      assert runs[..i + 1] == runs[..i] + [run];
      CollectedOrigins(t, runs[..i], e);
      if run.result.ReviewResult? {
        var recorded := RecordFindings(run.result.review, e.mandatory);
        if recorded.Err? {
          OriginsConflict(runs, i, e.mandatory, recorded.error);
          return Err(ConflictingOrigins(recorded.error));
        }
        mandatory := recorded.value;
      }
      OriginsAppend(runs[..i], run, e.mandatory, mandatory);
      CollectedAppend(t, runs[..i], run, e, mandatory);
      e := Gathered(t, e, run, mandatory);
    }
    assert runs[..|runs|] == runs;
    return Ok(e);
  }

  lemma NothingCollected(t: Target, e: Evidence)
    requires e == Evidence(false, false, [], [], map[])
    ensures Collected(t, [], e)
  {
  }

  lemma CollectedOrigins(t: Target, runs: seq<Run>, e: Evidence)
    requires Collected(t, runs, e)
    ensures Origins(runs, e.mandatory)
  {
  }

  lemma OriginsConflict(runs: seq<Run>, i: nat, mandatory: map<FindingId, ReviewerId>, f: FindingId)
    requires i < |runs| && Origins(runs[..i], mandatory) && runs[i].result.ReviewResult?
    requires f in runs[i].result.review.findings && f in mandatory && mandatory[f] != runs[i].result.review.reviewer
    ensures Conflicting(runs, f)
  {
    var origin := runs[i].result.review.reviewer;
    assert Raises(runs[i], f, origin);
    var k :| 0 <= k < i && Raises(runs[..i][k], f, mandatory[f]);
    assert Raises(runs[k], f, mandatory[f]);
    assert Raised(runs, f, origin) && Raised(runs, f, mandatory[f]);
  }

  function SeatReviews(reviews: seq<Review>, id: ReviewerId, role: WorkerRole, round: nat): seq<Review> {
    if reviews == [] then []
    else
      var front := SeatReviews(reviews[..|reviews| - 1], id, role, round);
      if Sits(reviews[|reviews| - 1], id, role, round) then front + [reviews[|reviews| - 1]] else front
  }

  lemma {:induction false} SeatReviewsHold(reviews: seq<Review>, id: ReviewerId, role: WorkerRole, round: nat)
    ensures |SeatReviews(reviews, id, role, round)| == CountSeat(reviews, id, role, round)
    ensures forall r :: r in SeatReviews(reviews, id, role, round) <==> r in reviews && Sits(r, id, role, round)
  {
    if reviews == [] {
    } else {
      var front, last := reviews[..|reviews| - 1], reviews[|reviews| - 1];
      SeatReviewsHold(front, id, role, round);
      assert reviews == front + [last];
    }
  }

  /** The reviews of required reviewers, whose highest round is the round that counts. */
  function RequiredReviews(w: Workflow, reviews: seq<Review>): seq<Review> {
    if reviews == [] then []
    else
      var front, last := RequiredReviews(w, reviews[..|reviews| - 1]), reviews[|reviews| - 1];
      if last.reviewer in w.RequiredIds() then front + [last] else front
  }

  lemma {:induction false} RequiredReviewsHold(w: Workflow, reviews: seq<Review>)
    ensures forall r :: r in RequiredReviews(w, reviews) <==> r in reviews && r.reviewer in w.RequiredIds()
  {
    if reviews == [] {
    } else {
      var front, last := reviews[..|reviews| - 1], reviews[|reviews| - 1];
      RequiredReviewsHold(w, front);
      assert reviews == front + [last];
    }
  }

  lemma {:induction false} TopRoundHolds(reviews: seq<Review>)
    ensures forall r :: r in reviews ==> r.round <= TopRound(reviews)
    ensures reviews != [] ==> exists r :: r in reviews && r.round == TopRound(reviews)
  {
    if reviews == [] {
    } else {
      var front, last := reviews[..|reviews| - 1], reviews[|reviews| - 1];
      TopRoundHolds(front);
      assert reviews == front + [last];
      if front != [] {
        var r :| r in front && r.round == TopRound(front);
        assert r in reviews && last in reviews;
      } else {
        assert last in reviews;
      }
    }
  }

  /** The list check on one required seat decides exactly the declarative approval. */
  lemma SeatApproval(w: Workflow, reviews: seq<Review>, id: ReviewerId, role: WorkerRole, matching: seq<Review>)
    requires id in w.RequiredIds()
    requires matching == SeatReviews(reviews, id, role, TopRound(RequiredReviews(w, reviews)))
    ensures Approved(w, reviews, id, role) <==>
            |matching| == 1 && matching[0].outcome.Approve? && matching[0].findings == []
  {
    hide RequiredReviews, TopRound, SeatReviews, CountSeat;
    var top := TopRound(RequiredReviews(w, reviews));
    SeatReviewsHold(reviews, id, role, top);
    RequiredReviewsHold(w, reviews);
    TopRoundHolds(RequiredReviews(w, reviews));
    if Approved(w, reviews, id, role) {
      var r :| r in reviews && Approves(w, reviews, r, id, role);
      assert r in RequiredReviews(w, reviews);
      var highest :| highest in RequiredReviews(w, reviews) && highest.round == top;
      assert highest.round <= r.round;
      assert r in matching;
    }
    if |matching| == 1 && matching[0].outcome.Approve? && matching[0].findings == [] {
      assert matching[0] in matching;
      assert Approves(w, reviews, matching[0], id, role);
    }
  }

  predicate Unapproved(w: Workflow, reviews: seq<Review>, seats: seq<Seat>, b: Blocker) {
    b.MissingApproval? &&
    exists i :: 0 <= i < |seats| && seats[i].id == b.reviewer && !Approved(w, reviews, seats[i].id, seats[i].role)
  }

  method CheckApprovals(
    w: Workflow, reviews: seq<Review>, seats: seq<Seat>, blockers: seq<Blocker>) returns (out: seq<Blocker>)
    requires forall s :: s in seats ==> s.id in w.RequiredIds()
    ensures blockers <= out && forall b :: b in out <==> b in blockers || Unapproved(w, reviews, seats, b)
  {
    out := blockers;
    var round := TopRound(RequiredReviews(w, reviews));
    for i := 0 to |seats|
      invariant blockers <= out && forall b :: b in out <==> b in blockers || Unapproved(w, reviews, seats[..i], b)
    {
      var seat := seats[i];
      var matching := SeatReviews(reviews, seat.id, seat.role, round);
      SeatApproval(w, reviews, seat.id, seat.role, matching);
      forall b
        ensures Unapproved(w, reviews, seats[..i + 1], b) <==>
                Unapproved(w, reviews, seats[..i], b) ||
                (b == MissingApproval(seat.id) && !Approved(w, reviews, seat.id, seat.role))
      {
        UnapprovedAppend(w, reviews, seats, i, b);
      }
      if |matching| != 1 || !matching[0].outcome.Approve? || matching[0].findings != [] {
        out := PushUnique(out, MissingApproval(seat.id));
      }
    }
    assert seats[..|seats|] == seats;
  }

  lemma UnapprovedAppend(w: Workflow, reviews: seq<Review>, seats: seq<Seat>, i: nat, b: Blocker)
    requires i < |seats|
    ensures Unapproved(w, reviews, seats[..i + 1], b) <==>
            Unapproved(w, reviews, seats[..i], b) ||
            (b == MissingApproval(seats[i].id) && !Approved(w, reviews, seats[i].id, seats[i].role))
  {
    hide Approved;
    var less, more := seats[..i], seats[..i + 1];
    if Unapproved(w, reviews, less, b) {
      var k :| 0 <= k < |less| && less[k].id == b.reviewer && !Approved(w, reviews, less[k].id, less[k].role);
      assert more[k] == less[k];
    }
    if b == MissingApproval(seats[i].id) && !Approved(w, reviews, seats[i].id, seats[i].role) {
      assert more[i] == seats[i];
    }
    if Unapproved(w, reviews, more, b) && !Unapproved(w, reviews, less, b) {
      var k :| 0 <= k < |more| && more[k].id == b.reviewer && !Approved(w, reviews, more[k].id, more[k].role);
      assert k < i ==> less[k] == more[k];
    }
  }

  /** The finding blockers among the findings already visited. */
  predicate Open(t: Target, e: Evidence, visited: set<FindingId>, b: Blocker) {
    (b.MissingResolution? && b.finding in visited && Resolution(b.finding, t.Source()) !in e.resolutions) ||
    (b.MissingConfirmation? && b.origin in visited && b.origin in e.mandatory &&
     !exists r :: r in e.reviews && Confirms(t, r, b.origin, e.mandatory[b.origin]))
  }

  method CheckFindings(t: Target, e: Evidence, blockers: seq<Blocker>) returns (out: seq<Blocker>)
    ensures blockers <= out && forall b :: b in out <==> b in blockers || Open(t, e, e.mandatory.Keys, b)
  {
    out := blockers;
    var rest := e.mandatory.Keys;
    while rest != {}
      invariant rest <= e.mandatory.Keys && blockers <= out
      invariant forall b :: b in out <==> b in blockers || Open(t, e, e.mandatory.Keys - rest, b)
      decreases |rest|
    {
      var f :| f in rest;
      if !exists x :: x in e.resolutions && x.finding == f && x.head == t.Source() {
        assert Resolution(f, t.Source()) !in e.resolutions;
        out := PushUnique(out, MissingResolution(f));
      }
      if !exists r :: r in e.reviews && Confirms(t, r, f, e.mandatory[f]) {
        out := PushUnique(out, MissingConfirmation(f));
      }
      rest := rest - {f};
    }
    assert e.mandatory.Keys - rest == e.mandatory.Keys;
  }

  /** The gate's verdict: an error exactly for a finding with two origins, otherwise exactly the missing evidence. */
  method ValidateLedgerJoin(
    t: Target, w: Workflow, runs: seq<Run>, blockers: seq<Blocker>) returns (r: Result<seq<Blocker>, GateError>)
    ensures r.Err? <==> exists f :: Conflicting(runs, f)
    ensures r.Err? ==> Conflicting(runs, r.error.finding)
    ensures r.Ok? ==> blockers <= r.value && forall b :: b in r.value <==> b in blockers || Missing(t, w, runs, b)
  {
    hide Missing, Unapproved, Open, Conflicting;
    var collected := CollectEvidence(t, runs);
    if collected.Err? {
      return Err(collected.error);
    }
    var e := collected.value;
    OneOrigin(t, runs, e);
    var out := blockers;
    if !e.planner {
      out := PushUnique(out, MissingPlan);
    }
    if !e.builder {
      out := PushUnique(out, MissingBuild);
    }
    var seats := SortedSeats(w.reviewers);
    RequiredSeats(w, seats);
    var approved := CheckApprovals(w, e.reviews, seats, out);
    var gated := CheckFindings(t, e, approved);
    forall b ensures b in gated <==> b in blockers || Missing(t, w, runs, b) {
      MissingParts(t, w, runs, e, seats, b);
    }
    return Ok(gated);
  }

  lemma RequiredSeats(w: Workflow, seats: seq<Seat>)
    requires forall s :: s in seats <==> s in w.reviewers && s.mode == Required
    ensures forall s :: s in seats ==> s.id in w.RequiredIds()
  {
  }

  lemma OneOrigin(t: Target, runs: seq<Run>, e: Evidence)
    requires Collected(t, runs, e)
    ensures !exists f :: Conflicting(runs, f)
  {
  }

  /** Each kind of missing evidence is found by its own part of the check. */
  lemma MissingParts(t: Target, w: Workflow, runs: seq<Run>, e: Evidence, seats: seq<Seat>, b: Blocker)
    requires Collected(t, runs, e) && forall s :: s in seats <==> s in w.reviewers && s.mode == Required
    ensures Missing(t, w, runs, b) <==>
            (b.MissingPlan? && !e.planner) || (b.MissingBuild? && !e.builder) || Unapproved(w, e.reviews, seats, b) ||
            Open(t, e, e.mandatory.Keys, b)
  {
    hide Approved, Raised, Resolved, CurrentReviews;
    match b {
      case MissingApproval(id) =>
        if Missing(t, w, runs, b) {
          var s :| s in w.reviewers && s.mode.Required? && s.id == id && !Approved(w, e.reviews, id, s.role);
          assert s in seats;
        }
      case _ =>
    }
  }

  // ---- when the gate is clear, run by run ----

  /** The build the gate asks for: the published one, which left a head, or one that built the head itself. */
  predicate Delivers(t: Target, run: Run) {
    run.result.BuilderResult? && run.result.build.outcome == BuilderOutcome.ReviewReady &&
    run.result.build.plan == t.plan &&
    match t.published
    case Some(build) => run.result.build == build && build.head.Some?
    case None => run.result.build.head == Some(t.head)
  }

  /** A review of the current cohort, on the plan, pull request and exact head of the gate. */
  predicate Exact(t: Target, run: Run) {
    run.current && run.result.ReviewResult? && run.result.review.plan == t.plan && run.result.review.pr == t.pr &&
    run.result.review.head == t.head
  }

  /** The run at i is the one clean approval of this seat in the latest round of the required reviewers. */
  ghost predicate SoleApproval(t: Target, w: Workflow, runs: seq<Run>, i: int, s: Seat) {
    0 <= i < |runs| && Exact(t, runs[i]) &&
    var r := runs[i].result.review;
    r.reviewer == s.id && r.role == s.role && r.outcome == ReviewOutcome.Approve && r.findings == [] &&
    forall j {:trigger runs[j]} :: 0 <= j < |runs| && Exact(t, runs[j]) ==>
      var x := runs[j].result.review;
      (x.reviewer in w.RequiredIds() ==> x.round <= r.round) &&
      (j != i && x.reviewer == s.id && x.role == s.role ==> x.round != r.round)
  }

  /** A finding is settled: the build resolved it on its own head, and its origin confirmed it on the gate's. */
  ghost predicate Settled(t: Target, runs: seq<Run>, finding: FindingId, origin: ReviewerId) {
    (exists i :: 0 <= i < |runs| && Delivers(t, runs[i]) &&
       Resolution(finding, runs[i].result.build.head.value) in runs[i].result.build.resolutions) &&
    exists i :: 0 <= i < |runs| && Exact(t, runs[i]) && runs[i].result.review.reviewer == origin &&
      Confirmation(finding, true, t.head) in runs[i].result.review.confirmations
  }

  /** The gate is clear: an accepted plan, the exact build, one clean approval of the latest round by every required
      reviewer, and every finding any review ever raised settled. */
  ghost predicate Clear(t: Target, w: Workflow, runs: seq<Run>) {
    (exists i :: 0 <= i < |runs| &&
       runs[i].result.PlannerResult? && runs[i].result.plannerOutcome == PlannerOutcome.Proceed &&
       runs[i].result.planVersion == t.plan) &&
    (exists i :: 0 <= i < |runs| && Delivers(t, runs[i])) &&
    (forall s :: s in w.reviewers && s.mode == Required ==> exists i :: SoleApproval(t, w, runs, i, s)) &&
    forall i, f :: 0 <= i < |runs| && runs[i].result.ReviewResult? && f in runs[i].result.review.findings ==>
      Settled(t, runs, f, runs[i].result.review.reviewer)
  }

  lemma BuildExactly(t: Target, run: Run)
    ensures ExactBuild(t, run.result) <==> Delivers(t, run)
    ensures Delivers(t, run) ==> run.result.build.head == Some(t.Source())
  {
  }

  lemma {:induction false} CurrentExactly(t: Target, runs: seq<Run>, r: Review)
    ensures r in CurrentReviews(t, runs) <==>
            exists i :: 0 <= i < |runs| && Exact(t, runs[i]) && runs[i].result.review == r
  {
    if runs == [] {
    } else {
      var front, last := runs[..|runs| - 1], runs[|runs| - 1];
      assert runs == front + [last];
      CurrentExactly(t, front, r);
      if i :| 0 <= i < |front| && Exact(t, front[i]) && front[i].result.review == r {
        assert runs[i] == front[i];
      }
    }
  }

  predicate Occupies(t: Target, run: Run, s: Seat, round: nat) {
    Exact(t, run) && run.result.review.reviewer == s.id && run.result.review.role == s.role &&
    run.result.review.round == round
  }

  /** The positions of the current reviews of one seat in one round. */
  function Positions(t: Target, runs: seq<Run>, s: Seat, round: nat): set<nat> {
    set i: nat | i < |runs| && Occupies(t, runs[i], s, round)
  }

  lemma PositionsAppend(t: Target, front: seq<Run>, last: Run, s: Seat, round: nat)
    ensures Positions(t, front + [last], s, round) ==
            Positions(t, front, s, round) + if Occupies(t, last, s, round) then {|front|} else {}
  {
    hide Occupies;
  }

  lemma {:induction false} PositionsCount(t: Target, runs: seq<Run>, s: Seat, round: nat)
    ensures |Positions(t, runs, s, round)| == CountSeat(CurrentReviews(t, runs), s.id, s.role, round)
  {
    if runs == [] {
      assert Positions(t, runs, s, round) == {};
    } else {
      var front, last := runs[..|runs| - 1], runs[|runs| - 1];
      assert runs == front + [last];
      PositionsCount(t, front, s, round);
      PositionsAppend(t, front, last, s, round);
      assert |front| !in Positions(t, front, s, round);
      SeatOfLast(t, front, last, s, round);
    }
  }

  lemma SeatOfLast(t: Target, front: seq<Run>, last: Run, s: Seat, round: nat)
    ensures CountSeat(CurrentReviews(t, front + [last]), s.id, s.role, round) ==
            CountSeat(CurrentReviews(t, front), s.id, s.role, round) + if Occupies(t, last, s, round) then 1 else 0
  {
    var reviews := CurrentReviews(t, front);
    assert (front + [last])[..|front|] == front;
    if Exact(t, last) {
      assert (reviews + [last.result.review])[..|reviews|] == reviews;
    }
  }

  lemma OnePosition(t: Target, runs: seq<Run>, s: Seat, round: nat, i: nat)
    requires i in Positions(t, runs, s, round)
    ensures |Positions(t, runs, s, round)| == 1 <==> Positions(t, runs, s, round) == {i}
  {
    var all := Positions(t, runs, s, round);
    assert all == {i} + (all - {i});
  }

  lemma ApprovalExactly(t: Target, w: Workflow, runs: seq<Run>, s: Seat)
    ensures Approved(w, CurrentReviews(t, runs), s.id, s.role) <==> exists i :: SoleApproval(t, w, runs, i, s)
  {
    hide CurrentReviews, CountSeat;
    var reviews := CurrentReviews(t, runs);
    forall r ensures r in reviews <==> exists i :: 0 <= i < |runs| && Exact(t, runs[i]) && runs[i].result.review == r {
      CurrentExactly(t, runs, r);
    }
    if Approved(w, reviews, s.id, s.role) {
      var r :| r in reviews && Approves(w, reviews, r, s.id, s.role);
      var i :| 0 <= i < |runs| && Exact(t, runs[i]) && runs[i].result.review == r;
      PositionsCount(t, runs, s, r.round);
      OnePosition(t, runs, s, r.round, i);
      ApprovalAt(t, w, runs, s, i);
    }
    if i :| SoleApproval(t, w, runs, i, s) {
      var r := runs[i].result.review;
      PositionsCount(t, runs, s, r.round);
      OnePosition(t, runs, s, r.round, i);
      assert Positions(t, runs, s, r.round) == {i};
      assert Approves(w, reviews, r, s.id, s.role);
    }
  }

  lemma ApprovalAt(t: Target, w: Workflow, runs: seq<Run>, s: Seat, i: nat)
    requires i < |runs| && Exact(t, runs[i]) && runs[i].result.review.reviewer == s.id
    requires runs[i].result.review.role == s.role && runs[i].result.review.outcome.Approve?
    requires runs[i].result.review.findings == [] && Positions(t, runs, s, runs[i].result.review.round) == {i}
    requires forall j :: 0 <= j < |runs| && Exact(t, runs[j]) && runs[j].result.review.reviewer in w.RequiredIds() ==>
               runs[j].result.review.round <= runs[i].result.review.round
    ensures SoleApproval(t, w, runs, i, s)
  {
    forall j | 0 <= j < |runs| && Exact(t, runs[j]) && j != i && runs[j].result.review.reviewer == s.id &&
               runs[j].result.review.role == s.role
      ensures runs[j].result.review.round != runs[i].result.review.round
    {
      assert j !in Positions(t, runs, s, runs[i].result.review.round);
    }
  }

  lemma SettledExactly(t: Target, runs: seq<Run>, f: FindingId, origin: ReviewerId)
    ensures Settled(t, runs, f, origin) <==> Resolved(t, runs, f) && Confirmed(t, runs, f, origin)
  {
    hide Resolved, Confirmed, Delivers;
    ResolvedExactly(t, runs, f);
    ConfirmedExactly(t, runs, f, origin);
  }

  lemma ResolvedExactly(t: Target, runs: seq<Run>, f: FindingId)
    ensures Resolved(t, runs, f) <==>
            exists i :: 0 <= i < |runs| && Delivers(t, runs[i]) &&
              Resolution(f, runs[i].result.build.head.value) in runs[i].result.build.resolutions
  {
    if Resolved(t, runs, f) {
      var i :| 0 <= i < |runs| && Resolves(t, runs[i].result, f);
      BuildExactly(t, runs[i]);
    }
    if i :| 0 <= i < |runs| && Delivers(t, runs[i]) &&
            Resolution(f, runs[i].result.build.head.value) in runs[i].result.build.resolutions {
      BuildExactly(t, runs[i]);
      assert Resolves(t, runs[i].result, f);
    }
  }

  lemma ConfirmedExactly(t: Target, runs: seq<Run>, f: FindingId, origin: ReviewerId)
    ensures Confirmed(t, runs, f, origin) <==>
            exists i :: 0 <= i < |runs| && Exact(t, runs[i]) && runs[i].result.review.reviewer == origin &&
              Confirmation(f, true, t.head) in runs[i].result.review.confirmations
  {
    hide CurrentReviews;
    if Confirmed(t, runs, f, origin) {
      var r :| r in CurrentReviews(t, runs) && Confirms(t, r, f, origin);
      CurrentExactly(t, runs, r);
    }
    if i :| 0 <= i < |runs| && Exact(t, runs[i]) && runs[i].result.review.reviewer == origin &&
            Confirmation(f, true, t.head) in runs[i].result.review.confirmations {
      CurrentExactly(t, runs, runs[i].result.review);
      assert Confirms(t, runs[i].result.review, f, origin);
    }
  }

  /** Soundness and completeness of the gate: nothing is missing exactly when the gate is clear. */
  lemma GateExact(t: Target, w: Workflow, runs: seq<Run>)
    ensures (forall b :: !Missing(t, w, runs, b)) <==> Clear(t, w, runs)
  {
    hide Approved, Resolved, Confirmed, CurrentReviews, Settled, SoleApproval, ExactBuild, Delivers;
    forall i | 0 <= i < |runs| ensures ExactBuild(t, runs[i].result) <==> Delivers(t, runs[i]) {
      BuildExactly(t, runs[i]);
    }
    forall s: Seat ensures Approved(w, CurrentReviews(t, runs), s.id, s.role) <==>
                           exists i :: SoleApproval(t, w, runs, i, s) {
      ApprovalExactly(t, w, runs, s);
    }
    forall f, origin
      ensures Settled(t, runs, f, origin) <==> Resolved(t, runs, f) && Confirmed(t, runs, f, origin)
    {
      SettledExactly(t, runs, f, origin);
    }
    if forall b :: !Missing(t, w, runs, b) {
      assert !Missing(t, w, runs, MissingPlan) && !Missing(t, w, runs, MissingBuild);
      forall s | s in w.reviewers && s.mode == Required ensures exists i :: SoleApproval(t, w, runs, i, s) {
        assert !Missing(t, w, runs, MissingApproval(s.id));
      }
      forall i, f | 0 <= i < |runs| && runs[i].result.ReviewResult? && f in runs[i].result.review.findings
        ensures Settled(t, runs, f, runs[i].result.review.reviewer)
      {
        assert Raised(runs, f, runs[i].result.review.reviewer);
        assert !Missing(t, w, runs, MissingResolution(f)) && !Missing(t, w, runs, MissingConfirmation(f));
      }
    }
    if Clear(t, w, runs) {
      ClearMisses(t, w, runs);
    }
  }

  lemma ClearMisses(t: Target, w: Workflow, runs: seq<Run>)
    requires Clear(t, w, runs)
    ensures forall b :: !Missing(t, w, runs, b)
  {
    hide Approved, Resolved, Confirmed, CurrentReviews, Settled, SoleApproval, ExactBuild, Delivers;
    forall b ensures !Missing(t, w, runs, b) {
      match b {
        case MissingPlan =>
          var i :| 0 <= i < |runs| &&
                   runs[i].result.PlannerResult? && runs[i].result.plannerOutcome == PlannerOutcome.Proceed &&
                   runs[i].result.planVersion == t.plan;
          assert AcceptedPlan(t, runs[i].result);
        case MissingBuild =>
          var i :| 0 <= i < |runs| && Delivers(t, runs[i]);
          BuildExactly(t, runs[i]);
        case MissingApproval(id) =>
          forall s | s in w.reviewers && s.mode.Required? && s.id == id
            ensures Approved(w, CurrentReviews(t, runs), id, s.role)
          {
            ApprovalExactly(t, w, runs, s);
          }
        case MissingResolution(f) =>
          forall origin | Raised(runs, f, origin) ensures Resolved(t, runs, f) {
            RaisedSettles(t, w, runs, f, origin);
          }
        case MissingConfirmation(f) =>
          forall origin | Raised(runs, f, origin) ensures Confirmed(t, runs, f, origin) {
            RaisedSettles(t, w, runs, f, origin);
          }
      }
    }
  }

  lemma RaisedSettles(t: Target, w: Workflow, runs: seq<Run>, f: FindingId, origin: ReviewerId)
    requires Clear(t, w, runs) && Raised(runs, f, origin)
    ensures Resolved(t, runs, f) && Confirmed(t, runs, f, origin)
  {
    hide Approved, Resolved, Confirmed, CurrentReviews, Settled, SoleApproval, Delivers;
    var i :| 0 <= i < |runs| && Raises(runs[i], f, origin);
    assert Settled(t, runs, f, runs[i].result.review.reviewer);
    SettledExactly(t, runs, f, origin);
  }

  // ---- the verdict does not depend on the order of the history ----

  /** Where a permutation keeps the last element, and what is left without it. */
  lemma SplitLast<T>(a: seq<T>, b: seq<T>) returns (k: nat)
    requires multiset(a) == multiset(b) && a != []
    ensures k < |b| && b[k] == a[|a| - 1] && b == b[..k] + ([b[k]] + b[k + 1..])
    ensures multiset(a[..|a| - 1]) == multiset(b[..k] + b[k + 1..])
  {
    var last := a[|a| - 1];
    WithoutAt(a, |a| - 1);
    assert a[..|a| - 1] + a[|a|..] == a[..|a| - 1];
    assert last in multiset(b);
    k :| k < |b| && b[k] == last;
    WithoutAt(b, k);
  }

  lemma WithoutAt<T>(s: seq<T>, k: nat)
    requires k < |s|
    ensures s == s[..k] + ([s[k]] + s[k + 1..])
    ensures multiset(s[..k] + s[k + 1..]) == multiset(s) - multiset{s[k]}
  {
  }

  lemma {:induction false} ReviewsPermute(t: Target, a: seq<Run>, b: seq<Run>)
    requires multiset(a) == multiset(b)
    ensures multiset(CurrentReviews(t, a)) == multiset(CurrentReviews(t, b))
    decreases |a|
  {
    hide CurrentReviews;
    if a == [] {
      assert |multiset(b)| == 0;
    } else {
      var k := SplitLast(a, b);
      var front, left, right := a[..|a| - 1], b[..k], b[k + 1..];
      ReviewsPermute(t, front, left + right);
      CurrentConcat(t, left, right);
      CurrentConcat(t, left, [b[k]] + right);
      CurrentConcat(t, [b[k]], right);
      assert a == front + [b[k]];
      CurrentConcat(t, front, [b[k]]);
    }
  }

  lemma {:induction false} CurrentConcat(t: Target, a: seq<Run>, b: seq<Run>)
    ensures CurrentReviews(t, a + b) == CurrentReviews(t, a) + CurrentReviews(t, b)
  {
    if b == [] {
      assert a + b == a;
    } else {
      CurrentConcat(t, a, b[..|b| - 1]);
      assert (a + b)[..|a + b| - 1] == a + b[..|b| - 1];
    }
  }

  lemma {:induction false} SeatsPermute(a: seq<Review>, b: seq<Review>, id: ReviewerId, role: WorkerRole, round: nat)
    requires multiset(a) == multiset(b)
    ensures CountSeat(a, id, role, round) == CountSeat(b, id, role, round)
    decreases |a|
  {
    hide CountSeat;
    if a == [] {
      assert |multiset(b)| == 0;
    } else {
      var k := SplitLast(a, b);
      var front, left, right := a[..|a| - 1], b[..k], b[k + 1..];
      SeatsPermute(front, left + right, id, role, round);
      SeatConcat(left, right, id, role, round);
      SeatConcat(left, [b[k]] + right, id, role, round);
      SeatConcat([b[k]], right, id, role, round);
      assert a == front + [b[k]];
      SeatConcat(front, [b[k]], id, role, round);
    }
  }

  lemma {:induction false} SeatConcat(a: seq<Review>, b: seq<Review>, id: ReviewerId, role: WorkerRole, round: nat)
    ensures CountSeat(a + b, id, role, round) == CountSeat(a, id, role, round) + CountSeat(b, id, role, round)
  {
    if b == [] {
      assert a + b == a;
    } else {
      SeatConcat(a, b[..|b| - 1], id, role, round);
      assert (a + b)[..|a + b| - 1] == a + b[..|b| - 1];
    }
  }

  lemma SameMembers<T>(a: seq<T>, b: seq<T>)
    requires multiset(a) == multiset(b)
    ensures forall x :: x in a <==> x in b
  {
    forall x ensures x in a <==> x in b {
      assert x in a <==> x in multiset(a);
      assert x in b <==> x in multiset(b);
    }
  }

  /** One half of the invariance: whatever is present in one order is present in the other. */
  lemma PresentPermutes(t: Target, a: seq<Run>, b: seq<Run>, f: FindingId, origin: ReviewerId)
    requires multiset(a) == multiset(b)
    ensures (exists i :: 0 <= i < |a| && AcceptedPlan(t, a[i].result)) ==>
              (exists i :: 0 <= i < |b| && AcceptedPlan(t, b[i].result))
    ensures (exists i :: 0 <= i < |a| && ExactBuild(t, a[i].result)) ==>
              (exists i :: 0 <= i < |b| && ExactBuild(t, b[i].result))
    ensures Raised(a, f, origin) ==> Raised(b, f, origin)
    ensures Resolved(t, a, f) ==> Resolved(t, b, f)
  {
    hide AcceptedPlan, ExactBuild, Raises;
    SameMembers(a, b);
    if i :| 0 <= i < |a| && AcceptedPlan(t, a[i].result) {
      assert a[i] in b;
      var k :| 0 <= k < |b| && b[k] == a[i];
    }
    if i :| 0 <= i < |a| && ExactBuild(t, a[i].result) {
      assert a[i] in b;
      var k :| 0 <= k < |b| && b[k] == a[i];
    }
    if Raised(a, f, origin) {
      var i :| 0 <= i < |a| && Raises(a[i], f, origin);
      assert a[i] in b;
      var k :| 0 <= k < |b| && b[k] == a[i];
    }
    ResolvedPermutes(t, a, b, f);
  }

  lemma ResolvedPermutes(t: Target, a: seq<Run>, b: seq<Run>, f: FindingId)
    requires forall x :: x in a <==> x in b
    ensures Resolved(t, a, f) ==> Resolved(t, b, f)
  {
    if Resolved(t, a, f) {
      var i :| 0 <= i < |a| && ExactBuild(t, a[i].result) && Resolution(f, t.Source()) in a[i].result.build.resolutions;
      assert a[i] in b;
      var k :| 0 <= k < |b| && b[k] == a[i];
    }
  }

  lemma ApprovalPermutes(w: Workflow, a: seq<Review>, b: seq<Review>, id: ReviewerId, role: WorkerRole)
    requires multiset(a) == multiset(b) && Approved(w, a, id, role)
    ensures Approved(w, b, id, role)
  {
    SameMembers(a, b);
    var r :| r in a && Approves(w, a, r, id, role);
    SeatsPermute(a, b, id, role, r.round);
    assert Approves(w, b, r, id, role);
  }

  lemma MissingPermutes(t: Target, w: Workflow, a: seq<Run>, b: seq<Run>, x: Blocker)
    requires multiset(a) == multiset(b) && Missing(t, w, a, x)
    ensures Missing(t, w, b, x)
  {
    hide Approved, Raised, Resolved, CurrentReviews, ExactBuild, AcceptedPlan;
    ReviewsPermute(t, a, b);
    SameMembers(CurrentReviews(t, a), CurrentReviews(t, b));
    match x {
      case MissingApproval(id) =>
        var s :| s in w.reviewers && s.mode.Required? && s.id == id && !Approved(w, CurrentReviews(t, a), id, s.role);
        if Approved(w, CurrentReviews(t, b), id, s.role) {
          ApprovalPermutes(w, CurrentReviews(t, b), CurrentReviews(t, a), id, s.role);
        }
      case MissingResolution(f) =>
        var origin :| Raised(a, f, origin);
        PresentPermutes(t, a, b, f, origin);
        PresentPermutes(t, b, a, f, origin);
      case MissingConfirmation(f) =>
        var origin :| Raised(a, f, origin) && !Confirmed(t, a, f, origin);
        PresentPermutes(t, a, b, f, origin);
        assert !Confirmed(t, b, f, origin);
      case _ => PresentPermutes(t, b, a, 0, 0);
    }
  }

  /** The gate decides the same for every order of the run history. */
  lemma GateOrderIndependent(t: Target, w: Workflow, a: seq<Run>, b: seq<Run>, x: Blocker, f: FindingId)
    requires multiset(a) == multiset(b)
    ensures Missing(t, w, a, x) <==> Missing(t, w, b, x)
    ensures Conflicting(a, f) <==> Conflicting(b, f)
  {
    hide Missing, Raised;
    if Missing(t, w, a, x) { MissingPermutes(t, w, a, b, x); }
    if Missing(t, w, b, x) { MissingPermutes(t, w, b, a, x); }
    forall origin ensures Raised(a, f, origin) <==> Raised(b, f, origin) {
      PresentPermutes(t, a, b, f, origin);
      PresentPermutes(t, b, a, f, origin);
    }
  }

  // ---- the latest published review of a role ----

  datatype Lane = General | Secperf

  /** A review as published: `submitted` orders its submission times, `lane` is its stamped role. */
  datatype Published = Published(
    id: nat, submitted: Option<nat>, exactHead: bool, commit: Option<Sha>,
    lane: Option<Lane>, actor: nat, approved: bool)

  /** A finished review of the exact head, stamped with a role by that role's own actor. */
  predicate Counts(actors: map<Lane, nat>, head: Sha, lane: Lane, p: Published) {
    p.exactHead && p.commit == Some(head) && p.submitted.Some? && p.lane == Some(lane) && lane in actors &&
    actors[lane] == p.actor
  }

  predicate Later(a: Published, b: Published)
    requires a.submitted.Some? && b.submitted.Some?
  {
    a.submitted.value > b.submitted.value || (a.submitted.value == b.submitted.value && a.id > b.id)
  }

  /** The review at i is the role's latest: none is later, and none before it is as late. */
  predicate IsLatest(actors: map<Lane, nat>, head: Sha, lane: Lane, reviews: seq<Published>, i: int) {
    0 <= i < |reviews| && Counts(actors, head, lane, reviews[i]) &&
    forall j :: 0 <= j < |reviews| && Counts(actors, head, lane, reviews[j]) ==>
      var a, b := reviews[i], reviews[j];
      b.submitted.value <= a.submitted.value &&
      (b.submitted == a.submitted ==> b.id <= a.id && (j < i ==> b.id < a.id))
  }

  /** The running maximum of one role over the reviews seen so far, with its position. */
  predicate Best(
    actors: map<Lane, nat>, head: Sha, lane: Lane, reviews: seq<Published>, best: Option<Published>, at: int) {
    if best.None? then forall j :: 0 <= j < |reviews| ==> !Counts(actors, head, lane, reviews[j])
    else IsLatest(actors, head, lane, reviews, at) && reviews[at] == best.value
  }

  /** The role's latest review, or none when no review counts. */
  ghost predicate IsBest(
    actors: map<Lane, nat>, head: Sha, lane: Lane, reviews: seq<Published>, best: Option<Published>) {
    exists at :: Best(actors, head, lane, reviews, best, at)
  }

  function Held(latest: map<Lane, Published>, lane: Lane): Option<Published> {
    if lane in latest then Some(latest[lane]) else None
  }

  lemma BestSkips(
    actors: map<Lane, nat>, head: Sha, lane: Lane, reviews: seq<Published>, best: Option<Published>, at: int,
    review: Published)
    requires Best(actors, head, lane, reviews, best, at)
    requires !Counts(actors, head, lane, review) ||
             (best.Some? && best.value.submitted.Some? && !Later(review, best.value))
    ensures Best(actors, head, lane, reviews + [review], best, at)
  {
  }

  lemma BestMoves(
    actors: map<Lane, nat>, head: Sha, lane: Lane, reviews: seq<Published>, best: Option<Published>, at: int,
    review: Published)
    requires Best(actors, head, lane, reviews, best, at) && Counts(actors, head, lane, review)
    requires best.Some? ==> best.value.submitted.Some? && Later(review, best.value)
    ensures Best(actors, head, lane, reviews + [review], Some(review), |reviews|)
  {
  }

  method LatestReviews(
    actors: map<Lane, nat>, head: Sha, reviews: seq<Published>) returns (latest: map<Lane, Published>)
    ensures forall lane: Lane :: IsBest(actors, head, lane, reviews, Held(latest, lane))
  {
    latest := map[];
    ghost var at: map<Lane, int> := map[General := 0, Secperf := 0];
    forall lane: Lane ensures lane in at {
      match lane { case General => case Secperf => }
    }
    for i := 0 to |reviews|
      invariant forall lane: Lane :: lane in at && Best(actors, head, lane, reviews[..i], Held(latest, lane), at[lane])
    {
      var review := reviews[i];
      assert reviews[..i + 1] == reviews[..i] + [review];
      ghost var before, positions := latest, at;
      if review.exactHead && review.commit == Some(head) && review.submitted.Some? && review.lane.Some? {
        var lane := review.lane.value;
        if lane in actors && actors[lane] == review.actor {
          BestIsSubmitted(actors, head, lane, reviews[..i], Held(latest, lane), at[lane]);
          if lane !in latest || Later(review, latest[lane]) {
            BestMoves(actors, head, lane, reviews[..i], Held(latest, lane), at[lane], review);
            latest, at := latest[lane := review], at[lane := i];
          }
        }
      }
      forall lane: Lane
        ensures Best(actors, head, lane, reviews[..i + 1], Held(latest, lane), at[lane])
      {
        BestIsSubmitted(actors, head, lane, reviews[..i], Held(before, lane), positions[lane]);
        if latest == before || review.lane != Some(lane) {
          BestSkips(actors, head, lane, reviews[..i], Held(before, lane), positions[lane], review);
        }
      }
    }
    assert reviews[..|reviews|] == reviews;
  }

  lemma BestIsSubmitted(
    actors: map<Lane, nat>, head: Sha, lane: Lane, reviews: seq<Published>, best: Option<Published>, at: int)
    requires Best(actors, head, lane, reviews, best, at)
    ensures best.Some? ==> best.value.submitted.Some?
  {
  }

  predicate LatestApproves(actors: map<Lane, nat>, head: Sha, lane: Lane, reviews: seq<Published>) {
    exists i :: 0 <= i < |reviews| && IsLatest(actors, head, lane, reviews, i) && reviews[i].approved
  }

  /** The latest review of each role must approve. */
  method ValidatePublishedReviews(
    actors: map<Lane, nat>, head: Sha, reviews: seq<Published>, blockers: seq<Lane>) returns (out: seq<Lane>)
    ensures blockers <= out
    ensures forall lane :: lane in out <==> lane in blockers || !LatestApproves(actors, head, lane, reviews)
  {
    var latest := LatestReviews(actors, head, reviews);
    out := blockers;
    forall lane: Lane
      ensures LatestApproves(actors, head, lane, reviews) <==> lane in latest && latest[lane].approved
    {
      var at :| Best(actors, head, lane, reviews, Held(latest, lane), at);
      OneLatest(actors, head, lane, reviews);
    }
    hide LatestApproves;
    if !(General in latest && latest[General].approved) && General !in out {
      out := out + [General];
    }
    if !(Secperf in latest && latest[Secperf].approved) && Secperf !in out {
      out := out + [Secperf];
    }
    forall lane: Lane
      ensures lane in out <==> lane in blockers || !(lane in latest && latest[lane].approved)
    {
      match lane {
        case General => assert General in out <==>
        General in blockers || !(General in latest && latest[General].approved);
        case Secperf => assert Secperf in out <==>
        Secperf in blockers || !(Secperf in latest && latest[Secperf].approved);
      }
    }
  }

  lemma OneLatest(actors: map<Lane, nat>, head: Sha, lane: Lane, reviews: seq<Published>)
    ensures forall i, j :: IsLatest(actors, head, lane, reviews, i) && IsLatest(actors, head, lane, reviews, j) ==>
              i == j
  {
  }

  /** With distinct (time, id) keys the latest review is the maximum, in whatever order the reviews are listed. */
  lemma LatestOrderIndependent(
    actors: map<Lane, nat>, head: Sha, lane: Lane, a: seq<Published>, b: seq<Published>, i: int)
    requires multiset(a) == multiset(b)
    requires forall x, y :: x in a && y in a && x.submitted == y.submitted && x.id == y.id ==> x == y
    requires forall x, y :: 0 <= x < y < |b| ==> b[x] != b[y]
    requires IsLatest(actors, head, lane, a, i)
    ensures exists k :: IsLatest(actors, head, lane, b, k) && b[k] == a[i]
  {
    SameMembers(a, b);
    assert a[i] in b;
    var k :| 0 <= k < |b| && b[k] == a[i];
    forall j | 0 <= j < |b| && Counts(actors, head, lane, b[j])
      ensures !Later(b[j], b[k]) && (j < k ==> Later(b[k], b[j]))
    {
      assert b[j] in a;
    }
    assert IsLatest(actors, head, lane, b, k);
  }
}
