/** The review join of crates/pip-controller/src/results.rs and the published lanes of
    crates/pip-control/src/reviews.rs, for any number of required reviewers. */
module Reviews {
  import opened Prelude
  import SM = StateMachine
  import opened Contracts

  /** One reviewer instance of the workflow policy. */
  datatype Seat = Seat(id: ReviewerId, role: WorkerRole, mode: ReviewMode)

  datatype Workflow = Workflow(reviewers: seq<Seat>)
  {
    /** The reviewer part of `WorkflowPolicy::new`: distinct ids and a required seat in each lane. */
    predicate Valid() {
      (forall i :: 0 <= i < |reviewers| ==> reviewers[i].role.Reviewer()) &&
      (forall i, j :: 0 <= i < j < |reviewers| ==> reviewers[i].id != reviewers[j].id) &&
      (exists i :: 0 <= i < |reviewers| && reviewers[i].role == ReviewerGeneral && reviewers[i].mode == Required) &&
      (exists i :: 0 <= i < |reviewers| && reviewers[i].role == ReviewerSecperf && reviewers[i].mode == Required)
    }

    predicate Requires(id: ReviewerId, role: WorkerRole) { Seat(id, role, Required) in reviewers }

    function RequiredIds(): set<ReviewerId> { set s | s in reviewers && s.mode == Required :: s.id }
  }

  datatype IngestError = ConflictingReviews | InvalidState | InvalidBinding

  // ---- join_review ----

  predicate SameCohort(a: Review, b: Review) {
    a.plan == b.plan && a.round == b.round && a.pr == b.pr && a.head == b.head
  }

  predicate Decided(r: Review) { r.outcome in {ReviewOutcome.Approve, ReviewOutcome.RequestChanges} }

  function ReviewsOf(runs: seq<WorkerResult>): seq<Review> {
    if runs == [] then []
    else
      var last := runs[|runs| - 1];
      var front := ReviewsOf(runs[..|runs| - 1]);
      if last.ReviewResult? then front + [last.review] else front
  }

  function Matching(runs: seq<WorkerResult>, current: Review): seq<Review> {
    if runs == [] then []
    else
      var last := runs[|runs| - 1];
      var front := Matching(runs[..|runs| - 1], current);
      if last.ReviewResult? && SameCohort(last.review, current) then front + [last.review] else front
  }

  /** The matching reviews are those recorded for the same plan, round, pull request and head. */
  lemma {:induction false} MatchingExactly(runs: seq<WorkerResult>, current: Review, r: Review)
    ensures r in Matching(runs, current) <==>
            ReviewResult(r) in runs && r.plan == current.plan && r.round == current.round && r.pr == current.pr &&
            r.head == current.head
  {
    if runs == [] {
    } else {
      var front, last := runs[..|runs| - 1], runs[|runs| - 1];
      assert runs == front + [last];
      MatchingExactly(front, current, r);
    }
  }

  function Ids(reviews: seq<Review>): set<ReviewerId> { set r | r in reviews :: r.reviewer }

  /** The first review of a lane, which stands for its seat when no policy is given. */
  function FirstOf(reviews: seq<Review>, role: WorkerRole): Option<ReviewerId> {
    if reviews == [] then None
    else if reviews[0].role == role then Some(reviews[0].reviewer)
    else FirstOf(reviews[1..], role)
  }

  /** The verdict over a cohort: wait, conflict, changes requested, or approved. */
  function Verdict(required: set<ReviewerId>, cohort: seq<Review>): Result<SM.Event, IngestError> {
    if !(required <= Ids(cohort)) then Ok(SM.ReviewRecorded)
    else if !(Ids(cohort) <= required) || exists r :: r in cohort && !Decided(r) then Err(ConflictingReviews)
    else if exists r :: r in cohort && r.outcome == ReviewOutcome.RequestChanges then Ok(SM.RequestChanges)
    else Ok(SM.ReviewsApproved)
  }

  function Join(policy: Option<Workflow>, recorded: seq<Review>, current: Review): Result<SM.Event, IngestError> {
    var cohort := recorded + [current];
    if current.reviewer in Ids(recorded) then Err(ConflictingReviews)
    else
      match policy
      case Some(w) => Verdict(w.RequiredIds(), cohort)
      case None =>
        match (FirstOf(cohort, ReviewerGeneral), FirstOf(cohort, ReviewerSecperf))
        case (Some(general), Some(secperf)) => Verdict({general, secperf}, cohort)
        case _ => Ok(SM.ReviewRecorded)
  }

  method JoinReview(
    runs: seq<WorkerResult>, policy: Option<Workflow>, current: Review) returns (r: Result<SM.Event, IngestError>)
    ensures r == Join(policy, Matching(runs, current), current)
  {
    var matching: seq<Review> := [];
    for i := 0 to |runs|
      invariant matching == Matching(runs[..i], current)
    {
      assert runs[..i + 1][..i] == runs[..i];
      match runs[i]
      case ReviewResult(previous) =>
        if SameCohort(previous, current) {
          matching := matching + [previous];
        }
      case _ =>
    }
    assert runs[..|runs|] == runs;
    if exists prior :: prior in matching && prior.reviewer == current.reviewer {
      return Err(ConflictingReviews);
    }
    matching := matching + [current];
    var required: set<ReviewerId>;
    match policy {
      case Some(w) => required := w.RequiredIds();
      case None =>
        var general, secperf := FirstOf(matching, ReviewerGeneral), FirstOf(matching, ReviewerSecperf);
        if general.None? || secperf.None? {
          return Ok(SM.ReviewRecorded);
        }
        required := {general.value, secperf.value};
    }
    r := Verdict(required, matching);
  }

  /** The reviewer of the earliest review of a lane. */
  lemma {:induction false} FirstOfExactly(reviews: seq<Review>, role: WorkerRole)
    ensures FirstOf(reviews, role).None? <==> forall i :: 0 <= i < |reviews| ==> reviews[i].role != role
    ensures FirstOf(reviews, role).Some? ==>
              exists i :: 0 <= i < |reviews| && reviews[i].role == role &&
                          FirstOf(reviews, role) == Some(reviews[i].reviewer) &&
                          forall j :: 0 <= j < i ==> reviews[j].role != role
  {
    if reviews != [] && reviews[0].role != role {
      FirstOfExactly(reviews[1..], role);
      if FirstOf(reviews, role).Some? {
        var i :| 0 <= i < |reviews[1..]| && reviews[1..][i].role == role &&
                 FirstOf(reviews, role) == Some(reviews[1..][i].reviewer) &&
                 forall j :: 0 <= j < i ==> reviews[1..][j].role != role;
        assert reviews[i + 1] == reviews[1..][i];
        forall j | 0 <= j < i + 1 ensures reviews[j].role != role {
          assert j > 0 ==> reviews[j] == reviews[1..][j - 1];
        }
      } else {
        forall i | 0 <= i < |reviews| ensures reviews[i].role != role {
          assert i > 0 ==> reviews[i] == reviews[1..][i - 1];
        }
      }
    }
  }

  /** A required seat of this reviewer. */
  predicate SeatOf(w: Workflow, id: ReviewerId) { exists s :: s in w.reviewers && s.mode == Required && s.id == id }

  predicate Answered(reviews: seq<Review>, id: ReviewerId) { exists r :: r in reviews && r.reviewer == id }

  /** Some answer of the cohort is no decision, or comes from no required seat. */
  predicate Stray(w: Workflow, cohort: seq<Review>) {
    exists r :: r in cohort && (r.outcome.Blocked? || r.outcome.BlockedUnexpectedModel? || !SeatOf(w, r.reviewer))
  }

  /** The join says exactly this: a second answer conflicts, a missing required answer waits, and a complete cohort
      conflicts over a stray answer, asks for changes if one does, and approves otherwise. */
  lemma JoinExactly(w: Workflow, recorded: seq<Review>, current: Review)
    ensures
      var cohort := recorded + [current];
      Join(Some(w), recorded, current) ==
      if Answered(recorded, current.reviewer) then Err(ConflictingReviews)
      else if exists id :: SeatOf(w, id) && !Answered(cohort, id) then Ok(SM.ReviewRecorded)
      else if Stray(w, cohort) then Err(ConflictingReviews)
      else if exists r :: r in cohort && r.outcome.RequestChanges? then Ok(SM.RequestChanges)
      else Ok(SM.ReviewsApproved)
  {
    var cohort := recorded + [current];
    forall id ensures id in Ids(cohort) <==> Answered(cohort, id) { }
    forall id ensures id in w.RequiredIds() <==> SeatOf(w, id) { }
    assert current.reviewer in Ids(recorded) <==> Answered(recorded, current.reviewer);
    if Stray(w, cohort) {
      var r :| r in cohort && (r.outcome.Blocked? || r.outcome.BlockedUnexpectedModel? || !SeatOf(w, r.reviewer));
      assert r.reviewer in Ids(cohort);
    }
  }

  /** Without a policy the earliest reviewer of each lane stands for its required seat, and until both lanes have
      answered the join waits. */
  lemma JoinWithoutPolicy(recorded: seq<Review>, current: Review)
    ensures
      var cohort := recorded + [current];
      var general, secperf := FirstOf(cohort, ReviewerGeneral), FirstOf(cohort, ReviewerSecperf);
      Join(None, recorded, current) ==
      if general.Some? && secperf.Some? then
        Join(Some(Workflow([Seat(general.value, ReviewerGeneral, Required),
                            Seat(secperf.value, ReviewerSecperf, Required)])), recorded, current)
      else if Answered(recorded, current.reviewer) then Err(ConflictingReviews)
      else Ok(SM.ReviewRecorded)
  {
    var cohort := recorded + [current];
    var general, secperf := FirstOf(cohort, ReviewerGeneral), FirstOf(cohort, ReviewerSecperf);
    assert current.reviewer in Ids(recorded) <==> Answered(recorded, current.reviewer);
    if general.Some? && secperf.Some? {
      var a, b := Seat(general.value, ReviewerGeneral, Required), Seat(secperf.value, ReviewerSecperf, Required);
      assert forall s :: s in [a, b] <==> s == a || s == b;
      assert Workflow([a, b]).RequiredIds() == {general.value, secperf.value};
    }
  }

  /** A full cohort: one decided review by each required reviewer, all of one generation. */
  predicate Cohort(w: Workflow, arrivals: seq<Review>) {
    Ids(arrivals) == w.RequiredIds() && Distinct(arrivals) &&
    (forall r :: r in arrivals ==> Decided(r))
  }

  predicate Distinct(reviews: seq<Review>) {
    forall i, j :: 0 <= i < j < |reviews| ==> reviews[i].reviewer != reviews[j].reviewer
  }

  predicate Unanimous(reviews: seq<Review>) {
    forall r :: r in reviews ==> r.outcome == ReviewOutcome.Approve
  }

  /** Every arrival but the last waits; the last approves exactly when all approved. */
  lemma JoinArrival(w: Workflow, arrivals: seq<Review>, k: nat)
    requires Cohort(w, arrivals) && k < |arrivals|
    ensures Join(Some(w), arrivals[..k], arrivals[k]) ==
            Ok(if k < |arrivals| - 1 then SM.ReviewRecorded
               else if Unanimous(arrivals) then SM.ReviewsApproved else SM.RequestChanges)
  {
    var cohort := arrivals[..k] + [arrivals[k]];
    assert cohort == arrivals[..k + 1];
    assert arrivals[k].reviewer !in Ids(arrivals[..k]);
    if k < |arrivals| - 1 {
      var last := arrivals[|arrivals| - 1];
      assert last.reviewer in w.RequiredIds() && last.reviewer !in Ids(cohort);
    } else {
      assert cohort == arrivals;
    }
  }

  /** The verdict does not depend on the order in which the reviewers answered. */
  lemma JoinConfluence(w: Workflow, a: seq<Review>, b: seq<Review>)
    requires Cohort(w, a) && Cohort(w, b) && a != [] && b != []
    requires multiset(a) == multiset(b)
    ensures Join(Some(w), a[..|a| - 1], a[|a| - 1]) == Join(Some(w), b[..|b| - 1], b[|b| - 1])
  {
    JoinArrival(w, a, |a| - 1);
    JoinArrival(w, b, |b| - 1);
    forall r
      ensures r in a <==> r in b
    {
      assert r in a <==> r in multiset(a);
      assert r in b <==> r in multiset(b);
    }
  }

  // ---- joined_reviews and the published lanes ----

  datatype PublicationError = InvalidReviewJoin

  function Candidates(runs: seq<WorkerResult>, plan: nat, pr: nat, head: Sha): seq<Review> {
    if runs == [] then []
    else
      var last := runs[|runs| - 1];
      var front := Candidates(runs[..|runs| - 1], plan, pr, head);
      if last.ReviewResult? && last.review.plan == plan && last.review.pr == pr && last.review.head == head
      then front + [last.review] else front
  }

  function TopRound(reviews: seq<Review>): nat
  {
    if reviews == [] then 0
    else
      var rest := TopRound(reviews[..|reviews| - 1]);
      if rest >= reviews[|reviews| - 1].round then rest else reviews[|reviews| - 1].round
  }

  function AtRound(reviews: seq<Review>, round: nat): seq<Review> {
    if reviews == [] then []
    else
      var last := reviews[|reviews| - 1];
      var front := AtRound(reviews[..|reviews| - 1], round);
      if last.round == round then front + [last] else front
  }

  /** The required seats in `BTreeMap` order, by increasing id. */
  function SortedSeats(seats: seq<Seat>): (sorted: seq<Seat>)
    ensures forall s :: s in sorted <==> s in seats && s.mode == Required
    ensures forall i, j :: 0 <= i < j < |sorted| ==> sorted[i].id <= sorted[j].id
  {
    if seats == [] then []
    else
      var rest := SortedSeats(seats[1..]);
      assert seats == [seats[0]] + seats[1..];
      if seats[0].mode == Required then InsertSeat(seats[0], rest) else rest
  }

  function InsertSeat(seat: Seat, sorted: seq<Seat>): (r: seq<Seat>)
    requires forall i, j :: 0 <= i < j < |sorted| ==> sorted[i].id <= sorted[j].id
    ensures forall s :: s in r <==> s == seat || s in sorted
    ensures forall i, j :: 0 <= i < j < |r| ==> r[i].id <= r[j].id
  {
    if sorted == [] then [seat]
    else if seat.id <= sorted[0].id then [seat] + sorted
    else
      var rest := InsertSeat(seat, sorted[1..]);
      assert sorted == [sorted[0]] + sorted[1..];
      assert forall s :: s in rest ==> sorted[0].id <= s.id;
      [sorted[0]] + rest
  }

  /** The answer of each seat of one lane, in seat order. */
  function Lane(seats: seq<Seat>, selected: map<ReviewerId, Review>, role: WorkerRole): seq<Review>
    requires forall s :: s in seats ==> s.id in selected
  {
    if seats == [] then []
    else
      var last := seats[|seats| - 1];
      var front := Lane(seats[..|seats| - 1], selected, role);
      if last.role == role then front + [selected[last.id]] else front
  }

  /** Each top-round review is decided and sits in its own required seat. */
  predicate Seated(w: Workflow, reviews: seq<Review>) {
    forall r :: r in reviews ==> Decided(r) && w.Requires(r.reviewer, r.role)
  }

  function ById(reviews: seq<Review>): map<ReviewerId, Review> {
    if reviews == [] then map[]
    else ById(reviews[..|reviews| - 1])[reviews[|reviews| - 1].reviewer := reviews[|reviews| - 1]]
  }

  lemma {:induction false} ByIdHolds(reviews: seq<Review>)
    ensures ById(reviews).Keys == Ids(reviews)
    ensures Distinct(reviews) ==> forall r :: r in reviews ==> ById(reviews)[r.reviewer] == r
  {
    if reviews == [] {
    } else {
      var front, last := reviews[..|reviews| - 1], reviews[|reviews| - 1];
      ByIdHolds(front);
      assert reviews == front + [last];
      forall r | r in front && Distinct(reviews)
        ensures r.reviewer != last.reviewer
      {
      }
    }
  }

  lemma ByIdAppend(front: seq<Review>, last: Review)
    ensures ById(front + [last]) == ById(front)[last.reviewer := last]
  {
  }

  /** The lanes exist exactly for a cohort whose every review sits in its own seat. */
  predicate Joinable(w: Workflow, top: seq<Review>) {
    Seated(w, top) && Distinct(top) && Ids(top) == w.RequiredIds()
  }

  method CollectCandidates(runs: seq<WorkerResult>, plan: nat, pr: nat, head: Sha) returns (candidates: seq<Review>)
    ensures candidates == Candidates(runs, plan, pr, head)
  {
    candidates := [];
    for i := 0 to |runs|
      invariant candidates == Candidates(runs[..i], plan, pr, head)
    {
      assert runs[..i + 1][..i] == runs[..i];
      if runs[i].ReviewResult? &&
         runs[i].review.plan == plan && runs[i].review.pr == pr && runs[i].review.head == head {
        candidates := candidates + [runs[i].review];
      }
    }
    assert runs[..|runs|] == runs;
  }

  /** Selects the top-round reviews by reviewer, refusing an undecided, unseated or repeated one. */
  method SelectRound(candidates: seq<Review>, round: nat, w: Workflow) returns (r: Option<map<ReviewerId, Review>>)
    ensures r.Some? <==> Seated(w, AtRound(candidates, round)) && Distinct(AtRound(candidates, round))
    ensures r.Some? ==> r.value == ById(AtRound(candidates, round))
  {
    ghost var top := AtRound(candidates, round);
    var selected: map<ReviewerId, Review> := map[];
    for i := 0 to |candidates|
      invariant selected == ById(AtRound(candidates[..i], round))
      invariant Seated(w, AtRound(candidates[..i], round)) && Distinct(AtRound(candidates[..i], round))
    {
      assert candidates[..i + 1][..i] == candidates[..i];
      var review := candidates[i];
      ghost var before := AtRound(candidates[..i], round);
      if review.round == round {
        AtRoundPrefix(candidates, round, i + 1);
        ByIdHolds(before);
        ByIdAppend(before, review);
        assert before + [review] == AtRound(candidates[..i + 1], round) <= top;
        if !Decided(review) || !w.Requires(review.reviewer, review.role) {
          assert top[|before|] == (before + [review])[|before|];
          return None;
        }
        if review.reviewer in selected {
          RepeatedReviewer(before, review, top);
          return None;
        }
        selected := selected[review.reviewer := review];
      }
    }
    assert candidates[..|candidates|] == candidates;
    r := Some(selected);
  }

  method SplitLanes(
    seats: seq<Seat>, selected: map<ReviewerId, Review>) returns (general: seq<Review>, secperf: seq<Review>)
    requires forall s :: s in seats ==> s.id in selected
    ensures general == Lane(seats, selected, ReviewerGeneral) && secperf == Lane(seats, selected, ReviewerSecperf)
  {
    general, secperf := [], [];
    for i := 0 to |seats|
      invariant general == Lane(seats[..i], selected, ReviewerGeneral)
      invariant secperf == Lane(seats[..i], selected, ReviewerSecperf)
    {
      assert seats[..i + 1][..i] == seats[..i];
      if seats[i].role == ReviewerGeneral {
        general := general + [selected[seats[i].id]];
      } else if seats[i].role == ReviewerSecperf {
        secperf := secperf + [selected[seats[i].id]];
      }
    }
    assert seats[..|seats|] == seats;
  }

  method JoinedReviews(runs: seq<WorkerResult>, w: Workflow, plan: nat, pr: nat, head: Sha)
    returns (r: Result<(seq<Review>, seq<Review>), PublicationError>)
    requires w.Valid()
    ensures
      var candidates := Candidates(runs, plan, pr, head);
      var top := AtRound(candidates, TopRound(candidates));
      (r.Ok? <==> candidates != [] && Joinable(w, top)) &&
      (r.Ok? ==> IsLanes(w, top, r.value.0, r.value.1))
  {
    var candidates := CollectCandidates(runs, plan, pr, head);
    if candidates == [] {
      return Err(InvalidReviewJoin);
    }
    ghost var top := AtRound(candidates, TopRound(candidates));
    var selected := SelectRound(candidates, TopRound(candidates), w);
    if selected.None? {
      return Err(InvalidReviewJoin);
    }
    ByIdHolds(top);
    SeatedIds(w, top);
    SubsetCardinality(selected.value.Keys, w.RequiredIds());
    if |selected.value| != |w.RequiredIds()| {
      return Err(InvalidReviewJoin);
    }
    var seats := SortedSeats(w.reviewers);
    forall s | s in seats ensures s.id in selected.value { }
    var general, secperf := SplitLanes(seats, selected.value);
    LanesPartition(w, top, seats);
    if general == [] || secperf == [] {
      return Err(InvalidReviewJoin);
    }
    r := Ok((general, secperf));
  }

  /** The two lanes: non-empty, holding together exactly the reviews of the cohort, each in its role. */
  ghost predicate IsLanes(w: Workflow, top: seq<Review>, general: seq<Review>, secperf: seq<Review>) {
    general != [] && secperf != [] &&
    (forall r :: r in general <==> r in top && r.role == ReviewerGeneral) &&
    (forall r :: r in secperf <==> r in top && r.role == ReviewerSecperf) &&
    Ids(general) + Ids(secperf) == w.RequiredIds() && Ids(general) !! Ids(secperf)
  }

  lemma {:induction false} AtRoundPrefix(reviews: seq<Review>, round: nat, i: nat)
    requires i <= |reviews|
    ensures AtRound(reviews[..i], round) <= AtRound(reviews, round)
    decreases |reviews| - i
  {
    if i < |reviews| {
      assert reviews[..i + 1][..i] == reviews[..i];
      AtRoundPrefix(reviews, round, i + 1);
    } else {
      assert reviews[..i] == reviews;
    }
  }

  lemma SubsetCardinality(a: set<ReviewerId>, b: set<ReviewerId>)
    requires a <= b
    ensures |a| == |b| <==> a == b
  {
    assert b == a + (b - a);
  }

  lemma RepeatedReviewer(before: seq<Review>, review: Review, top: seq<Review>)
    requires before + [review] <= top && review.reviewer in Ids(before)
    ensures !Distinct(top)
  {
    var i :| 0 <= i < |before| && before[i].reviewer == review.reviewer;
    assert top[i] == (before + [review])[i] && top[|before|] == (before + [review])[|before|];
  }

  lemma SeatedIds(w: Workflow, top: seq<Review>)
    requires Seated(w, top)
    ensures Ids(top) <= w.RequiredIds()
  {
  }

  lemma {:induction false} LaneMembers(seats: seq<Seat>, selected: map<ReviewerId, Review>, role: WorkerRole)
    requires forall s :: s in seats ==> s.id in selected
    ensures forall r :: r in Lane(seats, selected, role) <==>
            exists s :: s in seats && s.role == role && selected[s.id] == r
  {
    if seats == [] {
    } else {
      var front, last := seats[..|seats| - 1], seats[|seats| - 1];
      LaneMembers(front, selected, role);
      assert seats == front + [last];
    }
  }

  lemma SeatRole(w: Workflow, a: Seat, b: Seat)
    requires w.Valid() && a in w.reviewers && b in w.reviewers && a.id == b.id
    ensures a == b
  {
  }

  lemma LaneHoldsRole(w: Workflow, top: seq<Review>, seats: seq<Seat>, role: WorkerRole, r: Review)
    requires w.Valid() && Joinable(w, top) && role.Reviewer()
    requires forall s :: s in seats <==> s in w.reviewers && s.mode == Required
    requires forall s :: s in seats ==> s.id in ById(top)
    ensures r in Lane(seats, ById(top), role) <==> r in top && r.role == role
  {
    ByIdHolds(top);
    LaneMembers(seats, ById(top), role);
    if r in Lane(seats, ById(top), role) {
      var s :| s in seats && s.role == role && ById(top)[s.id] == r;
      var held :| held in top && held.reviewer == s.id;
      SeatRole(w, s, Seat(held.reviewer, held.role, Required));
    }
    if r in top && r.role == role {
      assert Seat(r.reviewer, r.role, Required) in seats;
    }
  }

  lemma LaneOccupied(w: Workflow, selected: map<ReviewerId, Review>, seats: seq<Seat>, role: WorkerRole)
    requires w.Valid() && role.Reviewer()
    requires forall s :: s in seats <==> s in w.reviewers && s.mode == Required
    requires forall s :: s in seats ==> s.id in selected
    ensures Lane(seats, selected, role) != []
  {
    LaneMembers(seats, selected, role);
    var i :| 0 <= i < |w.reviewers| && w.reviewers[i].role == role && w.reviewers[i].mode == Required;
    assert w.reviewers[i] in seats;
    assert selected[w.reviewers[i].id] in Lane(seats, selected, role);
  }

  lemma LanesPartition(w: Workflow, top: seq<Review>, seats: seq<Seat>)
    requires w.Valid() && Joinable(w, top)
    requires forall s :: s in seats <==> s in w.reviewers && s.mode == Required
    requires forall s :: s in seats ==> s.id in ById(top)
    ensures IsLanes(w, top, Lane(seats, ById(top), ReviewerGeneral), Lane(seats, ById(top), ReviewerSecperf))
  {
    var general, secperf := Lane(seats, ById(top), ReviewerGeneral), Lane(seats, ById(top), ReviewerSecperf);
    LaneOccupied(w, ById(top), seats, ReviewerGeneral);
    LaneOccupied(w, ById(top), seats, ReviewerSecperf);
    forall r ensures r in general <==> r in top && r.role == ReviewerGeneral {
      LaneHoldsRole(w, top, seats, ReviewerGeneral, r);
    }
    forall r ensures r in secperf <==> r in top && r.role == ReviewerSecperf {
      LaneHoldsRole(w, top, seats, ReviewerSecperf, r);
    }
    SplitByRole(w, top, general, secperf);
  }

  lemma SplitByRole(w: Workflow, top: seq<Review>, general: seq<Review>, secperf: seq<Review>)
    requires w.Valid() && Seated(w, top) && Distinct(top)
    requires forall r :: r in general <==> r in top && r.role == ReviewerGeneral
    requires forall r :: r in secperf <==> r in top && r.role == ReviewerSecperf
    ensures Ids(general) + Ids(secperf) == Ids(top) && Ids(general) !! Ids(secperf)
  {
  }

  /** The event published for one lane. */
  function LaneVerdict(reviews: seq<Review>): Option<ReviewOutcome> {
    if exists r :: r in reviews && r.outcome == ReviewOutcome.RequestChanges then Some(ReviewOutcome.RequestChanges)
    else if Unanimous(reviews) then Some(ReviewOutcome.Approve)
    else None
  }

  /** The published lanes say what the join said: some lane requests changes exactly when the join did. */
  lemma LanesAgreeWithJoin(w: Workflow, arrivals: seq<Review>, general: seq<Review>, secperf: seq<Review>)
    requires w.Valid() && arrivals != [] && Cohort(w, arrivals) && Seated(w, arrivals)
    requires IsLanes(w, arrivals, general, secperf)
    ensures LaneVerdict(general).Some? && LaneVerdict(secperf).Some?
    ensures Join(Some(w), arrivals[..|arrivals| - 1], arrivals[|arrivals| - 1]) == Ok(SM.RequestChanges) <==>
            Some(ReviewOutcome.RequestChanges) in [LaneVerdict(general), LaneVerdict(secperf)]
  {
  }
}
