/** Worker roles, outcomes and results of crates/pip-contracts/src/lib.rs, as typed records. */
module Contracts {
  import opened Prelude

  type ReviewerId = nat
  type FindingId = nat

  datatype WorkerRole = Planner | Builder | ReviewerGeneral | ReviewerSecperf | FinalReviewer
  {
    predicate Reviewer() { this in {ReviewerGeneral, ReviewerSecperf} }
  }

  datatype ReviewMode = Required | Advisory | Observed

  datatype PlannerOutcome =
    | Proceed | AlreadyFixed | NotReproducible | Duplicate | RootCauseDifferentScope
    | CrossRepoDependency | WaitingForIssueCreator | NeedsHumanScopeDecision | Abandon
    | Blocked | BlockedUnexpectedModel

  datatype BuilderOutcome = ReviewReady | ReturnToPlanning | Blocked | Abandon | BlockedUnexpectedModel

  datatype ReviewOutcome = Approve | RequestChanges | Blocked | BlockedUnexpectedModel

  datatype FinalOutcome =
    | Ready | ReturnToBuild | ReturnToReview | ReturnToPlanning | WaitForIssueCreator
    | Blocked | Abandon | BlockedUnexpectedModel

  datatype Resolution = Resolution(finding: FindingId, head: Sha)

  datatype Confirmation = Confirmation(finding: FindingId, resolved: bool, fix: Sha)

  datatype Review = Review(
    reviewer: ReviewerId, role: WorkerRole, outcome: ReviewOutcome,
    plan: nat, round: nat, pr: nat, head: Sha,
    findings: seq<FindingId>, confirmations: seq<Confirmation>)

  datatype Build = Build(outcome: BuilderOutcome, plan: nat, head: Option<Sha>, resolutions: seq<Resolution>)

  datatype WorkerResult =
    | PlannerResult(plannerOutcome: PlannerOutcome, planVersion: nat)
    | BuilderResult(build: Build)
    | ReviewResult(review: Review)
    | FinalResult(finalOutcome: FinalOutcome, finalPlan: nat, finalPr: nat, finalHead: Sha)
}
