/** Ingesting a worker's result: crates/pip-controller/src/results.rs. */
module Results {
  import opened Prelude
  import opened StateMachine
  import opened Ledger
  import opened LedgerStore
  import opened Workflow
  import opened WorkflowSafety
  import opened Readiness
  import opened Liveness
  import opened Runs
  import opened Batches
  import opened Meaning
  import C = Contracts
  import R = Reviews

  datatype Ingested = Applied(transitions: nat) | Replayed

  datatype IngestError =
    | ConflictingRun | InvalidBinding | InvalidState | Join(join: R.IngestError) | Controller(error: Error)

  function OutcomeOf(result: C.WorkerResult): Outcome {
    match result
    case PlannerResult(outcome, _) => PlannerAnswered(outcome)
    case BuilderResult(build) => BuilderAnswered(build.outcome)
    case ReviewResult(review) => ReviewAnswered(review)
    case FinalResult(outcome, _, _, _) => FinalAnswered(outcome)
  }

  /** `map_event`: the event a result means in the state it arrives in. */
  function MapEvent(env: Environment, l: Ledger, result: C.WorkerResult): Result<Event, IngestError>
    requires l.row.policyRevision in env.workflows
  {
    match result
    case PlannerResult(outcome, _) =>
      if !l.row.state.Planning? then Err(InvalidState)
      else Ok(if outcome.BlockedUnexpectedModel? then Event.BlockedUnexpectedModel else PlanRecorded)
    case BuilderResult(build) =>
      if !(l.row.state.Building? || l.row.state.Remediating?) then Err(InvalidState)
      else Ok(BuilderEvent(build.outcome))
    case ReviewResult(review) =>
      if !l.row.state.Reviewing? then Err(InvalidState)
      else
        var joined := ReviewEvent(env, l, review);
        if joined.Ok? then Ok(joined.value) else Err(Join(joined.error))
    case FinalResult(outcome, _, _, _) =>
      if !l.row.state.FinalReview? || l.history == [] then Err(InvalidState)
      else if !Last(l.history).Is(FinalPreflightAccepted) then Err(InvalidState)
      else Ok(FinalEvent(outcome))
  }

  /** `validate_review_policy_binding`: a review comes from a required seat. */
  predicate Expected(w: R.Workflow, result: C.WorkerResult) {
    result.ReviewResult? ==> w.Requires(result.review.reviewer, result.review.role)
  }

  /** The row a builder's result is mapped on: a case still waiting to build is dispatched first. */
  function Arrival(l: Ledger, result: C.WorkerResult): Ledger {
    if result.BuilderResult? && l.row.state.ReadyToBuild?
    then l.(row := l.row.(state := Building, revision := l.row.revision + 1)) else l
  }

  function Ingest(
    env: Environment, db: Database, d: Delivery, result: C.WorkerResult): Result<(Database, Ingested), IngestError> {
    if d.resultId in db.events then
      if db.events[d.resultId].key == d.key && db.events[d.resultId].run == Some(result)
      then Ok((db, Ingested.Replayed)) else Err(ConflictingRun)
    else if d.key !in db.ledgers then Err(InvalidBinding)
    else
      var l := db.ledgers[d.key];
      if l.row.policyRevision !in env.policies || l.row.policyRevision !in env.workflows then Err(InvalidBinding)
      else if !Expected(env.workflows[l.row.policyRevision], result) then Err(InvalidBinding)
      else
        match MapEvent(env, Arrival(l, result), result)
        case Err(e) => Err(e)
        case Ok(event) =>
          var cs := HandlerCommands(l, event, OutcomeOf(result), d.(run := Some(result)));
          match SubmitBatch(env.policies, db, env.policies[l.row.policyRevision], cs)
          case Err(e) => Err(Controller(e))
          case Ok((db', _)) => Ok((db', Ingested.Applied(|cs|)))
  }

  method IngestWorkerResult(
    env: Environment, store: Store, d: Delivery, result: C.WorkerResult) returns (r: Result<Ingested, IngestError>)
    requires store.policies == env.policies
    modifies store
    ensures Ingest(env, old(store.Contents()), d, result) ==
            if r.Ok? then Ok((store.Contents(), r.value)) else Err(r.error)
    ensures r.Err? ==> store.Contents() == old(store.Contents())
  {
    hide SubmitBatch, ReviewEvent;
    if d.resultId in store.events {
      if store.events[d.resultId].key == d.key && store.events[d.resultId].run == Some(result) {
        return Ok(Ingested.Replayed);
      }
      return Err(ConflictingRun);
    }
    if d.key !in store.ledgers {
      return Err(InvalidBinding);
    }
    var l := store.ledgers[d.key];
    if l.row.policyRevision !in env.policies || l.row.policyRevision !in env.workflows {
      return Err(InvalidBinding);
    }
    if !Expected(env.workflows[l.row.policyRevision], result) {
      return Err(InvalidBinding);
    }
    var policy, o := env.policies[l.row.policyRevision], OutcomeOf(result);
    var delivery := d.(run := Some(result));
    var mapped := MapEvent(env, Arrival(l, result), result);
    if mapped.Err? {
      return Err(mapped.error);
    }
    if result.BuilderResult? && l.row.state.ReadyToBuild? {
      var synthetic := CommandOn(l.row, BuilderDispatched, o, d.dispatchId, delivery, None);
      var building := l.row.(state := Building, revision := l.row.revision + 1);
      var command := CommandOn(building, mapped.value, o, d.resultId, delivery, Some(result));
      var applied := ApplyWorkflowBatch(store, policy, [synthetic, command]);
      if applied.Err? {
        return Err(Controller(applied.error));
      }
      return Ok(Ingested.Applied(2));
    }
    var applied := ApplyWorkflow(store, policy, CommandOn(l.row, mapped.value, o, d.resultId, delivery, Some(result)));
    if applied.Err? {
      return Err(Controller(applied.error));
    }
    return Ok(Ingested.Applied(1));
  }

  lemma SubmitRemembers(policies: Policies, db: Database, policy: CasePolicy, cs: seq<Command>, i: nat)
    requires SubmitBatch(policies, db, policy, cs).Ok? && i < |cs| && cs[i].eventId !in db.events
    ensures
      var (db', how) := SubmitBatch(policies, db, policy, cs).value;
      how.Committed? && cs[i].eventId in db'.events &&
      db'.events[cs[i].eventId].run == cs[i].run && db'.events[cs[i].eventId].key == cs[i].key
  {
    hide Prepare, PrepareAll, CommitAll, EventMap, EffectivePolicy;
    var effective := EffectivePolicy(db.ledgers[cs[0].key], policy).value;
    var inputs := PrepareAll(effective, None, cs).value;
    PreparedIds(effective, cs, inputs);
    assert inputs[i].eventId !in db.events;
    EventMapHolds(inputs, inputs[i].eventId);
  }

  /** A result is applied at most once: delivering it again changes nothing, and another result under the same
      id conflicts. */
  lemma IngestOnce(
    env: Environment, env': Environment, db: Database, d: Delivery, result: C.WorkerResult, again: C.WorkerResult)
    requires Ingest(env, db, d, result).Ok?
    ensures
      var db' := Ingest(env, db, d, result).value.0;
      Ingest(env', db', d, again) == if again == result then Ok((db', Ingested.Replayed)) else Err(ConflictingRun)
  {
    hide SubmitBatch, ReviewEvent;
    if d.resultId !in db.events {
      var l := db.ledgers[d.key];
      var event := MapEvent(env, Arrival(l, result), result).value;
      var cs := HandlerCommands(l, event, OutcomeOf(result), d.(run := Some(result)));
      SubmitRemembers(env.policies, db, env.policies[l.row.policyRevision], cs, |cs| - 1);
    }
  }

  // ---- what an ingested result does to its case ----

  /** The state a result is welcome in, and what it is recorded as there. */
  predicate ResultMeans(env: Environment, l: Ledger, result: C.WorkerResult, event: Event, next: CaseState)
    requires l.row.policyRevision in env.policies && l.row.policyRevision in env.workflows
  {
    match result
    case PlannerResult(outcome, _) => l.row.state.Planning? && PlannerMeans(outcome, event, next)
    case BuilderResult(build) =>
      (l.row.state.ReadyToBuild? || l.row.state.Building? || l.row.state.Remediating?) &&
      BuilderMeans(build.outcome, l.row.state, event, next)
    case ReviewResult(review) =>
      l.row.state.Reviewing? && env.workflows[l.row.policyRevision].Requires(review.reviewer, review.role) &&
      ReviewMeans(env.workflows[l.row.policyRevision].RequiredIds(), R.Matching(CohortRuns(l.history), review), review,
                  Spent(env, l), event, next)
    case FinalResult(outcome, _, _, _) =>
      l.row.state.FinalReview? && l.history != [] && Last(l.history).Is(FinalPreflightAccepted) &&
      FinalMeans(outcome, Spent(env, l), Shadowed(env, l), event, next)
  }

  /** The state a result is mapped in. */
  predicate Welcome(l: Ledger, result: C.WorkerResult) {
    match result
    case PlannerResult(_, _) => l.row.state.Planning?
    case BuilderResult(_) => l.row.state.ReadyToBuild? || l.row.state.Building? || l.row.state.Remediating?
    case ReviewResult(_) => l.row.state.Reviewing?
    case FinalResult(_, _, _, _) =>
      l.row.state.FinalReview? && l.history != [] && Last(l.history).Is(FinalPreflightAccepted)
  }

  /** A mapped result is what its outcome means in the same state. */
  lemma MappedIsHandled(env: Environment, l: Ledger, result: C.WorkerResult, event: Event)
    requires l.row.policyRevision in env.policies && l.row.policyRevision in env.workflows
    requires MapEvent(env, Arrival(l, result), result) == Ok(event)
    ensures EventOf(env, l, OutcomeOf(result)) == Some(event) && Welcome(l, result)
  {
    hide ReviewEvent;
  }

  lemma OrdinaryEvent(env: Environment, l: Ledger, result: C.WorkerResult, event: Event)
    requires l.row.policyRevision in env.workflows && EventOf(env, l, OutcomeOf(result)) == Some(event)
    ensures !event.HumanResumed? && !event.Proceed? && !event.ReviewReady?
  {
    hide CohortRuns;
  }

  /** A new result is committed as one batch of its case. */
  lemma {:induction false} IngestCommits(env: Environment, db: Database, d: Delivery, result: C.WorkerResult)
    returns (event: Event, l': Ledger)
    requires d.key in db.ledgers && d.resultId !in db.events && Ingest(env, db, d, result).Ok?
    ensures
      var l, o := db.ledgers[d.key], OutcomeOf(result);
      var n := if o.BuilderAnswered? && l.row.state.ReadyToBuild? then 2 else 1;
      l.row.policyRevision in env.policies && l.row.policyRevision in env.workflows &&
      Expected(env.workflows[l.row.policyRevision], result) && MapEvent(env, Arrival(l, result), result) == Ok(event) &&
      ApplyBatch(env.policies, l, env.policies[l.row.policyRevision],
                 HandlerCommands(l, event, o, d.(run := Some(result)))) == Ok(l') &&
      Ingest(env, db, d, result).value.0.ledgers == db.ledgers[d.key := l'] &&
      Ingest(env, db, d, result).value.1 == Ingested.Applied(n)
  {
    hide SubmitBatch, MapEvent, ApplyBatch, HandlerCommands, PrepareAll, EventMap, Expected;
    var l, o := db.ledgers[d.key], OutcomeOf(result);
    event := MapEvent(env, Arrival(l, result), result).value;
    var cs := HandlerCommands(l, event, o, d.(run := Some(result)));
    HandlerIds(l, event, o, d.(run := Some(result)));
    var policy := env.policies[l.row.policyRevision];
    if exists i :: 0 <= i < |cs| && cs[i].eventId in db.events {
      MixedConflicts(env.policies, db, policy, cs);
    }
    SubmitFreshBatch(env.policies, db, policy, cs);
    l' := ApplyBatch(env.policies, l, policy, cs).value;
  }

  /** A new result appends its own record, decided by its outcome and the budget, after the dispatch of a builder
      that was still waiting; no other case changes. */
  lemma {:induction false} IngestRecords(env: Environment, db: Database, d: Delivery, result: C.WorkerResult)
    requires env.Valid() && d.key in db.ledgers && Projected(db.ledgers[d.key]) && d.resultId !in db.events
    requires Ingest(env, db, d, result).Ok?
    ensures
      var l, (db', how) := db.ledgers[d.key], Ingest(env, db, d, result).value;
      var n := if result.BuilderResult? && l.row.state.ReadyToBuild? then 2 else 1;
      d.key in db'.ledgers && db'.ledgers == db.ledgers[d.key := db'.ledgers[d.key]] && how == Ingested.Applied(n) &&
      l.row.policyRevision in env.policies && l.row.policyRevision in env.workflows &&
      var history := db'.ledgers[d.key].history;
      l.history <= history && |history| == |l.history| + n &&
      (n == 2 ==> history[|l.history|].Is(BuilderDispatched)) &&
      var r := Last(history);
      r.kind.Applied? && r.run == Some(result) && ResultMeans(env, l, result, r.kind.event, r.next) &&
      r.plan == l.row.plan && r.pr == l.row.pr && r.head == l.row.head
  {
    hide Ingest, ReviewEvent, MapEvent, ApplyBatch, Projected, EventOf, HandlerCommands, Granted, CohortRuns;
    var l, o, delivery := db.ledgers[d.key], OutcomeOf(result), d.(run := Some(result));
    var event, l' := IngestCommits(env, db, d, result);
    MappedIsHandled(env, l, result, event);
    OrdinaryEvent(env, l, result, event);
    BatchRecorded(env, l, event, o, delivery, l');
    OutcomeMeans(env, l, o, event, delivery, Last(l'.history));
    OutcomeKeeps(env, l, o, event, delivery, Last(l'.history));
  }

  lemma HandlerIds(l: Ledger, event: Event, o: Outcome, d: Delivery)
    ensures
      var cs := HandlerCommands(l, event, o, d);
      |cs| == (if o.BuilderAnswered? && l.row.state.ReadyToBuild? then 2 else 1) &&
      cs[|cs| - 1].eventId == d.resultId &&
      (forall i :: 0 <= i < |cs| ==> cs[i].key == d.key && cs[i].eventId in {d.resultId, d.dispatchId}) &&
      (d.resultId != d.dispatchId ==> DistinctIds(cs))
  {
  }

  /** A new result is refused before the ledger sees it exactly for an unknown case or policy or an unrequired reviewer,
      for a state that does not wait for it, or for a conflict of the join. */
  lemma IngestRefuses(env: Environment, db: Database, d: Delivery, result: C.WorkerResult)
    requires env.Valid() && d.resultId !in db.events
    ensures
      var r := Ingest(env, db, d, result);
      var bound := d.key in db.ledgers && db.ledgers[d.key].row.policyRevision in env.policies &&
                   (result.ReviewResult? ==>
                      env.workflows[db.ledgers[d.key].row.policyRevision].Requires(result.review.reviewer,
                                                                                   result.review.role));
      (r == Err(InvalidBinding) <==> !bound) &&
      (r == Err(InvalidState) <==> bound && !Welcome(db.ledgers[d.key], result)) &&
      (r.Err? && r.error.Join? <==>
         bound && Welcome(db.ledgers[d.key], result) && result.ReviewResult? &&
         ReviewEvent(env, db.ledgers[d.key], result.review).Err?)
  {
    hide SubmitBatch, ReviewEvent;
  }

  /** READY is recorded only for a final review that said so, right after its preflight. */
  lemma ReadyIsSaid(env: Environment, db: Database, d: Delivery, result: C.WorkerResult)
    requires env.Valid() && d.key in db.ledgers && Projected(db.ledgers[d.key]) && d.resultId !in db.events
    requires Ingest(env, db, d, result).Ok?
    requires
      var db' := Ingest(env, db, d, result).value.0;
      d.key in db'.ledgers && db'.ledgers[d.key].history != [] && Last(db'.ledgers[d.key].history).Is(Ready)
    ensures result.FinalResult? && result.finalOutcome.Ready?
    ensures db.ledgers[d.key].history != [] && Last(db.ledgers[d.key].history).Is(FinalPreflightAccepted)
  {
    hide Ingest, CohortRuns, Granted, Projected;
    IngestRecords(env, db, d, result);
  }

  /** A result that answers outstanding work is always taken, whatever it says. */
  lemma {:induction false} IngestTakes(
    env: Environment, db: Database, d: Delivery, result: C.WorkerResult, effect: Effect)
    requires d.key in db.ledgers && d.resultId !in db.events && d.dispatchId !in db.events && d.resultId != d.dispatchId
    requires
      var l := db.ledgers[d.key];
      Reachable(env, l) && Active(l.row.state) && Settled(l.history) && l.row.policyRevision in env.policies &&
      Room(env, l) && l.row.revision + 2 <= U64_MAX && d.payload.isObject &&
      effect in Outstanding(l.history) && Handles(env, l, effect, OutcomeOf(result))
    ensures Ingest(env, db, d, result).Ok?
  {
    hide Reachable, SubmitBatch, ReviewEvent, MapEvent, ApplyBatch, EventOf, HandlerCommands, Granted, CohortRuns,
         PrepareAll, EventMap, Outstanding, Handles, Expected;
    var l, o := db.ledgers[d.key], OutcomeOf(result);
    var delivery := d.(run := Some(result));
    OutcomeTakes(env, l, effect, o, delivery);
    var event := EventOf(env, l, o).value;
    var cs := HandlerCommands(l, event, o, delivery);
    HandledIsMapped(env, l, effect, result);
    HandlerIds(l, event, o, delivery);
    SubmitFreshBatch(env.policies, db, env.policies[l.row.policyRevision], cs);
  }

  lemma {:induction false} OutcomeTakes(env: Environment, l: Ledger, effect: Effect, o: Outcome, d: Delivery)
    requires Reachable(env, l) && Active(l.row.state) && Settled(l.history) && l.row.policyRevision in env.policies
    requires Room(env, l) && l.row.revision + 2 <= U64_MAX && d.payload.isObject
    requires effect in Outstanding(l.history) && Handles(env, l, effect, o)
    ensures l.row.policyRevision in env.workflows && EventOf(env, l, o).Some?
    ensures ApplyBatch(env.policies, l, env.policies[l.row.policyRevision],
                       HandlerCommands(l, EventOf(env, l, o).value, o, d)).Ok?
  {
    hide Reachable, ApplyBatch, EventOf, HandlerCommands, Granted, Outstanding, Handles, Room;
    NeverStuck(env, l, d);
  }

  /** The mapping takes every result its case is waiting for. */
  lemma {:induction false} HandledIsMapped(env: Environment, l: Ledger, effect: Effect, result: C.WorkerResult)
    requires Reachable(env, l) && Active(l.row.state) && Settled(l.history) && l.row.policyRevision in env.workflows
    requires effect in Outstanding(l.history) && Handles(env, l, effect, OutcomeOf(result))
    requires EventOf(env, l, OutcomeOf(result)).Some?
    ensures MapEvent(env, Arrival(l, result), result) == Ok(EventOf(env, l, OutcomeOf(result)).value)
    ensures Expected(env.workflows[l.row.policyRevision], result)
  {
    hide Reachable, Fenced, Chain, MergesGuarded, LoopGuarded, RoundsCounted, Granted, Entries, Collecting, ReviewEvent,
         CohortReviews, ResumeTarget;
    ReachableInv(env, l);
    OutstandingWork(env, l);
  }
}
