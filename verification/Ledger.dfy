/** Ledger commands and transactions: crates/pip-controller/src/ledger.rs over crates/pip-core/src/revision.rs
    and the transition transaction of crates/pip-store/src/lib.rs. */
module Ledger {
  import opened Prelude
  import opened StateMachine
  import Contracts

  type CaseKey = nat
  type EventId = nat

  /** The mutable case row; plan 0 means that no plan was accepted. */
  datatype Case = Case(
    state: CaseState, revision: nat, policyRevision: nat,
    round: nat, plan: nat, pr: Option<nat>, head: Option<Sha>)

  datatype RecordKind = Authorized | Reauthorized | Applied(event: Event)

  /** One immutable event row; the row at index i was written at revision i + 1. */
  datatype Record = Record(
    kind: RecordKind, previous: Option<CaseState>, next: CaseState, policyRevision: nat,
    round: nat, plan: nat, pr: Option<nat>, head: Option<Sha>,
    effects: seq<Effect>, granted: nat, run: Option<Contracts.WorkerResult>)
  {
    predicate Is(event: Event) { kind == Applied(event) }

    /** `previous_state IS NOT next_state`. */
    predicate Enters(state: CaseState) { next == state && previous != Some(state) }
  }

  datatype Ledger = Ledger(row: Case, history: seq<Record>)

  /** An accepted policy; `settings` stands for everything else in its document. */
  datatype CasePolicy = CasePolicy(revision: nat, mergeMode: MergeMode, maxRounds: nat, settings: nat)
  {
    /** The same policy under another revision and limit. */
    predicate Extends(base: CasePolicy) {
      this == base.(revision := revision, maxRounds := maxRounds)
    }
  }

  /** The accepted policies of one repository, by revision; a recorded policy never changes. */
  type Policies = map<nat, CasePolicy>

  /** The payload fields the ledger reads. `audited` stands for the checks on data outside this
      model: operator identity and reason, deadlines, leases, idle workers and payload digests. */
  datatype Payload = Payload(
    isObject: bool, resumeTarget: Option<CaseState>, granted: Option<nat>,
    policyRevision: Option<nat>, newLimit: Option<nat>, audited: bool)

  datatype Command = Command(
    key: CaseKey, eventId: EventId, state: CaseState, revision: nat, policyRevision: nat,
    round: nat, plan: nat, pr: Option<nat>, head: Option<Sha>, event: Event,
    acceptedPlan: Option<nat>, nextPr: Option<nat>, nextHead: Option<Sha>,
    payload: Payload, run: Option<Contracts.WorkerResult>)

  datatype TransitionInput = TransitionInput(
    key: CaseKey, eventId: EventId, revision: nat, next: CaseState,
    round: nat, plan: nat, pr: Option<nat>, head: Option<Sha>,
    event: Event, payload: Payload, run: Option<Contracts.WorkerResult>, effects: seq<Effect>)

  datatype Error =
    | PayloadNotObject | IncompleteBinding | MissingCase | ProjectionMismatch | BudgetOverflow
    | NotConsecutive | EmptyBatch | ResumeWithoutTarget | PlanNotNext | PlanRequired
    | HeadRequired | PullRequestRequired | PullRequestReplaced | UnexpectedHead | RoundExhausted
    | CaseMismatch | StaleStateRevision | CommandPolicyRevisionMismatch | PolicyRevisionUnavailable
    | StateRevisionExhausted | Core(error: TransitionError)
    | InvalidBatch | IdempotencyConflict | StaleRevision | InvalidEvent

  // ---- crates/pip-core/src/revision.rs ----

  datatype Snapshot = Snapshot(key: CaseKey, state: CaseState, revision: nat, policyRevision: nat, round: nat)

  datatype CaseCommand = CaseCommand(
    key: CaseKey, revision: nat, policyRevision: nat, event: Event, resumeTarget: Option<CaseState>)

  function EvaluateCaseCommand(snapshot: Snapshot, command: CaseCommand, policy: CasePolicy): Result<Decision, Error> {
    if command.key != snapshot.key then Err(CaseMismatch)
    else if command.revision != snapshot.revision then Err(StaleStateRevision)
    else if command.policyRevision != snapshot.policyRevision then Err(CommandPolicyRevisionMismatch)
    else if policy.revision != snapshot.policyRevision then Err(PolicyRevisionUnavailable)
    else if snapshot.revision + 1 > U64_MAX then Err(StateRevisionExhausted)
    else
      match Transition(snapshot.state, command.event,
                       Context(snapshot.round, policy.maxRounds, policy.mergeMode, command.resumeTarget))
      case Err(e) => Err(Core(e))
      case Ok(d) => Ok(d)
  }

  // ---- crates/pip-controller/src/ledger.rs ----

  function ValidateShape(c: Command): Option<Error> {
    if !c.payload.isObject then Some(PayloadNotObject)
    else if c.pr.Some? != c.head.Some? || (c.nextPr.Some? && c.nextHead.None?) then Some(IncompleteBinding)
    else None
  }

  /** The command speaks about exactly this projection, policy revision apart. */
  predicate Matches(row: Case, c: Command) {
    row.revision == c.revision && row.state == c.state && row.round == c.round &&
    row.plan == c.plan && row.pr == c.pr && row.head == c.head
  }

  function ValidateWorkflow(l: Ledger, c: Command): Option<Error> {
    if ValidateShape(c).Some? then ValidateShape(c)
    else if l.row.revision == c.revision && !(Matches(l.row, c) && l.row.policyRevision == c.policyRevision)
    then Some(ProjectionMismatch)
    else None
  }

  /** Rounds granted by HUMAN_RESUMED events. */
  function Granted(history: seq<Record>): nat {
    if history == [] then 0
    else
      var last := history[|history| - 1];
      Granted(history[..|history| - 1]) + if last.Is(HumanResumed) then last.granted else 0
  }

  function EffectivePolicy(l: Ledger, policy: CasePolicy): Result<CasePolicy, Error> {
    var budget := policy.maxRounds + Granted(l.history);
    if budget > U32_MAX then Err(BudgetOverflow) else Ok(policy.(maxRounds := budget))
  }

  /** The next plan version saturates. */
  function NextVersion(plan: nat): nat { if plan >= U32_MAX then U32_MAX else plan + 1 }

  function NextPlan(c: Command): Result<nat, Error> {
    match c.acceptedPlan
    case Some(accepted) =>
      if accepted == NextVersion(c.plan) then Ok(accepted) else Err(PlanNotNext)
    case None =>
      if c.event.Proceed? then Err(PlanRequired) else Ok(c.plan)
  }

  function NextHead(c: Command): Result<(Option<nat>, Option<Sha>), Error> {
    if c.event.ReviewReady? then
      if c.nextHead.None? then Err(HeadRequired)
      else
        var pr := if c.nextPr.Some? then c.nextPr else c.pr;
        if pr.None? then Err(PullRequestRequired)
        else if c.pr.Some? && c.pr != pr then Err(PullRequestReplaced)
        else Ok((pr, c.nextHead))
    else if c.nextPr.Some? || c.nextHead.Some? then Err(UnexpectedHead)
    else Ok((c.pr, c.head))
  }

  function NextRound(c: Command, next: CaseState): Result<nat, Error> {
    if next.Remediating? && !c.state.Remediating? && !c.event.HumanResumed? then
      if c.round + 1 > U32_MAX then Err(RoundExhausted) else Ok(c.round + 1)
    else Ok(c.round)
  }

  /** `transition_input`: the decision of the pure core, completed with the next bindings. */
  function Prepare(policy: CasePolicy, c: Command): Result<TransitionInput, Error> {
    if c.event.HumanResumed? && c.payload.resumeTarget.None? then Err(ResumeWithoutTarget)
    else
      var target := if c.event.HumanResumed? then c.payload.resumeTarget else None;
      match EvaluateCaseCommand(Snapshot(c.key, c.state, c.revision, c.policyRevision, c.round),
                                CaseCommand(c.key, c.revision, c.policyRevision, c.event, target), policy)
      case Err(e) => Err(e)
      case Ok(decision) =>
        match NextPlan(c)
        case Err(e) => Err(e)
        case Ok(plan) =>
          match NextRound(c, decision.next)
          case Err(e) => Err(e)
          case Ok(round) =>
            match NextHead(c)
            case Err(e) => Err(e)
            case Ok(binding) =>
              Ok(TransitionInput(c.key, c.eventId, c.revision, decision.next, round, plan, binding.0, binding.1,
                                 c.event, c.payload, c.run, decision.effects))
  }

  predicate Consecutive(previous: TransitionInput, c: Command) {
    c.key == previous.key && c.revision == previous.revision + 1 && previous.revision + 1 <= U64_MAX &&
    c.state == previous.next && c.round == previous.round && c.plan == previous.plan &&
    c.pr == previous.pr && c.head == previous.head
  }

  // ---- crates/pip-store: the transition transaction ----

  function Last(history: seq<Record>): (r: Record)
    requires history != []
  {
    history[|history| - 1]
  }

  predicate LastIs(history: seq<Record>, event: Event, previous: set<CaseState>, next: CaseState) {
    history != [] && Last(history).Is(event) && Last(history).next == next &&
    Last(history).previous.Some? && Last(history).previous.value in previous
  }

  predicate Has(history: seq<Record>, event: Event) {
    exists i :: 0 <= i < |history| && history[i].Is(event)
  }

  /** What every audited recovery keeps: a bound head and plan, and one dispatch effect. */
  predicate Recovers(row: Case, input: TransitionInput, effect: Effect) {
    input.payload.audited && row.pr.Some? && row.head.Some? && row.plan != 0 &&
    input.plan == row.plan && input.pr == row.pr && input.head == row.head &&
    input.run.None? && input.effects == [effect]
  }

  /** The follow-up lineage: READY, feedback on it, and the takeover that misread it. */
  predicate FalseTakeover(history: seq<Record>, row: Case) {
    var n := |history|;
    n >= 3 &&
    history[n-1].Is(HumanTookOver) && history[n-1].previous == Some(Planning) && history[n-1].next.TakenOver? &&
    history[n-2].Is(HumanFeedbackReceived) && history[n-2].previous == Some(ShadowReady) &&
    history[n-2].next.Planning? &&
    history[n-3].Is(Ready) && history[n-3].next.ShadowReady? &&
    (forall i :: n - 3 <= i < n ==> history[i].head == row.head && history[i].pr == row.pr) &&
    (forall i, j :: n - 3 <= i < n && n - 3 <= j < n ==>
       history[i].plan == history[j].plan && history[i].policyRevision == history[j].policyRevision)
  }

  /** The store's own rule for an event, and the policy revision the row gets. */
  function StoreRule(policies: Policies, l: Ledger, input: TransitionInput): Option<nat> {
    var row := l.row;
    var same := Some(row.policyRevision);
    match input.event
    case InfrastructureRecoveryAuthorized =>
      if (row.state.Escalated? || row.state.Blocked?) && input.next.Remediating? &&
         Recovers(row, input, DispatchBuilder) && input.round == row.round + 1 &&
         (LastIs(l.history, OperationalBoundReached, {Reviewing, FinalReview}, Escalated) ||
          LastIs(l.history, Event.Blocked, {Remediating}, CaseState.Blocked)) &&
         row.policyRevision in policies && input.round <= policies[row.policyRevision].maxRounds
      then same else None
    case FollowUpRecoveryAuthorized =>
      if row.state.TakenOver? && input.next.Planning? && Recovers(row, input, DispatchPlanner) &&
         input.round == row.round && FalseTakeover(l.history, row)
      then same else None
    case NativeReviewRetryAuthorized =>
      if row.state.Escalated? && input.next.WaitingCi? && Recovers(row, input, ObserveCi) &&
         input.round == row.round && LastIs(l.history, OperationalBoundReached, {Reviewing}, Escalated) &&
         !Has(l.history, NativeReviewRetryAuthorized)
      then same else None
    case ReviewCoordinationRecoveryAuthorized =>
      if (row.state.Reviewing? || row.state.Escalated?) && input.next.WaitingCi? && Recovers(row, input, ObserveCi) &&
         input.round == row.round &&
         (row.state.Escalated? ==> LastIs(l.history, OperationalBoundReached, {FinalReview}, Escalated)) &&
         !Has(l.history, ReviewCoordinationRecoveryAuthorized)
      then same else None
    case RemediationBudgetExtended =>
      if row.state.Escalated? && input.next.WaitingCi? && Recovers(row, input, ObserveCi) &&
         input.round == row.round && LastIs(l.history, CiFailed, {WaitingCi}, Escalated) &&
         input.payload.policyRevision.Some? && input.payload.newLimit.Some? &&
         row.policyRevision in policies && input.payload.policyRevision.value in policies &&
         row.policyRevision < input.payload.policyRevision.value &&
         policies[input.payload.policyRevision.value].Extends(policies[row.policyRevision]) &&
         policies[input.payload.policyRevision.value].maxRounds == input.payload.newLimit.value &&
         policies[row.policyRevision].maxRounds <= row.round < input.payload.newLimit.value
      then input.payload.policyRevision else None
    case HumanResumed =>
      if row.state.Parked() && input.payload.policyRevision.Some? &&
         input.payload.policyRevision.value >= row.policyRevision &&
         input.payload.policyRevision.value in policies &&
         input.payload.granted.Some? && input.payload.granted.value <= 10
      then input.payload.policyRevision else None
    case _ => same
  }

  function RecordOf(row: Case, input: TransitionInput, policyRevision: nat): Record {
    Record(Applied(input.event), Some(row.state), input.next, policyRevision,
           input.round, input.plan, input.pr, input.head, input.effects,
           if input.event.HumanResumed? && input.payload.granted.Some? then input.payload.granted.value else 0,
           input.run)
  }

  /** One compare-and-swap on the case row, with its event appended. */
  function Commit(policies: Policies, l: Ledger, input: TransitionInput): Result<Ledger, Error> {
    if l.row.revision != input.revision then Err(StaleRevision)
    else if input.revision + 1 > U64_MAX then Err(InvalidEvent)
    else
      match StoreRule(policies, l, input)
      case None => Err(InvalidEvent)
      case Some(policyRevision) =>
        Ok(Ledger(Case(input.next, input.revision + 1, policyRevision, input.round, input.plan, input.pr, input.head),
                  l.history + [RecordOf(l.row, input, policyRevision)]))
  }

  function CommitAll(policies: Policies, l: Ledger, inputs: seq<TransitionInput>): Result<Ledger, Error>
    decreases |inputs|
  {
    if inputs == [] then Ok(l)
    else
      match Commit(policies, l, inputs[0])
      case Err(e) => Err(e)
      case Ok(l') => CommitAll(policies, l', inputs[1..])
  }

  // ---- one command, and a batch, on one case ----

  function Apply(policies: Policies, l: Ledger, policy: CasePolicy, c: Command): Result<Ledger, Error> {
    if ValidateWorkflow(l, c).Some? then Err(ValidateWorkflow(l, c).value)
    else
      match EffectivePolicy(l, policy)
      case Err(e) => Err(e)
      case Ok(effective) =>
        match Prepare(effective, c)
        case Err(e) => Err(e)
        case Ok(input) => Commit(policies, l, input)
  }

  /** Inputs of the rest of a batch, each consecutive to the one before it. */
  function PrepareAll(
    policy: CasePolicy, previous: Option<TransitionInput>, cs: seq<Command>): Result<seq<TransitionInput>, Error>
    decreases |cs|
  {
    if cs == [] then Ok([])
    else if ValidateShape(cs[0]).Some? then Err(ValidateShape(cs[0]).value)
    else if previous.Some? && !Consecutive(previous.value, cs[0]) then Err(NotConsecutive)
    else
      match Prepare(policy, cs[0])
      case Err(e) => Err(e)
      case Ok(input) => Prepend([input], PrepareAll(policy, Some(input), cs[1..]))
  }

  function Prepend(
    first: seq<TransitionInput>, rest: Result<seq<TransitionInput>, Error>): Result<seq<TransitionInput>, Error> {
    match rest
    case Err(e) => Err(e)
    case Ok(inputs) => Ok(first + inputs)
  }

  function ApplyBatch(policies: Policies, l: Ledger, policy: CasePolicy, cs: seq<Command>): Result<Ledger, Error> {
    if cs == [] then Err(EmptyBatch)
    else if ValidateWorkflow(l, cs[0]).Some? then Err(ValidateWorkflow(l, cs[0]).value)
    else
      match EffectivePolicy(l, policy)
      case Err(e) => Err(e)
      case Ok(effective) =>
        match PrepareAll(effective, None, cs)
        case Err(e) => Err(e)
        case Ok(inputs) => CommitAll(policies, l, inputs)
  }

  function ApplySequence(policies: Policies, l: Ledger, policy: CasePolicy, cs: seq<Command>): Result<Ledger, Error>
    decreases |cs|
  {
    if cs == [] then Ok(l)
    else
      match Apply(policies, l, policy, cs[0])
      case Err(e) => Err(e)
      case Ok(l') => ApplySequence(policies, l', policy, cs[1..])
  }
}
