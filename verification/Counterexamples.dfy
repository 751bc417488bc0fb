/** Reachable cases on which the properties that need a condition fail without it. */
module Counterexamples {
  import opened Prelude
  import opened StateMachine
  import opened Ledger
  import opened LedgerStore
  import opened Workflow
  import opened WorkflowSafety
  import opened Readiness
  import opened Liveness
  import opened Runs
  import opened Reachability
  import opened Batches

  // ---- a recorded review that carries a plan ----

  /** On a reachable reviewing case the ledger accepts a REVIEW_RECORDED that moves the plan. */
  lemma {:induction false} FenceCanBreak(env: Environment, policy: nat) returns (l: Ledger, c: Command, l': Ledger)
    requires env.Valid() && policy in env.policies && env.policies[policy].maxRounds <= U32_MAX
    ensures Reachable(env, l) && l.row.state.Reviewing? && c.event.ReviewRecorded? &&
            l.row.policyRevision in env.policies
    ensures Apply(env.policies, l, env.policies[l.row.policyRevision], c) == Ok(l') && !SameGeneration(l.row, l'.row)
  {
    hide Reachable, Granted, Apply;
    l := Publish(env, policy);
    l := StartReview(env, policy, l);
    c := Plain(l, ReviewRecorded).(acceptedPlan := Some(NextVersion(l.row.plan)));
    ReachableInv(env, l);
    BoundTogether(l);
    ReviewingMoves(ReviewRecorded, ContextOf(env, l, c));
    CommandAccepted(env, l, c);
    l' := Apply(env.policies, l, env.policies[policy], c).value;
    LedgerFence(env, l, c, l');
  }

  // ---- a partly recorded batch ----

  /** A reachable case whose recorded command and next command are accepted one by one and refused together. */
  lemma {:induction false} PartlyRecordedBatch(
    env: Environment, policy: nat) returns (l: Ledger, a: Command, b: Command)
    requires env.Valid() && policy in env.policies && env.policies[policy].maxRounds <= U32_MAX
    ensures Reachable(env, l) && l.row.policyRevision == policy && !a.event.RemediationBudgetExtended? && a.key == b.key
    ensures
      var db := Database(map[a.key := l], map[]);
      var first := SubmitBatch(env.policies, db, env.policies[policy], [a]);
      first.Ok? && Consistent(first.value.0) &&
      SubmitSequence(env.policies, first.value.0, env.policies[policy], [a, b]).Ok? &&
      SubmitBatch(env.policies, first.value.0, env.policies[policy], [a, b]).Err?
  {
    hide Reachable, Granted, Apply, SubmitBatch, SubmitSequence;
    l := StartPlanning(env, policy);
    a := Plain(l, PlanRecorded);
    var l' := Forward(env, policy, l, a, None, Planning);
    b := Plain(l', HumanTookOver).(eventId := a.eventId + 1);
    var l'' := Forward(env, policy, l', b, None, TakenOver);
    TakesPlan(env, policy, l, a, b, l', l'');
  }

  lemma {:induction false} TakesPlan(
    env: Environment, policy: nat, l: Ledger, a: Command, b: Command, l': Ledger, l'': Ledger)
    requires policy in env.policies && a.key == b.key && a.eventId != b.eventId && a.event.PlanRecorded?
    requires Apply(env.policies, l, env.policies[policy], a) == Ok(l')
    requires Apply(env.policies, l', env.policies[policy], b) == Ok(l'')
    ensures
      var db := Database(map[a.key := l], map[]);
      var first := SubmitBatch(env.policies, db, env.policies[policy], [a]);
      first.Ok? && Consistent(first.value.0) &&
      SubmitSequence(env.policies, first.value.0, env.policies[policy], [a, b]).Ok? &&
      SubmitBatch(env.policies, first.value.0, env.policies[policy], [a, b]).Err?
  {
    hide Granted, Apply, SubmitBatch, SubmitSequence;
    var db, p := Database(map[a.key := l], map[]), env.policies[policy];
    SubmitFresh(env.policies, db, p, a);
    var recorded := SubmitBatch(env.policies, db, p, [a]).value.0;
    ConsistentKept(env.policies, db, p, [a]);
    SubmitFresh(env.policies, recorded, p, b);
    PartlyRecordedConflicts(env.policies, db, p, a, b);
  }

  // ---- a batch that extends its budget before its last command ----

  /** Failing CI again and again spends every round. */
  lemma {:induction false} SpendAll(env: Environment, policy: nat, l: Ledger) returns (l': Ledger)
    requires Stage(env, policy, l, WaitingCi) && l.row.plan == 1 && Granted(l.history) == 0
    requires l.row.round <= env.policies[policy].maxRounds
    requires l.row.revision + 4 * (env.policies[policy].maxRounds - l.row.round) <= U64_MAX
    ensures Stage(env, policy, l', WaitingCi) && l'.row.plan == 1 && Granted(l'.history) == 0
    ensures l'.row.round == env.policies[policy].maxRounds
    ensures l'.row.revision <= l.row.revision + 4 * (env.policies[policy].maxRounds - l.row.round)
    decreases env.policies[policy].maxRounds - l.row.round
  {
    hide Reachable, Granted;
    l' := l;
    if l.row.round < env.policies[policy].maxRounds {
      l' := Remediate(env, policy, l);
      l' := SpendAll(env, policy, l');
    }
  }

  /** One remediation round on a new head. */
  lemma {:induction false} Remediate(env: Environment, policy: nat, l: Ledger) returns (l': Ledger)
    requires Stage(env, policy, l, WaitingCi) && Granted(l.history) == 0 && l.row.revision + 4 <= U64_MAX
    requires l.row.round < env.policies[policy].maxRounds
    ensures Stage(env, policy, l', WaitingCi) && Follows(l, l', 4)
    ensures l'.row.plan == l.row.plan && l'.row.round == l.row.round + 1
  {
    hide Reachable, Apply, Granted;
    var failed := Forward(env, policy, l, Plain(l, CiFailed), None, Remediating);
    var built := FinishBuild(env, policy, failed);
    Then(l, failed, built, 1, 2);
    l' := PublishDraft(env, policy, built);
    Then(l, built, l', 3, 1);
  }

  /** With every round spent, one more CI failure escalates the case. */
  lemma {:induction false} Exhaust(env: Environment, policy: nat) returns (l: Ledger)
    requires env.Valid() && policy in env.policies && env.policies[policy].maxRounds <= U32_MAX
    ensures Stage(env, policy, l, Escalated) && l.row.plan == 1 && Granted(l.history) == 0
    ensures l.row.round == env.policies[policy].maxRounds && l.row.revision <= 4 * U32_MAX + 9
    ensures l.history != [] && LastIs(l.history, CiFailed, {WaitingCi}, Escalated)
  {
    hide Reachable, Apply, Granted;
    var ci := Publish(env, policy);
    ci := SpendAll(env, policy, ci);
    l := Forward(env, policy, ci, Plain(ci, CiFailed), None, Escalated);
  }

  /** The operator's extension to a later policy, and the CI acceptance after it. */
  function Extension(env: Environment, l: Ledger, later: nat): Command
    requires later in env.policies
  {
    Plain(l, RemediationBudgetExtended).(payload := Payload(true, None, None, Some(later),
                                                            Some(env.policies[later].maxRounds), true))
  }

  function Acceptance(l: Ledger): Command {
    CommandOn(l.row.(state := WaitingCi, revision := l.row.revision + 1), CiAccepted, LanesPublished,
              POSTED.resultId + 1, POSTED, None)
  }

  function Prepared(l: Ledger, c: Command, next: CaseState): TransitionInput {
    TransitionInput(c.key, c.eventId, c.revision, next, c.round, c.plan, c.pr, c.head, c.event, c.payload, c.run,
                    Emits(c.event, next))
  }

  lemma {:induction false} ExtensionPrepares(
    env: Environment, policy: nat, l: Ledger, later: nat, effective: CasePolicy)
    requires later in env.policies && effective.revision == policy == l.row.policyRevision && effective.maxRounds > 0
    requires l.row.state.Escalated? && l.row.revision + 2 <= U64_MAX
    ensures Prepare(effective, Extension(env, l, later)) == Ok(Prepared(l, Extension(env, l, later), WaitingCi))
    ensures Prepare(effective, Acceptance(l)) == Ok(Prepared(l, Acceptance(l), Reviewing))
    ensures Consecutive(Prepared(l, Extension(env, l, later), WaitingCi), Acceptance(l))
  {
    hide Transition, Emits;
    var a, b := Extension(env, l, later), Acceptance(l);
    TransitionExact(Escalated, a.event, Context(l.row.round, effective.maxRounds, effective.mergeMode, None),
                    WaitingCi);
    TransitionExact(WaitingCi, b.event, Context(l.row.round, effective.maxRounds, effective.mergeMode, None),
                    Reviewing);
  }

  lemma ExtensionCommits(env: Environment, policy: nat, l: Ledger, later: nat)
    requires policy in env.policies && later in env.policies && policy < later && l.row.policyRevision == policy
    requires env.policies[later].Extends(env.policies[policy])
    requires env.policies[policy].maxRounds <= l.row.round < env.policies[later].maxRounds
    requires l.row.state.Escalated? && l.row.head.Some? && l.row.pr.Some? && l.row.plan != 0 &&
             l.row.revision + 2 <= U64_MAX
    requires LastIs(l.history, CiFailed, {WaitingCi}, Escalated)
    ensures CommitAll(env.policies, l,
                      [Prepared(l, Extension(env, l, later), WaitingCi), Prepared(l, Acceptance(l), Reviewing)]).Ok?
  {
    var a, b := Prepared(l, Extension(env, l, later), WaitingCi), Prepared(l, Acceptance(l), Reviewing);
    assert StoreRule(env.policies, l, a) == Some(later);
    var l' := Commit(env.policies, l, a).value;
    assert Commit(env.policies, l', b).Ok?;
    CommitOne(env.policies, l', b);
    var inputs := [a, b];
    assert inputs[0] == a && inputs[1..] == [b];
    assert CommitAll(env.policies, l, inputs) == CommitAll(env.policies, l', [b]);
  }

  lemma {:induction false} ExtensionAccepted(env: Environment, policy: nat, l: Ledger, later: nat)
    requires env.Valid() && policy in env.policies && later in env.policies && policy < later &&
             l.row.policyRevision == policy
    requires env.policies[policy].maxRounds + Granted(l.history) <= U32_MAX
    requires env.policies[later].Extends(env.policies[policy])
    requires env.policies[policy].maxRounds <= l.row.round < env.policies[later].maxRounds
    requires l.row.state.Escalated? && l.row.head.Some? && l.row.pr.Some? && l.row.plan != 0 &&
             l.row.revision + 2 <= U64_MAX
    requires LastIs(l.history, CiFailed, {WaitingCi}, Escalated)
    ensures ApplyBatch(env.policies, l, env.policies[policy], [Extension(env, l, later), Acceptance(l)]).Ok?
  {
    hide Prepare, CommitAll, Consecutive, Granted, StoreRule, LastIs;
    var p := env.policies[policy];
    var effective := p.(maxRounds := p.maxRounds + Granted(l.history));
    var first, second := Extension(env, l, later), Acceptance(l);
    var a, b := Prepared(l, first, WaitingCi), Prepared(l, second, Reviewing);
    ExtensionPrepares(env, policy, l, later, effective);
    ExtensionCommits(env, policy, l, later);
    var cs := [first, second];
    assert cs[1..] == [second] && [second][1..] == [];
    assert [b] + [] == [b] && [a] + [b] == [a, b];
    assert PrepareAll(effective, Some(b), []) == Ok([]);
    assert PrepareAll(effective, Some(a), [second]) == Ok([b]);
    assert PrepareAll(effective, None, cs) == Ok([a, b]);
  }

  lemma EscalatedHead(l: Ledger)
    requires Dispatchable(l) && l.row.state.Escalated? && LastIs(l.history, CiFailed, {WaitingCi}, Escalated)
    ensures l.row.head.Some? && l.row.pr.Some?
  {
  }

  /** The batch is accepted on this case, and its commands one by one are refused. */
  ghost predicate BatchDiffers(policies: Policies, policy: CasePolicy, l: Ledger, cs: seq<Command>) {
    cs != [] &&
    var db := Database(map[cs[0].key := l], map[]);
    SubmitBatch(policies, db, policy, cs).Ok? && SubmitSequence(policies, db, policy, cs).Err?
  }

  /** For every policy with a later one that only raises its limit some reachable case accepts the extension and the CI
      acceptance as a batch and refuses them one by one. */
  lemma {:induction false} ExtensionBatchDiffers(env: Environment, policy: nat, later: nat)
    requires env.Valid() && policy in env.policies && later in env.policies && policy < later
    requires env.policies[later].Extends(env.policies[policy]) && env.workflows[later] == env.workflows[policy]
    requires env.policies[policy].maxRounds < env.policies[later].maxRounds && env.policies[policy].maxRounds <= U32_MAX
    ensures exists l, cs :: Reachable(env, l) && BatchDiffers(env.policies, env.policies[policy], l, cs)
  {
    hide Reachable, Apply, ApplyBatch, SubmitBatch, SubmitSequence, Prepare, LastIs;
    var l := Exhaust(env, policy);
    ReachableInv(env, l);
    EscalatedHead(l);
    var cs := [Extension(env, l, later), Acceptance(l)];
    ExtensionAccepted(env, policy, l, later);
    var db := Database(map[cs[0].key := l], map[]);
    SubmitFreshBatch(env.policies, db, env.policies[policy], cs);
    AcceptedBatch(env.policies, db, env.policies[policy], cs);
    assert cs[0].event.RemediationBudgetExtended? && cs[0].eventId !in db.events;
    assert BatchDiffers(env.policies, env.policies[policy], l, cs);
  }

  // ---- a resume with its three rounds, and a lowered maximum ----

  /** A run whose last action resumes a case that the loop guard parked. */
  ghost predicate EndsInGrant(env: Environment, ledgers: seq<Ledger>, actions: seq<Action>) {
    Run(env, ledgers, actions) && NeverLowered(env, ledgers) && |actions| > 0 &&
    var i := |actions| - 1;
    actions[i].Submit? && actions[i].command.event.HumanResumed? && ledgers[i].row.state.Escalated? &&
    ledgers[i].history != [] && RoundsExhausted(Last(ledgers[i].history), Escalated)
  }

  /** All accepted policies allow the same number of rounds. */
  ghost predicate SameMaximum(env: Environment) {
    forall a, b :: a in env.policies && b in env.policies ==> env.policies[a].maxRounds == env.policies[b].maxRounds
  }

  /** Under every such set of policies a run like this exists. */
  lemma {:induction false} GrantHappens(env: Environment, policy: nat)
    requires env.Valid() && SameMaximum(env) && policy in env.policies && env.policies[policy].maxRounds <= U32_MAX
    ensures exists ledgers, actions :: EndsInGrant(env, ledgers, actions)
  {
    hide Stage, Reachable, EndsInGrant, Granted, LastIs, Room, SameMaximum;
    var l := Exhaust(env, policy);
    Escalates(env, policy, l);
    ResumeGrantsIt(env, policy, l);
  }

  lemma {:induction false} ResumeGrantsIt(env: Environment, policy: nat, l: Ledger)
    requires SameMaximum(env) && policy in env.policies && Reachable(env, l) && l.row.state.Escalated?
    requires l.history != [] && Last(l.history).Is(CiFailed) && l.row.policyRevision == policy && Room(env, l)
    ensures exists ledgers, actions :: EndsInGrant(env, ledgers, actions)
  {
    hide EndsInGrant, Reachable, Room, Run, Step, Granted, ResumeTarget, RoundsExhausted, SameMaximum;
    var l' := ResumeParked(env, l, policy, false);
    var ledgers, actions := RunTo(env, l);
    ResumeEnds(env, ledgers, actions, ResumeCommand(l, policy, false), l');
  }

  lemma RunTo(env: Environment, l: Ledger) returns (ledgers: seq<Ledger>, actions: seq<Action>)
    requires Reachable(env, l)
    ensures Run(env, ledgers, actions) && ledgers[|actions|] == l
  {
    hide Step, Initial;
    ledgers, actions :| Run(env, ledgers, actions) && l == ledgers[|actions|];
  }

  lemma Escalates(env: Environment, policy: nat, l: Ledger)
    requires Stage(env, policy, l, Escalated) && LastIs(l.history, CiFailed, {WaitingCi}, Escalated)
    requires l.row.revision <= 4 * U32_MAX + 9
    ensures Reachable(env, l) && l.row.state.Escalated? && l.history != [] && Last(l.history).Is(CiFailed)
    ensures l.row.policyRevision == policy && policy in env.policies && Room(env, l)
  {
    hide Reachable, Granted;
  }

  lemma {:induction false} ResumeEnds(
    env: Environment, ledgers: seq<Ledger>, actions: seq<Action>, c: Command, l': Ledger)
    requires Run(env, ledgers, actions) && SameMaximum(env) && c.event.HumanResumed?
    requires
      var l := ledgers[|actions|];
      Step(env, l, Submit(c, None), l') && l.row.state.Escalated? && l.history != [] && Last(l.history).Is(CiFailed)
    ensures EndsInGrant(env, ledgers + [l'], actions + [Submit(c, None)])
  {
    hide Run, Step, Initial, SameMaximum;
    var more, steps := ledgers + [l'], actions + [Submit(c, None)];
    RunLength(env, ledgers, actions);
    RunAppends(env, ledgers, actions, Submit(c, None), l');
    SameNeverLowers(env, more, steps);
    assert more[|steps| - 1] == ledgers[|actions|] && steps[|steps| - 1] == Submit(c, None);
  }

  lemma SameNeverLowers(env: Environment, ledgers: seq<Ledger>, actions: seq<Action>)
    requires Run(env, ledgers, actions) && SameMaximum(env)
    ensures NeverLowered(env, ledgers)
  {
    hide Run;
    forall i | 0 <= i < |ledgers| ensures ledgers[i].row.policyRevision in env.policies {
      RunLength(env, ledgers, actions);
      InPolicy(env, ledgers, actions, i);
    }
  }

  lemma RunLength(env: Environment, ledgers: seq<Ledger>, actions: seq<Action>)
    requires Run(env, ledgers, actions)
    ensures |ledgers| == |actions| + 1
  {
    hide Step, Initial;
  }

  lemma InPolicy(env: Environment, ledgers: seq<Ledger>, actions: seq<Action>, i: nat)
    requires Run(env, ledgers, actions) && i <= |actions| && |ledgers| == |actions| + 1
    ensures ledgers[i].row.policyRevision in env.policies
  {
    hide Step, Initial, Dispatchable, Fenced, LoopGuarded, Collecting, Chain, Emitted, ReviewersDispatched,
         MergesGuarded, Projected, RoundsCounted;
    RunKeeps(env, ledgers, actions, i);
  }

  /** For every policy with a smaller one some reachable case has spent more rounds than its budget: an abandoned
      case keeps its rounds when it is authorized again under the smaller policy. */
  lemma {:induction false} SmallerMaximumExceeded(env: Environment, policy: nat, smaller: nat) returns (l: Ledger)
    requires env.Valid() && policy in env.policies && smaller in env.policies
    requires env.policies[smaller].maxRounds < env.policies[policy].maxRounds <= U32_MAX
    ensures Reachable(env, l) && l.row.policyRevision == smaller && l.row.round > Budget(env, l)
  {
    hide Reachable, Granted;
    l := Publish(env, policy);
    l := SpendAll(env, policy, l);
    l := Abandon(env, policy, l);
    l := AuthorizeAgain(env, l, smaller);
  }

  lemma {:induction false} Abandon(env: Environment, policy: nat, l: Ledger) returns (l': Ledger)
    requires Stage(env, policy, l, WaitingCi) && l.row.revision + 2 <= U64_MAX
    ensures Stage(env, policy, l', Abandoned) && l'.history != [] && Last(l'.history).Is(HumanAbandoned)
    ensures l'.row.round == l.row.round && Granted(l'.history) == Granted(l.history)
  {
    hide Reachable, Granted;
    var parked := Move(env, policy, l, OperationalBoundReached, Escalated);
    l' := Move(env, policy, parked, HumanAbandoned, Abandoned);
  }

  lemma AuthorizeAgain(env: Environment, l: Ledger, policy: nat) returns (l': Ledger)
    requires Reachable(env, l) && policy in env.policies && l.row.state.Abandoned?
    requires l.history != [] && Last(l.history).Is(HumanAbandoned)
    ensures Reachable(env, l') && l'.row.policyRevision == policy && l'.row.round == l.row.round
    ensures Granted(l'.history) == Granted(l.history)
  {
    hide Reachable;
    var r := Record(Reauthorized, Some(Abandoned), Planning, policy, l.row.round, l.row.plan, l.row.pr, l.row.head,
                    [DispatchPlanner], 0, None);
    l' := Ledger(l.row.(state := Planning, revision := l.row.revision + 1, policyRevision := policy),
                 l.history + [r]);
    RunExtends(env, l, Reauthorize(policy), l');
    assert l'.history[..|l'.history| - 1] == l.history;
  }

  ghost predicate WithinBudget(env: Environment, l: Ledger) {
    l.row.policyRevision in env.policies && l.row.round <= Budget(env, l)
  }

  /** No run of any case exceeds its budget exactly when all accepted policies allow the same number of rounds. */
  lemma {:induction false} BudgetSafeExactly(env: Environment)
    requires env.Valid() && forall r :: r in env.policies ==> env.policies[r].maxRounds <= U32_MAX
    ensures (forall l :: Reachable(env, l) ==> WithinBudget(env, l)) <==> SameMaximum(env)
  {
    hide Reachable, Run, Granted;
    if SameMaximum(env) {
      forall l | Reachable(env, l) ensures WithinBudget(env, l) {
        var ledgers, actions := RunTo(env, l);
        RunLength(env, ledgers, actions);
        SameNeverLowers(env, ledgers, actions);
        BudgetNeverExceeded(env, ledgers, actions, |actions|);
      }
    } else {
      var a, b :| a in env.policies && b in env.policies && env.policies[a].maxRounds > env.policies[b].maxRounds;
      var l := SmallerMaximumExceeded(env, a, b);
      assert !WithinBudget(env, l);
    }
  }
}
