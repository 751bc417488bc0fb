/** Where the bindings of a case come from, over its whole run. */
module Provenance {
  import opened Prelude
  import opened StateMachine
  import opened Ledger
  import opened Workflow
  import opened WorkflowSafety
  import opened Readiness
  import opened Liveness
  import opened Runs

  predicate Publishes(a: Action) { a.Submit? && a.command.event.ReviewReady? }

  /** The head that the last publication carried. */
  function LastHead(actions: seq<Action>): Option<Sha> {
    if actions == [] then None
    else
      var front, last := actions[..|actions| - 1], actions[|actions| - 1];
      if Publishes(last) then last.command.nextHead else LastHead(front)
  }

  /** The pull request that the first publication named. */
  function FirstPullRequest(actions: seq<Action>): Option<nat> {
    if actions == [] then None
    else
      var front, last := actions[..|actions| - 1], actions[|actions| - 1];
      if (exists a :: a in front && Publishes(a)) || !Publishes(last) then FirstPullRequest(front)
      else last.command.nextPr
  }

  function AcceptedPlans(actions: seq<Action>): nat {
    if actions == [] then 0
    else
      var front, last := actions[..|actions| - 1], actions[|actions| - 1];
      AcceptedPlans(front) + if last.Submit? && last.command.acceptedPlan.Some? then 1 else 0
  }

  /** What the run says about the bindings of its last row. */
  ghost predicate ComesFrom(row: Case, actions: seq<Action>) {
    row.head == LastHead(actions) && row.pr == FirstPullRequest(actions) &&
    row.plan == (if AcceptedPlans(actions) < U32_MAX then AcceptedPlans(actions) else U32_MAX) &&
    (row.head.Some? <==> exists a :: a in actions && Publishes(a))
  }

  lemma NothingBound(env: Environment, l: Ledger)
    requires Initial(env, l)
    ensures ComesFrom(l.row, [])
  {
  }

  lemma StepBinds(env: Environment, l: Ledger, a: Action, l': Ledger, front: seq<Action>)
    requires Inv(env, l) && Step(env, l, a, l') && ComesFrom(l.row, front)
    ensures ComesFrom(l'.row, front + [a])
  {
    hide Dispatchable, Fenced, RoundsCounted, LoopGuarded, Collecting, Chain, Emitted, ReviewersDispatched,
         MergesGuarded, Allowed, Apply, Entered, Emits, Granted;
    var actions := front + [a];
    assert actions[..|actions| - 1] == front;
    if a.Submit? {
      StepAppends(env, l, a, l');
    }
  }

  /** In every run the head is the one its last publication carried, the pull request the one its first
      publication named, and the plan version the number of accepted plans. */
  lemma {:induction false} BindingsComeFrom(env: Environment, ledgers: seq<Ledger>, actions: seq<Action>, i: nat)
    requires Run(env, ledgers, actions) && i <= |actions|
    ensures ComesFrom(ledgers[i].row, actions[..i])
  {
    hide Inv, Step, ComesFrom;
    if i == 0 {
      NothingBound(env, ledgers[0]);
    } else {
      BindingsComeFrom(env, ledgers, actions, i - 1);
      RunKeeps(env, ledgers, actions, i - 1);
      assert Step(env, ledgers[i - 1], actions[i - 1], ledgers[i]);
      StepBinds(env, ledgers[i - 1], actions[i - 1], ledgers[i], actions[..i - 1]);
      assert actions[..i] == actions[..i - 1] + [actions[i - 1]];
    }
  }

  /** A run only appends: every earlier ledger is a prefix of the last one, one record per action. */
  lemma {:induction false} HistoryGrows(env: Environment, ledgers: seq<Ledger>, actions: seq<Action>, i: nat, j: nat)
    requires Run(env, ledgers, actions) && i <= j <= |actions|
    ensures |ledgers[i].history| == i + 1 && |ledgers[j].history| == j + 1
    ensures ledgers[i].history == ledgers[j].history[..i + 1]
  {
    hide Inv, Step;
    if j == 0 {
    } else if i == j {
      HistoryGrows(env, ledgers, actions, j - 1, j - 1);
      StepGrows(env, ledgers, actions, j);
    } else {
      HistoryGrows(env, ledgers, actions, i, j - 1);
      StepGrows(env, ledgers, actions, j);
    }
  }

  lemma StepGrows(env: Environment, ledgers: seq<Ledger>, actions: seq<Action>, j: nat)
    requires Run(env, ledgers, actions) && 0 < j <= |actions|
    ensures ledgers[j].history != [] && ledgers[j].history == ledgers[j - 1].history + [Last(ledgers[j].history)]
  {
    hide Dispatchable, Fenced, RoundsCounted, LoopGuarded, Collecting, Chain, Emitted, ReviewersDispatched,
         MergesGuarded, Allowed, Apply, Entered, Emits, Granted, NextFields, PolicyKept, Initial;
    RunKeeps(env, ledgers, actions, j - 1);
    var l, a, l' := ledgers[j - 1], actions[j - 1], ledgers[j];
    assert Step(env, l, a, l');
    if a.Submit? {
      StepAppends(env, l, a, l');
    }
  }

  /** A label that comes back restarts a case exactly when the case was abandoned by command, or lost its label before
      anything was published. */
  lemma ReauthorizedExactly(env: Environment, ledgers: seq<Ledger>, actions: seq<Action>, policy: nat)
    requires Run(env, ledgers, actions) && policy in env.policies
    ensures
      var l := ledgers[|actions|];
      l.history != [] &&
      ((exists l' :: Step(env, l, Reauthorize(policy), l')) <==>
       l.row.state.Abandoned? &&
       (Last(l.history).Is(HumanAbandoned) ||
        (Last(l.history).Is(AuthorizationRemoved) && forall a :: a in actions ==> !Publishes(a))))
  {
    hide Initial, Step, LastHead, FirstPullRequest, AcceptedPlans;
    var l := ledgers[|actions|];
    assert actions[..|actions|] == actions;
    BindingsComeFrom(env, ledgers, actions, |actions|);
    RunProjected(env, ledgers, actions);
    RestartsExactly(env, l, policy);
  }

  lemma RestartsExactly(env: Environment, l: Ledger, policy: nat)
    requires policy in env.policies
    ensures (exists l' :: Step(env, l, Reauthorize(policy), l')) <==> Reauthorizable(l)
  {
    hide Apply, Allowed;
    if Reauthorizable(l) {
      var l' := Ledger(l.row.(state := Planning, revision := l.row.revision + 1, policyRevision := policy),
                       l.history + [Record(Reauthorized, Some(l.row.state), Planning, policy, l.row.round, l.row.plan,
                                           l.row.pr, l.row.head, [DispatchPlanner], 0, None)]);
      assert Step(env, l, Reauthorize(policy), l');
    }
  }

  lemma RunProjected(env: Environment, ledgers: seq<Ledger>, actions: seq<Action>)
    requires Run(env, ledgers, actions)
    ensures
      var l := ledgers[|actions|];
      l.history != [] && l.row.pr.Some? == l.row.head.Some?
  {
    hide Step, Initial, Fenced, RoundsCounted, LoopGuarded, Collecting, Chain, Emitted, ReviewersDispatched,
         MergesGuarded, Resumable;
    RunKeeps(env, ledgers, actions, |actions|);
  }
}
