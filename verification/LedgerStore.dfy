/** The ledger database as mutable state, its controller entry points, and the agreement of a
    batch with the same commands applied one by one. */
module LedgerStore {
  import opened Prelude
  import opened StateMachine
  import opened Ledger

  datatype ApplyResult = Committed | Replayed

  /** Every case of the ledger, and the accepted input of every event id. */
  datatype Database = Database(ledgers: map<CaseKey, Ledger>, events: map<EventId, TransitionInput>)

  predicate BatchShape(inputs: seq<TransitionInput>) {
    forall i, j :: 0 <= i < j < |inputs| ==>
      inputs[i].key == inputs[j].key && inputs[i].eventId != inputs[j].eventId &&
      (j == i + 1 ==> inputs[j].revision == inputs[i].revision + 1 <= U64_MAX)
  }

  function EventMap(inputs: seq<TransitionInput>): map<EventId, TransitionInput> {
    if inputs == [] then map[]
    else
      var front, last := EventMap(inputs[..|inputs| - 1]), inputs[|inputs| - 1];
      front[last.eventId := last]
  }

  /** `apply_transition_batch`: all known ids replay, none known commits atomically, a mixture conflicts. */
  function Transact(
    policies: Policies, db: Database, inputs: seq<TransitionInput>): Result<(Database, ApplyResult), Error> {
    if inputs == [] || !BatchShape(inputs) then Err(InvalidBatch)
    else if forall i :: 0 <= i < |inputs| ==> inputs[i].eventId in db.events then
      if forall i :: 0 <= i < |inputs| ==> db.events[inputs[i].eventId] == inputs[i]
      then Ok((db, Replayed)) else Err(IdempotencyConflict)
    else if exists i :: 0 <= i < |inputs| && inputs[i].eventId in db.events then Err(IdempotencyConflict)
    else if inputs[0].key !in db.ledgers then Err(MissingCase)
    else
      match CommitAll(policies, db.ledgers[inputs[0].key], inputs)
      case Err(e) => Err(e)
      case Ok(l) => Ok((Database(db.ledgers[inputs[0].key := l], db.events + EventMap(inputs)), Committed))
  }

  /** An accepted batch is of one case, with distinct ids and the revisions in a row. */
  lemma {:induction false} TransactShape(policies: Policies, db: Database, inputs: seq<TransitionInput>, i: nat)
    requires Transact(policies, db, inputs).Ok? && i < |inputs|
    ensures inputs[i].key == inputs[0].key && inputs[i].revision == inputs[0].revision + i
    ensures forall j :: 0 <= j < i ==> inputs[j].eventId != inputs[i].eventId
  {
    hide CommitAll, EventMap;
    if i > 0 {
      TransactShape(policies, db, inputs, i - 1);
      assert inputs[i].revision == inputs[i - 1].revision + 1;
    }
  }

  lemma TransactNew(policies: Policies, db: Database, inputs: seq<TransitionInput>)
    requires inputs != [] && BatchShape(inputs) && forall i :: 0 <= i < |inputs| ==> inputs[i].eventId !in db.events
    ensures inputs[0].key !in db.ledgers ==> Transact(policies, db, inputs) == Err(MissingCase)
    ensures inputs[0].key in db.ledgers ==>
              Transact(policies, db, inputs) ==
              match CommitAll(policies, db.ledgers[inputs[0].key], inputs)
              case Err(e) => Err(e)
              case Ok(l) => Ok((Database(db.ledgers[inputs[0].key := l], db.events + EventMap(inputs)), Committed))
  {
    hide CommitAll, EventMap;
    assert inputs[0].eventId !in db.events;
  }

  function SubmitBatch(
    policies: Policies, db: Database, policy: CasePolicy, cs: seq<Command>): Result<(Database, ApplyResult), Error> {
    if cs == [] then Err(EmptyBatch)
    else if ValidateShape(cs[0]).Some? then Err(ValidateShape(cs[0]).value)
    else if cs[0].key !in db.ledgers then Err(MissingCase)
    else
      var l := db.ledgers[cs[0].key];
      if ValidateWorkflow(l, cs[0]).Some? then Err(ValidateWorkflow(l, cs[0]).value)
      else
        match EffectivePolicy(l, policy)
        case Err(e) => Err(e)
        case Ok(effective) =>
          match PrepareAll(effective, None, cs)
          case Err(e) => Err(e)
          case Ok(inputs) => Transact(policies, db, inputs)
  }

  class Store {
    const policies: Policies
    var ledgers: map<CaseKey, Ledger>
    var events: map<EventId, TransitionInput>

    constructor (policies: Policies)
      ensures this.policies == policies && Contents() == Database(map[], map[])
    {
      this.policies := policies;
      ledgers, events := map[], map[];
    }

    function Contents(): Database
      reads this
    {
      Database(ledgers, events)
    }

    method CommitTransaction(inputs: seq<TransitionInput>) returns (r: Result<ApplyResult, Error>)
      requires inputs != [] && BatchShape(inputs)
      requires forall i :: 0 <= i < |inputs| ==> inputs[i].eventId !in events
      modifies this
      ensures r.Ok? ==> Transact(policies, old(Contents()), inputs) == Ok((Contents(), r.value))
      ensures r.Err? ==> Transact(policies, old(Contents()), inputs) == Err(r.error) && Contents() == old(Contents())
    {
      hide Commit, Transact, BatchShape;
      TransactNew(policies, Contents(), inputs);
      if inputs[0].key !in ledgers {
        return Err(MissingCase);
      }
      var l := ledgers[inputs[0].key];
      var recorded: map<EventId, TransitionInput> := map[];
      for i := 0 to |inputs|
        invariant recorded == EventMap(inputs[..i])
        invariant CommitAll(policies, l, inputs[i..]) == CommitAll(policies, ledgers[inputs[0].key], inputs)
      {
        assert inputs[i..][0] == inputs[i] && inputs[i..][1..] == inputs[i + 1..];
        assert inputs[..i + 1][..i] == inputs[..i];
        var next := Commit(policies, l, inputs[i]);
        if next.Err? {
          return Err(next.error);
        }
        l := next.value;
        recorded := recorded[inputs[i].eventId := inputs[i]];
      }
      assert inputs[..|inputs|] == inputs;
      ledgers := ledgers[inputs[0].key := l];
      events := events + recorded;
      return Ok(Committed);
    }

    method ApplyTransitionBatch(inputs: seq<TransitionInput>) returns (r: Result<ApplyResult, Error>)
      modifies this
      ensures r.Ok? ==> Transact(policies, old(Contents()), inputs) == Ok((Contents(), r.value))
      ensures r.Err? ==> Transact(policies, old(Contents()), inputs) == Err(r.error) && Contents() == old(Contents())
    {
      if inputs == [] || !BatchShape(inputs) {
        return Err(InvalidBatch);
      }
      if forall i :: 0 <= i < |inputs| ==> inputs[i].eventId in events {
        if forall i :: 0 <= i < |inputs| ==> events[inputs[i].eventId] == inputs[i] {
          return Ok(Replayed);
        }
        return Err(IdempotencyConflict);
      }
      if exists i :: 0 <= i < |inputs| && inputs[i].eventId in events {
        return Err(IdempotencyConflict);
      }
      r := CommitTransaction(inputs);
    }
  }

  method ApplyWorkflowBatch(
    store: Store, policy: CasePolicy, workflows: seq<Command>) returns (r: Result<ApplyResult, Error>)
    modifies store
    ensures SubmitBatch(store.policies, old(store.Contents()), policy, workflows) ==
            if r.Ok? then Ok((store.Contents(), r.value)) else Err(r.error)
    ensures r.Err? ==> store.Contents() == old(store.Contents())
  {
    hide Prepare, EffectivePolicy, Consecutive, Transact;
    if workflows == [] {
      return Err(EmptyBatch);
    }
    if ValidateShape(workflows[0]).Some? {
      return Err(ValidateShape(workflows[0]).value);
    }
    if workflows[0].key !in store.ledgers {
      return Err(MissingCase);
    }
    var l := store.ledgers[workflows[0].key];
    if ValidateWorkflow(l, workflows[0]).Some? {
      return Err(ValidateWorkflow(l, workflows[0]).value);
    }
    var budget := EffectivePolicy(l, policy);
    if budget.Err? {
      return Err(budget.error);
    }
    var effective := budget.value;
    var transitions: seq<TransitionInput> := [];
    var previous: Option<TransitionInput> := None;
    assert workflows[0..] == workflows;
    PrependNothing(PrepareAll(effective, None, workflows));
    for i := 0 to |workflows|
      invariant store.Contents() == old(store.Contents()) && |transitions| == i
      invariant previous == if i == 0 then None else Some(transitions[i - 1])
      invariant Prepend(transitions, PrepareAll(effective, previous, workflows[i..])) ==
                PrepareAll(effective, None, workflows)
    {
      var workflow := workflows[i];
      assert workflows[i..][0] == workflow && workflows[i..][1..] == workflows[i + 1..];
      if ValidateShape(workflow).Some? {
        return Err(ValidateShape(workflow).value);
      }
      if previous.Some? && !Consecutive(previous.value, workflow) {
        return Err(NotConsecutive);
      }
      var input := Prepare(effective, workflow);
      if input.Err? {
        return Err(input.error);
      }
      PrependTwice(transitions, [input.value], PrepareAll(effective, Some(input.value), workflows[i + 1..]));
      transitions := transitions + [input.value];
      previous := Some(input.value);
    }
    assert workflows[|workflows|..] == [];
    assert transitions + [] == transitions;
    r := store.ApplyTransitionBatch(transitions);
  }

  lemma PrependNothing(rest: Result<seq<TransitionInput>, Error>)
    ensures Prepend([], rest) == rest
  {
    if rest.Ok? {
      assert [] + rest.value == rest.value;
    }
  }

  lemma PrependTwice(a: seq<TransitionInput>, b: seq<TransitionInput>, rest: Result<seq<TransitionInput>, Error>)
    ensures Prepend(a, Prepend(b, rest)) == Prepend(a + b, rest)
  {
    if rest.Ok? {
      assert a + (b + rest.value) == (a + b) + rest.value;
    }
  }

  method ApplyWorkflow(store: Store, policy: CasePolicy, workflow: Command) returns (r: Result<ApplyResult, Error>)
    modifies store
    ensures SubmitBatch(store.policies, old(store.Contents()), policy, [workflow]) ==
            if r.Ok? then Ok((store.Contents(), r.value)) else Err(r.error)
    ensures r.Err? ==> store.Contents() == old(store.Contents())
  {
    r := ApplyWorkflowBatch(store, policy, [workflow]);
  }

  // ---- a batch against the same commands one by one ----

  /** Validate, prepare and commit in turn under one fixed budget: what a batch amounts to. */
  function Interleaved(policies: Policies, l: Ledger, effective: CasePolicy, cs: seq<Command>): Option<Ledger>
    decreases |cs|
  {
    if cs == [] then Some(l)
    else if ValidateShape(cs[0]).Some? || !Matches(l.row, cs[0]) then None
    else
      match Prepare(effective, cs[0])
      case Err(_) => None
      case Ok(input) =>
        match Commit(policies, l, input)
        case Err(_) => None
        case Ok(l') => Interleaved(policies, l', effective, cs[1..])
  }

  lemma {:induction false} BatchInterleaves(
    policies: Policies, l: Ledger, effective: CasePolicy, previous: Option<TransitionInput>, cs: seq<Command>)
    requires forall i :: 0 <= i < |cs| ==> cs[i].key == cs[0].key
    requires cs != [] && previous.Some? ==>
      previous.value.key == cs[0].key && previous.value.revision < U64_MAX &&
      l.row.revision == previous.value.revision + 1 && l.row.state == previous.value.next &&
      l.row.round == previous.value.round && l.row.plan == previous.value.plan &&
      l.row.pr == previous.value.pr && l.row.head == previous.value.head
    requires cs != [] && previous.None? && l.row.revision == cs[0].revision ==> Matches(l.row, cs[0])
    ensures
      var batch := match PrepareAll(effective, previous, cs)
                   case Err(e) => Err(e)
                   case Ok(inputs) => CommitAll(policies, l, inputs);
      batch.Ok? == Interleaved(policies, l, effective, cs).Some? &&
      (batch.Ok? ==> Some(batch.value) == Interleaved(policies, l, effective, cs))
    decreases |cs|
  {
    if cs != [] && ValidateShape(cs[0]).None? && Prepare(effective, cs[0]).Ok? {
      var input := Prepare(effective, cs[0]).value;
      var rest := PrepareAll(effective, Some(input), cs[1..]);
      if rest.Ok? {
        assert ([input] + rest.value)[1..] == rest.value;
      }
      var committed := Commit(policies, l, input);
      if committed.Ok? && Matches(l.row, cs[0]) {
        BatchInterleaves(policies, committed.value, effective, Some(input), cs[1..]);
      }
    }
  }

  predicate Rebinds(c: Command) { (c.event.RemediationBudgetExtended? || c.event.HumanResumed?) }

  lemma CommitKeepsBudget(policies: Policies, l: Ledger, input: TransitionInput, policy: CasePolicy)
    requires !input.event.HumanResumed? && Commit(policies, l, input).Ok?
    ensures
      var l' := Commit(policies, l, input).value;
      EffectivePolicy(l', policy) == EffectivePolicy(l, policy) &&
      (!input.event.RemediationBudgetExtended? ==> l'.row.policyRevision == l.row.policyRevision) &&
      (input.event.RemediationBudgetExtended? ==> l'.row.policyRevision > l.row.policyRevision)
  {
  }

  /** One command, under the budget it is evaluated with. */
  lemma ApplyUnfolds(policies: Policies, l: Ledger, policy: CasePolicy, c: Command)
    requires EffectivePolicy(l, policy).Ok? && l.row.policyRevision == policy.revision
    ensures
      var prepared := Prepare(EffectivePolicy(l, policy).value, c);
      Apply(policies, l, policy, c).Ok? ==
      (ValidateShape(c).None? && Matches(l.row, c) && prepared.Ok? && Commit(policies, l, prepared.value).Ok?) &&
      (Apply(policies, l, policy, c).Ok? ==> Apply(policies, l, policy, c) == Commit(policies, l, prepared.value)) &&
      (prepared.Ok? ==> prepared.value.event == c.event)
  {
  }

  /** Without a policy rebinding before its last command, a batch is its sequence. */
  lemma {:induction false} SequenceInterleaves(policies: Policies, l: Ledger, policy: CasePolicy, cs: seq<Command>)
    requires EffectivePolicy(l, policy).Ok?
    requires forall i :: 0 <= i < |cs| - 1 ==> !Rebinds(cs[i])
    requires l.row.policyRevision == policy.revision
    ensures
      var effective := EffectivePolicy(l, policy).value;
      var stepwise := ApplySequence(policies, l, policy, cs);
      stepwise.Ok? == Interleaved(policies, l, effective, cs).Some? &&
      (stepwise.Ok? ==> Some(stepwise.value) == Interleaved(policies, l, effective, cs))
    decreases |cs|
  {
    hide Prepare, Commit, Apply, EffectivePolicy, ValidateShape;
    if cs == [] {
    } else {
      ApplyUnfolds(policies, l, policy, cs[0]);
      if Apply(policies, l, policy, cs[0]).Ok? && |cs| > 1 {
        assert !Rebinds(cs[0]);
        CommitKeepsBudget(policies, l, Prepare(EffectivePolicy(l, policy).value, cs[0]).value, policy);
        SequenceInterleaves(policies, Apply(policies, l, policy, cs[0]).value, policy, cs[1..]);
      }
    }
  }

  lemma StalePolicyRefused(policies: Policies, l: Ledger, policy: CasePolicy, c: Command)
    requires l.row.policyRevision != policy.revision
    ensures Apply(policies, l, policy, c).Err?
  {
  }

  /** A batch that rebinds its policy midway is accepted where the sequence is refused. */
  lemma {:induction false} RebindingBreaksSequence(
    policies: Policies, l: Ledger, policy: CasePolicy, cs: seq<Command>, k: nat)
    requires EffectivePolicy(l, policy).Ok?
    requires k < |cs| - 1 && cs[k].event.RemediationBudgetExtended?
    requires forall i :: 0 <= i < k ==> !Rebinds(cs[i])
    requires l.row.policyRevision == policy.revision
    ensures ApplySequence(policies, l, policy, cs).Err?
    decreases |cs|
  {
    hide Prepare, Commit, Apply, EffectivePolicy;
    var first := Apply(policies, l, policy, cs[0]);
    if first.Ok? {
      ApplyUnfolds(policies, l, policy, cs[0]);
      CommitKeepsBudget(policies, l, Prepare(EffectivePolicy(l, policy).value, cs[0]).value, policy);
      if k == 0 {
        StalePolicyRefused(policies, first.value, policy, cs[1]);
      } else {
        assert !Rebinds(cs[0]);
        RebindingBreaksSequence(policies, first.value, policy, cs[1..], k - 1);
      }
    }
  }

  /** Batch refinement. For commands of one case with no resume before the last, the sequence
      succeeds only if the batch does and then ends in the same ledger; an accepted batch
      is its sequence if and only if no command before the last extends the budget. */
  lemma BatchRefinesSequence(policies: Policies, l: Ledger, policy: CasePolicy, cs: seq<Command>)
    requires cs != [] && forall i :: 0 <= i < |cs| ==> cs[i].key == cs[0].key
    requires forall i :: 0 <= i < |cs| - 1 ==> !cs[i].event.HumanResumed?
    ensures ApplySequence(policies, l, policy, cs).Ok? ==>
              ApplyBatch(policies, l, policy, cs) == ApplySequence(policies, l, policy, cs)
    ensures ApplyBatch(policies, l, policy, cs).Ok? ==>
              (ApplySequence(policies, l, policy, cs) == ApplyBatch(policies, l, policy, cs) <==>
               forall i :: 0 <= i < |cs| - 1 ==> !cs[i].event.RemediationBudgetExtended?)
  {
    hide Prepare, Commit, CommitAll, PrepareAll, Transition, Granted, Interleaved;
    if ValidateWorkflow(l, cs[0]).None? && EffectivePolicy(l, policy).Ok? {
      var effective := EffectivePolicy(l, policy).value;
      BatchInterleaves(policies, l, effective, None, cs);
      if l.row.policyRevision == policy.revision && l.row.revision == cs[0].revision {
        if k: nat :| k < |cs| - 1 && cs[k].event.RemediationBudgetExtended? {
          FirstRebinding(cs, k);
          var first: nat :| first <= k && cs[first].event.RemediationBudgetExtended? && forall i :: 0 <= i < first ==>
            !Rebinds(cs[i]);
          RebindingBreaksSequence(policies, l, policy, cs, first);
        } else {
          SequenceInterleaves(policies, l, policy, cs);
        }
      } else {
        StaleRefused(policies, l, policy, cs);
      }
    }
  }

  /** An accepted batch appends one record per command and raises the revision by its length. */
  lemma {:induction false} CommitsGrow(policies: Policies, l: Ledger, inputs: seq<TransitionInput>)
    requires CommitAll(policies, l, inputs).Ok?
    ensures
      var l' := CommitAll(policies, l, inputs).value;
      l'.row.revision == l.row.revision + |inputs| && |l'.history| == |l.history| + |inputs| && l.history <= l'.history
    decreases |inputs|
  {
    hide StoreRule;
    if inputs == [] {
    } else {
      CommitsGrow(policies, Commit(policies, l, inputs[0]).value, inputs[1..]);
    }
  }

  // ---- the prepared inputs of a batch ----

  predicate Prepares(policy: CasePolicy, c: Command) { ValidateShape(c).None? && Prepare(policy, c).Ok? }

  predicate PreparedAs(policy: CasePolicy, c: Command, input: TransitionInput) {
    Prepares(policy, c) && Prepare(policy, c).value == input
  }

  lemma {:induction false} PreparedInputs(policy: CasePolicy, previous: Option<TransitionInput>, cs: seq<Command>)
    requires PrepareAll(policy, previous, cs).Ok?
    ensures
      var inputs := PrepareAll(policy, previous, cs).value;
      |inputs| == |cs| &&
      (forall i :: 0 <= i < |cs| ==> PreparedAs(policy, cs[i], inputs[i])) &&
      (forall i :: 0 < i < |cs| ==> Consecutive(inputs[i - 1], cs[i])) &&
      (cs != [] && previous.Some? ==> Consecutive(previous.value, cs[0]))
    decreases |cs|
  {
    hide Prepare, Consecutive, ValidateShape;
    if cs == [] {
    } else {
      var input := Prepare(policy, cs[0]).value;
      PreparedInputs(policy, Some(input), cs[1..]);
      var rest := PrepareAll(policy, Some(input), cs[1..]).value;
      var inputs := [input] + rest;
      forall i | 0 <= i < |cs| ensures PreparedAs(policy, cs[i], inputs[i]) {
        if i > 0 { assert PreparedAs(policy, cs[1..][i - 1], rest[i - 1]); }
      }
      forall i | 0 < i < |cs| ensures Consecutive(inputs[i - 1], cs[i]) {
        if i > 1 { assert Consecutive(rest[i - 2], cs[1..][i - 1]); }
      }
    }
  }

  lemma PrepareIdentity(policy: CasePolicy, c: Command, input: TransitionInput)
    requires PreparedAs(policy, c, input)
    ensures input.key == c.key && input.eventId == c.eventId && input.revision == c.revision && input.event == c.event
    ensures input.run == c.run
  {
    hide Transition;
  }

  lemma PreparedIds(policy: CasePolicy, cs: seq<Command>, inputs: seq<TransitionInput>)
    requires PrepareAll(policy, None, cs) == Ok(inputs)
    ensures |inputs| == |cs|
    ensures forall i :: 0 <= i < |cs| ==>
              inputs[i].key == cs[i].key && inputs[i].eventId == cs[i].eventId && inputs[i].run == cs[i].run &&
              PreparedAs(policy, cs[i], inputs[i])
  {
    hide Prepare, PrepareAll, ValidateShape, Consecutive;
    PreparedInputs(policy, None, cs);
    forall i | 0 <= i < |cs|
      ensures inputs[i].key == cs[i].key && inputs[i].eventId == cs[i].eventId && inputs[i].run == cs[i].run
    {
      PrepareIdentity(policy, cs[i], inputs[i]);
    }
  }

  lemma {:induction false} EventMapHolds(inputs: seq<TransitionInput>, id: EventId)
    requires forall i, j :: 0 <= i < j < |inputs| ==> inputs[i].eventId != inputs[j].eventId
    ensures id in EventMap(inputs) <==> exists i :: 0 <= i < |inputs| && inputs[i].eventId == id
    ensures forall i :: 0 <= i < |inputs| && inputs[i].eventId == id ==> EventMap(inputs)[id] == inputs[i]
  {
    if inputs == [] {
    } else {
      var front := inputs[..|inputs| - 1];
      EventMapHolds(front, id);
      if i :| 0 <= i < |front| && front[i].eventId == id {
        assert inputs[i].eventId == id;
      }
    }
  }

  lemma BatchGrows(policies: Policies, l: Ledger, policy: CasePolicy, cs: seq<Command>)
    requires ApplyBatch(policies, l, policy, cs).Ok?
    ensures
      var l' := ApplyBatch(policies, l, policy, cs).value;
      l'.row.revision == l.row.revision + |cs| && |l'.history| == |l.history| + |cs| && l.history <= l'.history
  {
    hide Prepare, Commit, CommitAll, PrepareAll, Granted;
    var inputs := PrepareAll(EffectivePolicy(l, policy).value, None, cs).value;
    PreparedIds(EffectivePolicy(l, policy).value, cs, inputs);
    CommitsGrow(policies, l, inputs);
  }

  lemma StaleRefused(policies: Policies, l: Ledger, policy: CasePolicy, cs: seq<Command>)
    requires cs != [] && (l.row.policyRevision != policy.revision || l.row.revision != cs[0].revision)
    ensures ApplySequence(policies, l, policy, cs).Err?
    ensures ApplyBatch(policies, l, policy, cs).Err?
  {
    hide Transition, Granted, StoreRule;
  }

  lemma {:induction false} FirstRebinding(cs: seq<Command>, k: nat)
    requires k < |cs| && cs[k].event.RemediationBudgetExtended?
    requires forall i :: 0 <= i < k ==> !cs[i].event.HumanResumed?
    ensures exists first: nat ::
              first <= k && cs[first].event.RemediationBudgetExtended? && forall i :: 0 <= i < first ==> !Rebinds(cs[i])
  {
    if j: nat :| j < k && cs[j].event.RemediationBudgetExtended? {
      FirstRebinding(cs, j);
    } else {
      assert forall i :: 0 <= i < k ==> !Rebinds(cs[i]);
    }
  }
}
