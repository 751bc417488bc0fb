/** Batches against sequences at the store's entry points, where every command carries an event id. */
module Batches {
  import opened Prelude
  import opened StateMachine
  import opened Ledger
  import opened LedgerStore

  /** The commands submitted one by one. */
  function SubmitSequence(
    policies: Policies, db: Database, policy: CasePolicy, cs: seq<Command>): Result<Database, Error>
    decreases |cs|
  {
    if cs == [] then Ok(db)
    else
      match SubmitBatch(policies, db, policy, [cs[0]])
      case Err(e) => Err(e)
      case Ok((db', _)) => SubmitSequence(policies, db', policy, cs[1..])
  }

  // ---- what a caller can check before the call ----

  predicate OneKey(cs: seq<Command>) { forall i :: 0 <= i < |cs| ==> cs[i].key == cs[0].key }

  predicate DistinctIds(cs: seq<Command>) {
    forall i, j :: 0 <= i < j < |cs| ==> cs[i].eventId != cs[j].eventId
  }

  predicate NoneKnown(db: Database, cs: seq<Command>) { forall i :: 0 <= i < |cs| ==> cs[i].eventId !in db.events }

  predicate AllKnown(db: Database, cs: seq<Command>) { forall i :: 0 <= i < |cs| ==> cs[i].eventId in db.events }

  /** Some command before the last one extends the budget. */
  predicate ExtendsEarly(cs: seq<Command>) {
    exists i :: 0 <= i < |cs| - 1 && cs[i].event.RemediationBudgetExtended?
  }

  predicate ResumesEarly(cs: seq<Command>) { exists i :: 0 <= i < |cs| - 1 && cs[i].event.HumanResumed? }

  /** Each command is well formed, decided, and consecutive to the transition before it. */
  predicate Linked(policy: CasePolicy, previous: Option<TransitionInput>, cs: seq<Command>)
    decreases |cs|
  {
    cs == [] ||
    (Prepares(policy, cs[0]) && (previous.Some? ==> Consecutive(previous.value, cs[0])) &&
     Linked(policy, Some(Prepare(policy, cs[0]).value), cs[1..]))
  }

  /** Every recorded event was committed to its case. */
  predicate Consistent(db: Database) {
    forall id :: id in db.events ==>
      db.events[id].key in db.ledgers && db.events[id].revision < db.ledgers[db.events[id].key].row.revision
  }

  // ---- one pass over a batch ----

  lemma {:induction false} PrepareAllLinks(policy: CasePolicy, previous: Option<TransitionInput>, cs: seq<Command>)
    ensures PrepareAll(policy, previous, cs).Ok? <==> Linked(policy, previous, cs)
    decreases |cs|
  {
    hide Prepare, Consecutive, ValidateShape;
    if cs == [] {
    } else if Prepares(policy, cs[0]) {
      PrepareAllLinks(policy, Some(Prepare(policy, cs[0]).value), cs[1..]);
    }
  }

  /** The store's shape check on a prepared batch is a check of its ids alone. */
  lemma PreparedShape(policy: CasePolicy, cs: seq<Command>, inputs: seq<TransitionInput>)
    requires PrepareAll(policy, None, cs) == Ok(inputs)
    ensures OneKey(cs) && (BatchShape(inputs) <==> DistinctIds(cs))
  {
    hide Prepare, PrepareAll, ValidateShape, Consecutive;
    PreparedInputs(policy, None, cs);
    forall i | 0 <= i < |cs|
      ensures inputs[i].key == cs[i].key && inputs[i].eventId == cs[i].eventId && inputs[i].revision == cs[i].revision
    {
      PrepareIdentity(policy, cs[i], inputs[i]);
    }
    forall i | 0 <= i < |cs| ensures InputFollows(cs, inputs, i) {
      if i > 0 { NextInCase(inputs[i - 1], cs[i], inputs[i]); }
    }
    ChainedKey(cs, inputs);
    ShapeOfIds(cs, inputs);
  }

  lemma NextInCase(previous: TransitionInput, c: Command, input: TransitionInput)
    requires Consecutive(previous, c) && input.revision == c.revision
    ensures c.key == previous.key && input.revision == previous.revision + 1 <= U64_MAX
  {
  }

  lemma ShapeOfIds(cs: seq<Command>, inputs: seq<TransitionInput>)
    requires |inputs| == |cs| && OneKey(cs) && forall i :: 0 <= i < |cs| ==> InputFollows(cs, inputs, i)
    requires forall i :: 0 <= i < |cs| ==> inputs[i].key == cs[i].key && inputs[i].eventId == cs[i].eventId
    ensures BatchShape(inputs) <==> DistinctIds(cs)
  {
    forall i, j | 0 <= i < j < |inputs|
      ensures inputs[i].key == inputs[j].key
      ensures j == i + 1 ==> inputs[j].revision == inputs[i].revision + 1 <= U64_MAX
    {
      assert InputFollows(cs, inputs, j);
    }
    if BatchShape(inputs) {
      forall i, j | 0 <= i < j < |cs| ensures cs[i].eventId != cs[j].eventId {
        assert inputs[i].eventId != inputs[j].eventId;
      }
    }
  }

  /** A command is for the case of the one before it, at the next revision. */
  predicate InputFollows(cs: seq<Command>, inputs: seq<TransitionInput>, i: int)
    requires |inputs| == |cs| && 0 <= i < |cs|
  {
    i > 0 ==> cs[i].key == cs[i - 1].key && inputs[i].revision == inputs[i - 1].revision + 1 <= U64_MAX
  }

  lemma ChainedKey(cs: seq<Command>, inputs: seq<TransitionInput>)
    requires |inputs| == |cs| && forall i :: 0 <= i < |cs| ==> InputFollows(cs, inputs, i)
    ensures OneKey(cs)
  {
    forall i | 0 <= i < |cs| ensures cs[i].key == cs[0].key { KeyOf(cs, inputs, i); }
  }

  lemma {:induction false} KeyOf(cs: seq<Command>, inputs: seq<TransitionInput>, i: nat)
    requires |inputs| == |cs| && i < |cs| && forall k :: 0 <= k < |cs| ==> InputFollows(cs, inputs, k)
    ensures cs[i].key == cs[0].key
  {
    if i == 0 {
    } else {
      assert InputFollows(cs, inputs, i);
      KeyOf(cs, inputs, i - 1);
    }
  }

  // ---- one command at the entry point ----

  lemma PrepareOne(policy: CasePolicy, c: Command)
    ensures PrepareAll(policy, None, [c]).Ok? <==> Prepares(policy, c)
    ensures Prepares(policy, c) ==> PrepareAll(policy, None, [c]) == Ok([Prepare(policy, c).value])
  {
    hide Prepare, ValidateShape;
    assert [c][1..] == [];
    if Prepares(policy, c) {
      assert [Prepare(policy, c).value] + [] == [Prepare(policy, c).value];
    }
  }

  lemma CommitOne(policies: Policies, l: Ledger, input: TransitionInput)
    ensures CommitAll(policies, l, [input]) == Commit(policies, l, input)
  {
    hide Commit;
    assert [input][1..] == [];
    if Commit(policies, l, input).Ok? {
      assert CommitAll(policies, Commit(policies, l, input).value, []) == Commit(policies, l, input);
    }
  }

  lemma EventMapOne(input: TransitionInput)
    ensures EventMap([input]) == map[input.eventId := input]
  {
    assert [input][..0] == [];
  }

  /** A new id: the command is applied and its input recorded. */
  lemma {:induction false} SubmitFresh(policies: Policies, db: Database, policy: CasePolicy, c: Command)
    requires c.key in db.ledgers && c.eventId !in db.events
    ensures
      var l := db.ledgers[c.key];
      var r := SubmitBatch(policies, db, policy, [c]);
      r.Ok? == Apply(policies, l, policy, c).Ok? &&
      (r.Ok? ==>
         EffectivePolicy(l, policy).Ok? && Prepares(EffectivePolicy(l, policy).value, c) &&
         r.value.1.Committed? &&
         r.value.0 == Database(db.ledgers[c.key := Apply(policies, l, policy, c).value],
                               db.events[c.eventId := Prepare(EffectivePolicy(l, policy).value, c).value]))
  {
    hide Prepare, PrepareAll, Commit, CommitAll, Granted, EventMap;
    var l := db.ledgers[c.key];
    if EffectivePolicy(l, policy).Ok? {
      var effective := EffectivePolicy(l, policy).value;
      PrepareOne(effective, c);
      if Prepares(effective, c) {
        var input := Prepare(effective, c).value;
        PrepareIdentity(effective, c, input);
        CommitOne(policies, l, input);
        EventMapOne(input);
      }
    }
  }

  /** A known id: the command replays exactly when it prepares the recorded input. */
  predicate Replays(db: Database, policy: CasePolicy, c: Command) {
    c.key in db.ledgers && c.eventId in db.events &&
    var l := db.ledgers[c.key];
    ValidateWorkflow(l, c).None? && EffectivePolicy(l, policy).Ok? &&
    PreparedAs(EffectivePolicy(l, policy).value, c, db.events[c.eventId])
  }

  lemma {:induction false} SubmitKnown(policies: Policies, db: Database, policy: CasePolicy, c: Command)
    requires c.eventId in db.events
    ensures
      var r := SubmitBatch(policies, db, policy, [c]);
      (r.Ok? <==> Replays(db, policy, c)) && (r.Ok? ==> r.value == (db, Replayed))
  {
    hide Prepare, PrepareAll, Commit, CommitAll, Granted, EventMap;
    if c.key in db.ledgers && EffectivePolicy(db.ledgers[c.key], policy).Ok? {
      var effective := EffectivePolicy(db.ledgers[c.key], policy).value;
      PrepareOne(effective, c);
      if Prepares(effective, c) {
        PrepareIdentity(effective, c, Prepare(effective, c).value);
      }
    }
  }

  // ---- a batch of new ids ----

  /** With new ids the entry point is the batch on its ledger, with its inputs recorded. */
  lemma {:induction false} SubmitFreshBatch(policies: Policies, db: Database, policy: CasePolicy, cs: seq<Command>)
    requires cs != [] && NoneKnown(db, cs) && cs[0].key in db.ledgers
    ensures
      var l := db.ledgers[cs[0].key];
      var r := SubmitBatch(policies, db, policy, cs);
      (r.Ok? <==> ApplyBatch(policies, l, policy, cs).Ok? && DistinctIds(cs)) &&
      (r.Ok? ==>
         OneKey(cs) && r.value.1.Committed? && EffectivePolicy(l, policy).Ok? &&
         var inputs := PrepareAll(EffectivePolicy(l, policy).value, None, cs);
         inputs.Ok? &&
         r.value.0 == Database(db.ledgers[cs[0].key := ApplyBatch(policies, l, policy, cs).value],
                               db.events + EventMap(inputs.value)))
  {
    hide Prepare, PrepareAll, Commit, CommitAll, Granted, EventMap, BatchShape, DistinctIds, ValidateShape;
    var l := db.ledgers[cs[0].key];
    if EffectivePolicy(l, policy).Ok? && PrepareAll(EffectivePolicy(l, policy).value, None, cs).Ok? {
      var effective := EffectivePolicy(l, policy).value;
      var inputs := PrepareAll(effective, None, cs).value;
      PreparedShape(effective, cs, inputs);
      PreparedIds(effective, cs, inputs);
    }
  }

  /** The inputs that the commands record under one budget. */
  function Recorded(policy: CasePolicy, cs: seq<Command>): map<EventId, TransitionInput>
    decreases |cs|
  {
    if cs == [] then map[]
    else if Prepare(policy, cs[0]).Err? then Recorded(policy, cs[1..])
    else map[cs[0].eventId := Prepare(policy, cs[0]).value] + Recorded(policy, cs[1..])
  }

  lemma {:induction false} RecordedHolds(policy: CasePolicy, cs: seq<Command>, id: EventId)
    requires DistinctIds(cs) && forall i :: 0 <= i < |cs| ==> Prepare(policy, cs[i]).Ok?
    ensures id in Recorded(policy, cs) <==> exists i :: 0 <= i < |cs| && cs[i].eventId == id
    ensures forall i :: 0 <= i < |cs| && cs[i].eventId == id ==>
              Recorded(policy, cs)[id] == Prepare(policy, cs[i]).value
    decreases |cs|
  {
    hide Prepare;
    if cs == [] {
    } else {
      var rest := cs[1..];
      assert forall i :: 0 <= i < |rest| ==> rest[i] == cs[i + 1];
      RecordedHolds(policy, rest, id);
      if i :| 0 <= i < |cs| && cs[i].eventId == id {
        if i > 0 { assert rest[i - 1].eventId == id; }
      }
    }
  }

  lemma RecordedIsEventMap(policy: CasePolicy, cs: seq<Command>, inputs: seq<TransitionInput>)
    requires PrepareAll(policy, None, cs) == Ok(inputs) && DistinctIds(cs)
    ensures EventMap(inputs) == Recorded(policy, cs)
  {
    hide Prepare, PrepareAll, ValidateShape, EventMap, Recorded;
    PreparedIds(policy, cs, inputs);
    forall i, j | 0 <= i < j < |inputs| ensures inputs[i].eventId != inputs[j].eventId {
      assert cs[i].eventId != cs[j].eventId;
    }
    assert forall i :: 0 <= i < |cs| ==> PreparedAs(policy, cs[i], inputs[i]);
    forall id ensures id in EventMap(inputs) <==> id in Recorded(policy, cs) {
      EventMapHolds(inputs, id);
      RecordedHolds(policy, cs, id);
    }
    forall id | id in EventMap(inputs) ensures EventMap(inputs)[id] == Recorded(policy, cs)[id] {
      EventMapHolds(inputs, id);
      RecordedHolds(policy, cs, id);
      var i :| 0 <= i < |inputs| && inputs[i].eventId == id;
      assert PreparedAs(policy, cs[i], inputs[i]);
    }
  }

  // ---- a sequence of new ids ----

  lemma RestIsNew(db: Database, db': Database, cs: seq<Command>, input: TransitionInput)
    requires cs != [] && OneKey(cs) && DistinctIds(cs) && NoneKnown(db, cs)
    requires db'.events == db.events[cs[0].eventId := input]
    ensures OneKey(cs[1..]) && DistinctIds(cs[1..]) && NoneKnown(db', cs[1..])
    ensures |cs| > 1 ==> cs[1..][0].key == cs[0].key
  {
    var rest := cs[1..];
    assert forall i :: 0 <= i < |rest| ==> rest[i] == cs[i + 1];
  }

  /** One by one, new ids run the sequence on their ledger. */
  lemma {:induction false} SubmitFreshSequence(
    policies: Policies, db: Database, policy: CasePolicy, key: CaseKey, cs: seq<Command>)
    requires OneKey(cs) && DistinctIds(cs) && NoneKnown(db, cs) && key in db.ledgers && (cs != [] ==> cs[0].key == key)
    ensures
      var r := SubmitSequence(policies, db, policy, cs);
      var s := ApplySequence(policies, db.ledgers[key], policy, cs);
      r.Ok? == s.Ok? && (r.Ok? ==> r.value.ledgers == db.ledgers[key := s.value])
    decreases |cs|
  {
    hide SubmitBatch, Apply, Prepare, EffectivePolicy, OneKey, DistinctIds, NoneKnown;
    if cs == [] {
      assert db.ledgers[key := db.ledgers[key]] == db.ledgers;
    } else {
      FirstIsNew(db, cs);
      SubmitFresh(policies, db, policy, cs[0]);
      var first := SubmitBatch(policies, db, policy, [cs[0]]);
      if first.Ok? {
        var db' := first.value.0;
        RestIsNew(db, db', cs, db'.events[cs[0].eventId]);
        SubmitFreshSequence(policies, db', policy, key, cs[1..]);
      }
    }
  }

  lemma FirstIsNew(db: Database, cs: seq<Command>)
    requires cs != [] && NoneKnown(db, cs)
    ensures cs[0].eventId !in db.events
  {
  }

  /** With no resume before the last command, the sequence records what one budget prepares. */
  lemma {:induction false} SubmitFreshEvents(
    policies: Policies, db: Database, policy: CasePolicy, key: CaseKey, cs: seq<Command>)
    requires OneKey(cs) && DistinctIds(cs) && NoneKnown(db, cs) && key in db.ledgers && (cs != [] ==> cs[0].key == key)
    requires EffectivePolicy(db.ledgers[key], policy).Ok? && !ResumesEarly(cs)
    requires SubmitSequence(policies, db, policy, cs).Ok?
    ensures SubmitSequence(policies, db, policy, cs).value.events ==
            db.events + Recorded(EffectivePolicy(db.ledgers[key], policy).value, cs)
    decreases |cs|
  {
    hide SubmitBatch, Apply, Prepare, EffectivePolicy, OneKey, DistinctIds, NoneKnown, ResumesEarly;
    if cs == [] {
    } else {
      var l, effective := db.ledgers[key], EffectivePolicy(db.ledgers[key], policy).value;
      FirstIsNew(db, cs);
      SubmitFresh(policies, db, policy, cs[0]);
      var db' := SubmitBatch(policies, db, policy, [cs[0]]).value.0;
      RestIsNew(db, db', cs, db'.events[cs[0].eventId]);
      if |cs| == 1 {
        assert cs[1..] == [];
      } else {
        BudgetStays(policies, l, policy, cs);
        SubmitFreshEvents(policies, db', policy, key, cs[1..]);
      }
    }
  }

  lemma BudgetStays(policies: Policies, l: Ledger, policy: CasePolicy, cs: seq<Command>)
    requires |cs| > 1 && !ResumesEarly(cs) && EffectivePolicy(l, policy).Ok? && Apply(policies, l, policy, cs[0]).Ok?
    ensures EffectivePolicy(Apply(policies, l, policy, cs[0]).value, policy) == EffectivePolicy(l, policy)
    ensures !ResumesEarly(cs[1..])
  {
    hide Prepare, Commit, EffectivePolicy, ValidateWorkflow;
    assert !cs[0].event.HumanResumed?;
    var prepared := Prepare(EffectivePolicy(l, policy).value, cs[0]).value;
    PreparedEvent(EffectivePolicy(l, policy).value, cs[0]);
    CommitKeepsBudget(policies, l, prepared, policy);
    forall i | 0 <= i < |cs[1..]| - 1 ensures !cs[1..][i].event.HumanResumed? {
      assert cs[1..][i] == cs[i + 1];
    }
  }

  lemma PreparedEvent(policy: CasePolicy, c: Command)
    requires Prepare(policy, c).Ok?
    ensures Prepare(policy, c).value.event == c.event
  {
    hide Transition;
  }

  // ---- known ids ----

  lemma {:induction false} KnownSequence(policies: Policies, db: Database, policy: CasePolicy, cs: seq<Command>)
    requires AllKnown(db, cs)
    ensures
      var r := SubmitSequence(policies, db, policy, cs);
      (r.Ok? <==> forall i :: 0 <= i < |cs| ==> Replays(db, policy, cs[i])) && (r.Ok? ==> r.value == db)
    decreases |cs|
  {
    hide SubmitBatch, Replays;
    if cs == [] {
    } else {
      var rest := cs[1..];
      assert forall i :: 0 <= i < |rest| ==> rest[i] == cs[i + 1];
      SubmitKnown(policies, db, policy, cs[0]);
      KnownSequence(policies, db, policy, rest);
      if forall i :: 0 <= i < |rest| ==> Replays(db, policy, rest[i]) {
        forall i | 0 < i < |cs| ensures Replays(db, policy, cs[i]) {
          assert Replays(db, policy, rest[i - 1]);
        }
      }
      if forall i :: 0 <= i < |cs| ==> Replays(db, policy, cs[i]) {
        forall i | 0 <= i < |rest| ensures Replays(db, policy, rest[i]) {
          assert Replays(db, policy, cs[i + 1]);
        }
      }
    }
  }

  /** The recorded inputs are the ones these commands prepare. */
  predicate Matching(db: Database, policy: CasePolicy, cs: seq<Command>)
    requires AllKnown(db, cs)
  {
    forall i :: 0 <= i < |cs| ==> PreparedAs(policy, cs[i], db.events[cs[i].eventId])
  }

  lemma {:induction false} SubmitKnownBatch(policies: Policies, db: Database, policy: CasePolicy, cs: seq<Command>)
    requires cs != [] && AllKnown(db, cs) && cs[0].key in db.ledgers &&
             EffectivePolicy(db.ledgers[cs[0].key], policy).Ok?
    ensures
      var l := db.ledgers[cs[0].key];
      var effective := EffectivePolicy(l, policy).value;
      var r := SubmitBatch(policies, db, policy, cs);
      (r.Ok? <==>
         ValidateWorkflow(l, cs[0]).None? && Linked(effective, None, cs) &&
         DistinctIds(cs) && Matching(db, effective, cs)) &&
      (r.Ok? ==> OneKey(cs) && r.value == (db, Replayed))
  {
    hide Prepare, PrepareAll, Commit, CommitAll, Granted, EventMap, BatchShape, DistinctIds, ValidateShape, Linked;
    var l := db.ledgers[cs[0].key];
    var effective := EffectivePolicy(l, policy).value;
    PrepareAllLinks(effective, None, cs);
    if PrepareAll(effective, None, cs).Ok? {
      var inputs := PrepareAll(effective, None, cs).value;
      PreparedShape(effective, cs, inputs);
      PreparedIds(effective, cs, inputs);
      assert Matching(db, effective, cs) <==>
             forall i :: 0 <= i < |inputs| ==> db.events[inputs[i].eventId] == inputs[i];
    }
  }

  /** An accepted replay of a batch is a replay of each of its commands. */
  lemma KnownBatchReplays(policies: Policies, db: Database, policy: CasePolicy, cs: seq<Command>)
    requires cs != [] && AllKnown(db, cs) && Consistent(db) && SubmitBatch(policies, db, policy, cs).Ok?
    ensures forall i :: 0 <= i < |cs| ==> Replays(db, policy, cs[i])
  {
    hide Prepare, PrepareAll, Commit, CommitAll, Granted, EventMap, BatchShape, Linked, DistinctIds, Transact;
    var l := db.ledgers[cs[0].key];
    var effective := EffectivePolicy(l, policy).value;
    SubmitKnownBatch(policies, db, policy, cs);
    forall i | 0 <= i < |cs| ensures Replays(db, policy, cs[i]) {
      var input := db.events[cs[i].eventId];
      assert PreparedAs(effective, cs[i], input);
      PrepareIdentity(effective, cs[i], input);
      assert input.revision < l.row.revision;
    }
  }

  lemma ReplaysMakeBatch(policies: Policies, db: Database, policy: CasePolicy, cs: seq<Command>)
    requires cs != [] && OneKey(cs) && DistinctIds(cs) && AllKnown(db, cs)
    requires forall i :: 0 <= i < |cs| ==> Replays(db, policy, cs[i])
    requires cs[0].key in db.ledgers && EffectivePolicy(db.ledgers[cs[0].key], policy).Ok?
    requires Linked(EffectivePolicy(db.ledgers[cs[0].key], policy).value, None, cs)
    ensures SubmitBatch(policies, db, policy, cs) == Ok((db, Replayed))
  {
    hide Prepare, SubmitBatch, Granted, Linked, DistinctIds, ValidateWorkflow;
    var effective := EffectivePolicy(db.ledgers[cs[0].key], policy).value;
    assert Replays(db, policy, cs[0]);
    SubmitKnownBatch(policies, db, policy, cs);
    ReplaysMatch(db, policy, cs);
  }

  /** A partly recorded batch is always refused. */
  lemma MixedConflicts(policies: Policies, db: Database, policy: CasePolicy, cs: seq<Command>)
    requires !NoneKnown(db, cs) && !AllKnown(db, cs)
    ensures SubmitBatch(policies, db, policy, cs).Err?
  {
    hide Prepare, PrepareAll, Commit, CommitAll, Granted, EventMap, BatchShape, ValidateWorkflow;
    if cs[0].key in db.ledgers && EffectivePolicy(db.ledgers[cs[0].key], policy).Ok? {
      var effective := EffectivePolicy(db.ledgers[cs[0].key], policy).value;
      if PrepareAll(effective, None, cs).Ok? {
        PreparedIds(effective, cs, PrepareAll(effective, None, cs).value);
      }
    }
  }

  // ---- the refinement ----

  /** A fresh batch and its fresh sequence end in the same database whenever they end in the same ledger. */
  lemma {:induction false} FreshAgree(policies: Policies, db: Database, policy: CasePolicy, cs: seq<Command>)
    requires cs != [] && NoneKnown(db, cs) && !ResumesEarly(cs)
    requires SubmitBatch(policies, db, policy, cs).Ok? && SubmitSequence(policies, db, policy, cs).Ok?
    ensures SubmitSequence(policies, db, policy, cs) == Ok(SubmitBatch(policies, db, policy, cs).value.0)
  {
    hide Prepare, PrepareAll, ApplyBatch, ApplySequence, SubmitSequence, Granted, EventMap, ValidateWorkflow, Transact,
         ResumesEarly, Recorded, EffectivePolicy;
    var key := cs[0].key;
    SubmitFreshBatch(policies, db, policy, cs);
    SubmitFreshSequence(policies, db, policy, key, cs);
    SubmitFreshEvents(policies, db, policy, key, cs);
    var effective := EffectivePolicy(db.ledgers[key], policy).value;
    RecordedIsEventMap(effective, cs, PrepareAll(effective, None, cs).value);
    LedgersAgree(policies, db.ledgers[key], policy, cs);
  }

  lemma LedgersAgree(policies: Policies, l: Ledger, policy: CasePolicy, cs: seq<Command>)
    requires cs != [] && OneKey(cs) && !ResumesEarly(cs)
    ensures ApplySequence(policies, l, policy, cs).Ok? ==>
              ApplyBatch(policies, l, policy, cs) == ApplySequence(policies, l, policy, cs)
    ensures ApplyBatch(policies, l, policy, cs).Ok? ==>
              (ApplySequence(policies, l, policy, cs).Ok? <==> !ExtendsEarly(cs))
  {
    hide ApplyBatch, ApplySequence;
    BatchRefinesSequence(policies, l, policy, cs);
  }

  /** An accepted batch is its sequence, database and recorded events included, if and only if it only
      replays or extends no budget before its last command. */
  lemma {:induction false} AcceptedBatch(policies: Policies, db: Database, policy: CasePolicy, cs: seq<Command>)
    requires Consistent(db) && !ResumesEarly(cs) && SubmitBatch(policies, db, policy, cs).Ok?
    ensures SubmitSequence(policies, db, policy, cs) == Ok(SubmitBatch(policies, db, policy, cs).value.0) <==>
            AllKnown(db, cs) || !ExtendsEarly(cs)
    ensures !(AllKnown(db, cs) || !ExtendsEarly(cs)) ==> SubmitSequence(policies, db, policy, cs).Err?
  {
    hide Prepare, PrepareAll, ApplyBatch, ApplySequence, SubmitSequence, Granted, EventMap, ValidateWorkflow, Transact,
         ResumesEarly, EffectivePolicy, ExtendsEarly, Consistent;
    if !NoneKnown(db, cs) && !AllKnown(db, cs) {
      MixedConflicts(policies, db, policy, cs);
    } else if AllKnown(db, cs) {
      KnownBatchReplays(policies, db, policy, cs);
      KnownSequence(policies, db, policy, cs);
      KnownReplayed(policies, db, policy, cs);
    } else {
      var key := cs[0].key;
      SubmitFreshBatch(policies, db, policy, cs);
      SubmitFreshSequence(policies, db, policy, key, cs);
      LedgersAgree(policies, db.ledgers[key], policy, cs);
      if SubmitSequence(policies, db, policy, cs).Ok? {
        FreshAgree(policies, db, policy, cs);
      }
    }
  }

  lemma KnownReplayed(policies: Policies, db: Database, policy: CasePolicy, cs: seq<Command>)
    requires AllKnown(db, cs) && SubmitBatch(policies, db, policy, cs).Ok?
    ensures SubmitBatch(policies, db, policy, cs).value == (db, Replayed)
  {
    hide Prepare, PrepareAll, Granted, EventMap, ValidateWorkflow, Transact, Linked, Matching;
    SubmitKnownBatch(policies, db, policy, cs);
  }

  /** What a caller must check for the batch to be its accepted sequence: one case, distinct ids, and
      ids all new, or all known with each command consecutive to the recorded transition before it. */
  predicate Batchable(db: Database, cs: seq<Command>) {
    OneKey(cs) && DistinctIds(cs) &&
    (NoneKnown(db, cs) ||
     (AllKnown(db, cs) && forall i :: 0 < i < |cs| ==> Consecutive(db.events[cs[i - 1].eventId], cs[i])))
  }

  /** Commands that prepare their recorded inputs are linked exactly when the recorded inputs are consecutive. */
  lemma {:induction false} LinkedOnRecord(
    db: Database, policy: CasePolicy, previous: Option<TransitionInput>, cs: seq<Command>)
    requires AllKnown(db, cs) && Matching(db, policy, cs)
    ensures Linked(policy, previous, cs) <==>
            (cs != [] && previous.Some? ==> Consecutive(previous.value, cs[0])) &&
            forall i :: 0 < i < |cs| ==> Consecutive(db.events[cs[i - 1].eventId], cs[i])
    decreases |cs|
  {
    hide Prepare, ValidateShape, Consecutive;
    if cs == [] {
    } else {
      var rest := cs[1..];
      assert forall i :: 0 <= i < |rest| ==> rest[i] == cs[i + 1];
      assert PreparedAs(policy, cs[0], db.events[cs[0].eventId]);
      LinkedOnRecord(db, policy, Some(db.events[cs[0].eventId]), rest);
      if forall i :: 0 < i < |rest| ==> Consecutive(db.events[rest[i - 1].eventId], rest[i]) {
        forall i | 1 < i < |cs| ensures Consecutive(db.events[cs[i - 1].eventId], cs[i]) {
          assert Consecutive(db.events[rest[i - 2].eventId], rest[i - 1]);
        }
      }
      if forall i :: 0 < i < |cs| ==> Consecutive(db.events[cs[i - 1].eventId], cs[i]) {
        forall i | 0 < i < |rest| ensures Consecutive(db.events[rest[i - 1].eventId], rest[i]) {
          assert Consecutive(db.events[cs[i].eventId], cs[i + 1]);
        }
      }
    }
  }

  /** A sequence that succeeds is its batch if and only if the caller's conditions hold. */
  lemma {:induction false} AcceptedSequence(policies: Policies, db: Database, policy: CasePolicy, cs: seq<Command>)
    requires cs != [] && !ResumesEarly(cs) && SubmitSequence(policies, db, policy, cs).Ok?
    ensures
      var r := SubmitBatch(policies, db, policy, cs);
      (r.Ok? && r.value.0 == SubmitSequence(policies, db, policy, cs).value <==> Batchable(db, cs)) &&
      (r.Ok? <==> Batchable(db, cs))
  {
    hide Prepare, PrepareAll, ApplyBatch, ApplySequence, SubmitSequence, Granted, EventMap, ValidateWorkflow, Transact,
         ResumesEarly, EffectivePolicy, ExtendsEarly, Linked, Replays;
    FirstAccepted(policies, db, policy, cs);
    if !NoneKnown(db, cs) && !AllKnown(db, cs) {
      MixedConflicts(policies, db, policy, cs);
    } else if NoneKnown(db, cs) {
      var key := cs[0].key;
      SubmitFreshBatch(policies, db, policy, cs);
      if OneKey(cs) && DistinctIds(cs) {
        SubmitFreshSequence(policies, db, policy, key, cs);
        LedgersAgree(policies, db.ledgers[key], policy, cs);
        FreshAgree(policies, db, policy, cs);
      }
    } else {
      KnownSequence(policies, db, policy, cs);
      ReplayHasLedger(db, policy, cs[0]);
      SubmitKnownBatch(policies, db, policy, cs);
      if OneKey(cs) {
        ReplaysMatch(db, policy, cs);
        LinkedOnRecord(db, EffectivePolicy(db.ledgers[cs[0].key], policy).value, None, cs);
      }
      if Batchable(db, cs) {
        ReplaysMakeBatch(policies, db, policy, cs);
      }
    }
  }

  lemma ReplaysMatch(db: Database, policy: CasePolicy, cs: seq<Command>)
    requires cs != [] && OneKey(cs) && AllKnown(db, cs) && forall i :: 0 <= i < |cs| ==> Replays(db, policy, cs[i])
    requires cs[0].key in db.ledgers && EffectivePolicy(db.ledgers[cs[0].key], policy).Ok?
    ensures Matching(db, EffectivePolicy(db.ledgers[cs[0].key], policy).value, cs)
  {
    hide Prepare, Granted, ValidateWorkflow;
    forall i | 0 <= i < |cs|
      ensures PreparedAs(EffectivePolicy(db.ledgers[cs[0].key], policy).value, cs[i], db.events[cs[i].eventId])
    {
      assert Replays(db, policy, cs[i]);
    }
  }

  lemma ReplayHasLedger(db: Database, policy: CasePolicy, c: Command)
    requires Replays(db, policy, c)
    ensures c.key in db.ledgers && EffectivePolicy(db.ledgers[c.key], policy).Ok?
  {
  }

  lemma FirstAccepted(policies: Policies, db: Database, policy: CasePolicy, cs: seq<Command>)
    requires cs != [] && SubmitSequence(policies, db, policy, cs).Ok?
    ensures cs[0].key in db.ledgers
  {
    hide Transact, PrepareAll, EffectivePolicy, ValidateWorkflow;
  }

  // ---- what every submission keeps ----

  /** New ids commit: one record per command, the revision raised by the length, no other case touched.
      Known ids replay: nothing changes. */
  lemma {:induction false} SubmitGrows(policies: Policies, db: Database, policy: CasePolicy, cs: seq<Command>)
    requires SubmitBatch(policies, db, policy, cs).Ok?
    ensures cs != [] && cs[0].key in db.ledgers
    ensures
      var (db', how) := SubmitBatch(policies, db, policy, cs).value;
      var key := cs[0].key;
      (how.Committed? <==> NoneKnown(db, cs)) && (how.Replayed? <==> AllKnown(db, cs)) &&
      (how.Replayed? ==> db' == db) &&
      (how.Committed? ==>
         key in db'.ledgers && db' == Database(db.ledgers[key := db'.ledgers[key]], db'.events) &&
         db'.ledgers[key].row.revision == db.ledgers[key].row.revision + |cs| &&
         |db'.ledgers[key].history| == |db.ledgers[key].history| + |cs| &&
         db.ledgers[key].history <= db'.ledgers[key].history)
  {
    hide Prepare, PrepareAll, ApplyBatch, Granted, EventMap, ValidateWorkflow, Transact, EffectivePolicy;
    if !NoneKnown(db, cs) && !AllKnown(db, cs) {
      MixedConflicts(policies, db, policy, cs);
    } else if AllKnown(db, cs) {
      assert cs[0].eventId in db.events;
      KnownReplayed(policies, db, policy, cs);
    } else {
      SubmitFreshBatch(policies, db, policy, cs);
      BatchGrows(policies, db.ledgers[cs[0].key], policy, cs);
    }
  }

  lemma {:induction false} CommitRevisions(policies: Policies, l: Ledger, inputs: seq<TransitionInput>, i: nat)
    requires CommitAll(policies, l, inputs).Ok? && i < |inputs|
    ensures inputs[i].revision == l.row.revision + i
    decreases |inputs|
  {
    hide StoreRule;
    if i == 0 {
    } else {
      CommitRevisions(policies, Commit(policies, l, inputs[0]).value, inputs[1..], i - 1);
    }
  }

  /** A recorded event stays below the revision of its case. */
  lemma {:induction false} ConsistentKept(policies: Policies, db: Database, policy: CasePolicy, cs: seq<Command>)
    requires Consistent(db) && SubmitBatch(policies, db, policy, cs).Ok?
    ensures Consistent(SubmitBatch(policies, db, policy, cs).value.0)
  {
    hide Prepare, PrepareAll, ApplyBatch, Granted, EventMap, ValidateWorkflow, Transact, EffectivePolicy, CommitAll;
    SubmitGrows(policies, db, policy, cs);
    var (db', how) := SubmitBatch(policies, db, policy, cs).value;
    if how.Committed? {
      var key, l := cs[0].key, db.ledgers[cs[0].key];
      SubmitFreshBatch(policies, db, policy, cs);
      var inputs := PrepareAll(EffectivePolicy(l, policy).value, None, cs).value;
      PreparedIds(EffectivePolicy(l, policy).value, cs, inputs);
      forall id | id in db'.events
        ensures db'.events[id].key in db'.ledgers &&
                db'.events[id].revision < db'.ledgers[db'.events[id].key].row.revision
      {
        if id in EventMap(inputs) {
          RecordedInput(policies, l, policy, cs, inputs, id);
        }
      }
    }
  }

  lemma {:induction false} RecordedInput(
    policies: Policies, l: Ledger, policy: CasePolicy, cs: seq<Command>, inputs: seq<TransitionInput>, id: EventId)
    requires ApplyBatch(policies, l, policy, cs).Ok? && EffectivePolicy(l, policy).Ok? && OneKey(cs) && DistinctIds(cs)
    requires PrepareAll(EffectivePolicy(l, policy).value, None, cs) == Ok(inputs) && id in EventMap(inputs)
    ensures EventMap(inputs)[id].key == cs[0].key && EventMap(inputs)[id].revision < l.row.revision + |cs|
  {
    hide Prepare, PrepareAll, Granted, ValidateWorkflow, CommitAll, EventMap;
    PreparedIds(EffectivePolicy(l, policy).value, cs, inputs);
    forall i, j | 0 <= i < j < |inputs| ensures inputs[i].eventId != inputs[j].eventId {
      assert cs[i].eventId != cs[j].eventId;
    }
    EventMapHolds(inputs, id);
    var i :| 0 <= i < |inputs| && inputs[i].eventId == id;
    CommitRevisions(policies, l, inputs, i);
  }

  // ---- a partly recorded batch ----

  /** A committed command replays, unless it was a resume. */
  lemma CommittedReplays(policies: Policies, db: Database, policy: CasePolicy, c: Command)
    requires c.eventId !in db.events && !c.event.HumanResumed? && SubmitBatch(policies, db, policy, [c]).Ok?
    ensures Replays(SubmitBatch(policies, db, policy, [c]).value.0, policy, c)
  {
    hide Prepare, Commit, Granted, Transact, PrepareAll, StoreRule;
    assert c.key in db.ledgers;
    SubmitFresh(policies, db, policy, c);
    var l := db.ledgers[c.key];
    var effective := EffectivePolicy(l, policy).value;
    var input := Prepare(effective, c).value;
    PrepareIdentity(effective, c, input);
    var l' := Apply(policies, l, policy, c).value;
    CommitKeepsBudget(policies, l, input, policy);
    assert l'.row.revision == c.revision + 1 by { CommitMoves(policies, l, input); }
  }

  lemma CommitMoves(policies: Policies, l: Ledger, input: TransitionInput)
    requires Commit(policies, l, input).Ok?
    ensures Commit(policies, l, input).value.row.revision == input.revision + 1
  {
  }

  /** One by one a recorded command replays and the next one commits; together they conflict. */
  lemma {:induction false} PartlyRecordedConflicts(
    policies: Policies, db: Database, policy: CasePolicy, a: Command, b: Command)
    requires a.eventId !in db.events && !a.event.HumanResumed? && SubmitBatch(policies, db, policy, [a]).Ok?
    requires
      var recorded := SubmitBatch(policies, db, policy, [a]).value.0;
      b.eventId !in recorded.events && SubmitBatch(policies, recorded, policy, [b]).Ok?
    ensures
      var recorded := SubmitBatch(policies, db, policy, [a]).value.0;
      SubmitSequence(policies, recorded, policy, [a, b]).Ok? && SubmitBatch(policies, recorded, policy, [a, b]).Err?
  {
    hide SubmitBatch, Replays;
    var recorded := SubmitBatch(policies, db, policy, [a]).value.0;
    CommittedReplays(policies, db, policy, a);
    ReplayIsKnown(recorded, policy, a);
    SubmitKnown(policies, recorded, policy, a);
    assert [a, b][1..] == [b] && [b][1..] == [];
    var committed := SubmitBatch(policies, recorded, policy, [b]).value.0;
    assert SubmitSequence(policies, committed, policy, []) == Ok(committed);
    assert SubmitSequence(policies, recorded, policy, [b]) == Ok(committed);
    var cs := [a, b];
    assert cs[0].eventId in recorded.events && cs[1].eventId !in recorded.events;
    MixedConflicts(policies, recorded, policy, cs);
  }

  lemma ReplayIsKnown(db: Database, policy: CasePolicy, c: Command)
    requires Replays(db, policy, c)
    ensures c.eventId in db.events
  {
  }
}
