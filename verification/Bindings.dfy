/** Completing a worker's result from its job: `fill_binding` and `validate_binding` of
    crates/pip-contracts/src/lib.rs. */
module Bindings {
  import opened Prelude
  import opened Contracts
  import PublicationText

  datatype CaseIdentity = CaseIdentity(repository: nat, issue: nat, workflow: nat)

  datatype Binding = Binding(
    case_: CaseIdentity, task: string, role: WorkerRole, reviewer: Option<string>, mode: Option<ReviewMode>,
    model: string, skills: string, plan: nat, pr: Option<nat>, head: Option<string>)

  /** The field names of a result; every name the controller does not own is the worker's. */
  datatype Key =
    | ContractVersion | WorkflowVersion | CaseField | TaskId | Role | RequestedModel | ActualModel | SkillsCommit
    | PlanVersion | EvidenceField | PrNumber | ReviewedHead | ReviewerField | BuildRound | ReviewRound
    | FinalReviewRound | StartedAt | CompletedAt | Worker(name: string)

  datatype Json =
    | Number(number: nat) | Text(text: string) | CaseOf(identity: CaseIdentity) | RoleOf(role: WorkerRole)
    | Other(tag: nat)

  type Fields = map<Key, Json>

  /** `rounds` holds the rounds of the frozen task body. */
  datatype Fill = Fill(binding: Binding, rounds: map<Key, nat>, runTimes: Option<(nat, nat)>, now: nat,
                       headFromBinding: bool)

  const CONTRACT_VERSION: nat := 2

  datatype ContractError =
    | RoleMismatch | UnsupportedContractVersion | InvalidIdentity | WorkflowVersionMismatch
    | EmptyRequiredField | InvalidCommit | InvalidTimestampOrder | BindingMismatch

  predicate Reviewed(role: WorkerRole) { role.ReviewerGeneral? || role.ReviewerSecperf? || role.FinalReviewer? }

  function RoundKey(role: WorkerRole): Option<Key> {
    match role
    case Planner => None
    case Builder => Some(BuildRound)
    case ReviewerGeneral => Some(ReviewRound)
    case ReviewerSecperf => Some(ReviewRound)
    case FinalReviewer => Some(FinalReviewRound)
  }

  function Time(fields: Fields, key: Key): Option<nat> {
    if key in fields && fields[key].Number? then Some(fields[key].number) else None
  }

  /** The worker's completion time if it lies in the past, otherwise the observation time. */
  function CompletedTime(fields: Fields, fill: Fill): nat {
    if fill.runTimes.Some? then fill.runTimes.value.1
    else
      var t := Time(fields, CompletedAt);
      if t.Some? && 0 < t.value <= fill.now then t.value else fill.now
  }

  function StartedTime(fields: Fields, fill: Fill): nat {
    if fill.runTimes.Some? then fill.runTimes.value.0
    else
      var t, completed := Time(fields, StartedAt), CompletedTime(fields, fill);
      if t.Some? && 0 < t.value <= completed then t.value else completed
  }

  /** What the controller puts into a field, if it owns it for this job. */
  function Owned(fields: Fields, fill: Fill, key: Key): Option<Json> {
    var b := fill.binding;
    match key
    case ContractVersion => Some(Number(CONTRACT_VERSION))
    case WorkflowVersion => Some(Number(b.case_.workflow))
    case CaseField => Some(CaseOf(b.case_))
    case TaskId => Some(Text(b.task))
    case Role => Some(RoleOf(b.role))
    case RequestedModel => Some(Text(b.model))
    case ActualModel => Some(Text(b.model))
    case SkillsCommit => Some(Text(b.skills))
    case PlanVersion => Some(Number(b.plan))
    case EvidenceField => if EvidenceField in fields then None else Some(Other(0))
    case PrNumber => if Reviewed(b.role) && b.pr.Some? then Some(Number(b.pr.value)) else None
    case ReviewedHead =>
      if Reviewed(b.role) && fill.headFromBinding && b.head.Some? then Some(Text(b.head.value)) else None
    case ReviewerField => if b.reviewer.Some? then Some(Text(b.reviewer.value)) else None
    case StartedAt => Some(Number(StartedTime(fields, fill)))
    case CompletedAt => Some(Number(CompletedTime(fields, fill)))
    case BuildRound | ReviewRound | FinalReviewRound =>
      if RoundKey(b.role) == Some(key) && key in fill.rounds then Some(Number(fill.rounds[key])) else None
    case Worker(_) => None
  }

  /** The filled object, field by field: controller-owned fields are overwritten, all others kept. */
  ghost predicate IsFilled(before: Fields, fill: Fill, after: Fields) {
    forall key: Key :: Holds(after, key) == OwnedOrKept(before, fill, key)
  }

  function OwnedOrKept(before: Fields, fill: Fill, key: Key): Option<Json> {
    if Owned(before, fill, key).Some? then Owned(before, fill, key) else Holds(before, key)
  }

  function Holds(fields: Fields, key: Key): Option<Json> { if key in fields then Some(fields[key]) else None }

  // ---- fill_binding ----

  /** The order in which the fields are filled. */
  function Rank(key: Key): nat {
    match key
    case ContractVersion => 0
    case WorkflowVersion => 1
    case CaseField => 2
    case TaskId => 3
    case Role => 4
    case RequestedModel => 5
    case ActualModel => 6
    case SkillsCommit => 7
    case PlanVersion => 8
    case EvidenceField => 9
    case PrNumber => 10
    case ReviewedHead => 11
    case ReviewerField => 12
    case BuildRound => 13
    case ReviewRound => 13
    case FinalReviewRound => 13
    case StartedAt => 14
    case CompletedAt => 15
    case Worker(_) => 16
  }

  /** The fields before a rank are filled, the others still as they were. */
  ghost predicate Filling(before: Fields, fill: Fill, rank: nat, now: Fields) {
    forall key: Key :: Holds(now, key) == Progress(before, fill, rank, key)
  }

  function Progress(before: Fields, fill: Fill, rank: nat, key: Key): Option<Json> {
    if Rank(key) < rank && Owned(before, fill, key).Some? then Owned(before, fill, key) else Holds(before, key)
  }

  class Document {
    /** None when the value is not an object. */
    var fields: Option<Fields>

    constructor (fields: Option<Fields>)
      ensures this.fields == fields
    {
      this.fields := fields;
    }

    method Insert(key: Key, value: Json, ghost before: Fields, ghost fill: Fill)
      requires fields.Some? && Filling(before, fill, Rank(key), fields.value) && Owned(before, fill, key) == Some(value)
      requires Rank(key) != 13 && Rank(key) < 16
      modifies this
      ensures fields.Some? && Filling(before, fill, Rank(key) + 1, fields.value)
    {
      Fills(key, value, before, fill, fields.value);
      fields := Some(fields.value[key := value]);
    }

    method InsertCommon(fill: Fill, ghost before: Fields)
      requires fields == Some(before)
      modifies this
      ensures fields.Some? && Filling(before, fill, 10, fields.value)
    {
      var b := fill.binding;
      assert Filling(before, fill, 0, fields.value);
      hide Filling;
      Insert(ContractVersion, Number(CONTRACT_VERSION), before, fill);
      Insert(WorkflowVersion, Number(b.case_.workflow), before, fill);
      Insert(CaseField, CaseOf(b.case_), before, fill);
      Insert(TaskId, Text(b.task), before, fill);
      InsertIdentity(fill, before);
    }

    method InsertIdentity(fill: Fill, ghost before: Fields)
      requires fields.Some? && Filling(before, fill, 4, fields.value)
      modifies this
      ensures fields.Some? && Filling(before, fill, 10, fields.value)
    {
      hide Filling;
      var b := fill.binding;
      Insert(Role, RoleOf(b.role), before, fill);
      Insert(RequestedModel, Text(b.model), before, fill);
      Insert(ActualModel, Text(b.model), before, fill);
      Insert(SkillsCommit, Text(b.skills), before, fill);
      Insert(PlanVersion, Number(b.plan), before, fill);
      EvidenceKept(before, fill, fields.value);
      if EvidenceField !in fields.value {
        Insert(EvidenceField, Other(0), before, fill);
      } else {
        Skip(EvidenceField, before, fill, fields.value);
      }
    }

    method InsertReview(fill: Fill, ghost before: Fields)
      requires fields.Some? && Filling(before, fill, 10, fields.value)
      modifies this
      ensures fields.Some? && Filling(before, fill, 14, fields.value)
    {
      hide Filling;
      var b := fill.binding;
      if Reviewed(b.role) && b.pr.Some? {
        Insert(PrNumber, Number(b.pr.value), before, fill);
      } else {
        Skip(PrNumber, before, fill, fields.value);
      }
      if Reviewed(b.role) && fill.headFromBinding && b.head.Some? {
        Insert(ReviewedHead, Text(b.head.value), before, fill);
      } else {
        Skip(ReviewedHead, before, fill, fields.value);
      }
      if b.reviewer.Some? {
        Insert(ReviewerField, Text(b.reviewer.value), before, fill);
      } else {
        Skip(ReviewerField, before, fill, fields.value);
      }
      InsertRound(fill, before);
    }

    method InsertRound(fill: Fill, ghost before: Fields)
      requires fields.Some? && Filling(before, fill, 13, fields.value)
      modifies this
      ensures fields.Some? && Filling(before, fill, 14, fields.value)
    {
      var round := RoundKey(fill.binding.role);
      RoundFills(before, fill, fields.value);
      if round.Some? && round.value in fill.rounds {
        fields := Some(fields.value[round.value := Number(fill.rounds[round.value])]);
      }
    }

    method FillBinding(fill: Fill) returns (error: Option<ContractError>)
      modifies this
      ensures error == if old(fields).None? then Some(RoleMismatch) else None
      ensures old(fields).None? ==> fields.None?
      ensures old(fields).Some? ==> fields.Some? && IsFilled(old(fields).value, fill, fields.value)
    {
      hide Filling, StartedTime, CompletedTime, IsFilled;
      if fields.None? {
        return Some(RoleMismatch);
      }
      ghost var before := fields.value;
      InsertCommon(fill, before);
      InsertReview(fill, before);
      TimesKept(before, fill, fields.value);
      var started, completed := StartedTime(fields.value, fill), CompletedTime(fields.value, fill);
      Insert(StartedAt, Number(started), before, fill);
      Insert(CompletedAt, Number(completed), before, fill);
      AllFilled(before, fill, fields.value);
      return None;
    }
  }

  lemma OneRank(a: Key, b: Key)
    requires Rank(a) == Rank(b) && Rank(a) != 13 && Rank(a) < 16
    ensures a == b
  {
  }

  lemma Fills(key: Key, value: Json, before: Fields, fill: Fill, now: Fields)
    requires Filling(before, fill, Rank(key), now) && Owned(before, fill, key) == Some(value) && Rank(key) != 13 &&
             Rank(key) < 16
    ensures Filling(before, fill, Rank(key) + 1, now[key := value])
  {
    hide Owned;
    var after, next := now[key := value], Rank(key) + 1;
    forall other: Key ensures Holds(after, other) == Progress(before, fill, next, other) {
      assert Holds(now, other) == Progress(before, fill, Rank(key), other);
      if Rank(other) == Rank(key) { OneRank(other, key); }
    }
  }

  lemma RoundFills(before: Fields, fill: Fill, now: Fields)
    requires Filling(before, fill, 13, now)
    ensures
      var round := RoundKey(fill.binding.role);
      Filling(before, fill, 14, if round.Some? &&
              round.value in fill.rounds then now[round.value := Number(fill.rounds[round.value])] else now)
  {
    var round := RoundKey(fill.binding.role);
    var after := if round.Some? &&
    round.value in fill.rounds then now[round.value := Number(fill.rounds[round.value])] else now;
    forall other: Key ensures Holds(after, other) == Progress(before, fill, 14, other) {
      assert Holds(now, other) == Progress(before, fill, 13, other);
    }
  }

  lemma Skip(key: Key, before: Fields, fill: Fill, now: Fields)
    requires Filling(before, fill, Rank(key), now) && Owned(before, fill, key).None? && Rank(key) != 13 &&
             Rank(key) < 16
    ensures Filling(before, fill, Rank(key) + 1, now)
  {
  }

  lemma EvidenceKept(before: Fields, fill: Fill, now: Fields)
    requires Filling(before, fill, 9, now)
    ensures EvidenceField in now <==> EvidenceField in before
  {
    assert Holds(now, EvidenceField) == Progress(before, fill, 9, EvidenceField);
  }

  /** The worker's times are read before they are overwritten. */
  lemma TimesKept(before: Fields, fill: Fill, now: Fields)
    requires Filling(before, fill, 14, now)
    ensures StartedTime(now, fill) == StartedTime(before, fill) &&
            CompletedTime(now, fill) == CompletedTime(before, fill)
  {
    assert Holds(now, StartedAt) == Progress(before, fill, 14, StartedAt);
    assert Holds(now, CompletedAt) == Progress(before, fill, 14, CompletedAt);
  }

  lemma AllFilled(before: Fields, fill: Fill, now: Fields)
    requires Filling(before, fill, 16, now)
    ensures IsFilled(before, fill, now)
  {
  }

  // ---- what the filled object means ----

  /** The fields of a decoded result that validation compares with the job. */
  datatype Decoded = Decoded(
    version: nat, workflow: nat, case_: CaseIdentity, task: string, role: WorkerRole, requested: string, actual: string,
    skills: string, plan: nat, pr: Option<nat>, head: Option<string>, reviewer: Option<string>,
    started: nat, completed: nat)

  function NumberIn(fields: Fields, key: Key): Option<nat> { Time(fields, key) }

  function TextIn(fields: Fields, key: Key): Option<string> {
    if key in fields && fields[key].Text? then Some(fields[key].text) else None
  }

  predicate CommonDecodes(fields: Fields) {
    NumberIn(fields, ContractVersion).Some? && NumberIn(fields, WorkflowVersion).Some? &&
    NumberIn(fields, PlanVersion).Some? &&
    NumberIn(fields, StartedAt).Some? && NumberIn(fields, CompletedAt).Some? &&
    TextIn(fields, TaskId).Some? && TextIn(fields, RequestedModel).Some? && TextIn(fields, ActualModel).Some? &&
    TextIn(fields, SkillsCommit).Some? && EvidenceField in fields &&
    CaseField in fields && fields[CaseField].CaseOf? && Role in fields && fields[Role].RoleOf?
  }

  /** Results decode by their declared role; the fields of the worker's own report are not modelled. */
  function Decode(fields: Fields): Option<Decoded> {
    if !CommonDecodes(fields) then None
    else
      var role := fields[Role].role;
      var pr, head, reviewer := NumberIn(fields, PrNumber), TextIn(fields, ReviewedHead), TextIn(fields, ReviewerField);
      if Reviewed(role) && (pr.None? || head.None?) then None
      else if role.Reviewer() && reviewer.None? then None
      else
        Some(Decoded(NumberIn(fields, ContractVersion).value, NumberIn(fields, WorkflowVersion).value,
                     fields[CaseField].identity,
                     TextIn(fields, TaskId).value, role, TextIn(fields, RequestedModel).value,
                     TextIn(fields, ActualModel).value, TextIn(fields, SkillsCommit).value,
                     NumberIn(fields, PlanVersion).value,
                     if Reviewed(role) then pr else None, if Reviewed(role) then head else None,
                     if role.Reviewer() then reviewer else None,
                     NumberIn(fields, StartedAt).value, NumberIn(fields, CompletedAt).value))
  }

  /** A decoded review names its pull request and head, a reviewer's also its reviewer, and no other result does. */
  lemma DecodedExactly(fields: Fields, d: Decoded)
    requires Decode(fields) == Some(d)
    ensures d.pr.Some? == d.head.Some? == (d.role in {ReviewerGeneral, ReviewerSecperf, FinalReviewer})
    ensures d.reviewer.Some? <==> d.role in {ReviewerGeneral, ReviewerSecperf}
    ensures (d.pr.Some? ==> Holds(fields, PrNumber) == Some(Number(d.pr.value))) &&
            (d.head.Some? ==> Holds(fields, ReviewedHead) == Some(Text(d.head.value))) &&
            (d.reviewer.Some? ==> Holds(fields, ReviewerField) == Some(Text(d.reviewer.value)))
  {
    hide CommonDecodes;
  }

  predicate NotBlank(s: string) { exists i :: 0 <= i < |s| && !PublicationText.Space(s[i]) }

  predicate Hex(s: string, length: nat) {
    |s| == length && forall i :: 0 <= i < |s| ==> '0' <= s[i] <= '9' || 'a' <= s[i] <= 'f'
  }

  /** `CommonResult::validate`, against the declared role itself. */
  function CommonError(d: Decoded): Option<ContractError> {
    if d.version != CONTRACT_VERSION then Some(UnsupportedContractVersion)
    else if d.workflow == 0 || d.case_.repository == 0 || d.case_.issue == 0 || d.case_.workflow == 0 then
      Some(InvalidIdentity)
    else if d.case_.workflow != d.workflow then Some(WorkflowVersionMismatch)
    else if !NotBlank(d.task) || !NotBlank(d.requested) || !NotBlank(d.actual) then Some(EmptyRequiredField)
    else if !Hex(d.skills, 40) then Some(InvalidCommit)
    else if d.completed < d.started then Some(InvalidTimestampOrder)
    else None
  }

  /** The comparison of `validate_binding`. */
  predicate BindingMatches(d: Decoded, b: Binding) {
    d.case_ == b.case_ && d.task == b.task && d.role == b.role && d.reviewer == b.reviewer &&
    b.mode.Some? == d.reviewer.Some? && d.requested == b.model && d.skills == b.skills && d.plan == b.plan &&
    (Reviewed(d.role) ==> (b.pr.Some? ==> d.pr == b.pr) && (b.head.Some? ==> d.head == b.head))
  }

  /** A binding as a valid job carries it. */
  predicate WellFormed(b: Binding) {
    b.reviewer.Some? == b.role.Reviewer() && b.mode.Some? == b.reviewer.Some? &&
    b.case_.repository > 0 && b.case_.issue > 0 && b.case_.workflow > 0 &&
    NotBlank(b.task) && NotBlank(b.model) && Hex(b.skills, 40)
  }

  predicate TimesOrdered(fill: Fill) { fill.runTimes.None? || fill.runTimes.value.0 <= fill.runTimes.value.1 }

  /** The reviewed head is filled, not asked for, or attested correctly by the worker. */
  predicate HeadAgrees(before: Fields, fill: Fill) {
    !Reviewed(fill.binding.role) || fill.binding.head.None? || fill.headFromBinding ||
    TextIn(before, ReviewedHead) == fill.binding.head
  }

  lemma FilledCommon(before: Fields, fill: Fill, after: Fields, d: Decoded)
    requires IsFilled(before, fill, after) && Decode(after) == Some(d)
    ensures d.version == 2 && d.workflow == fill.binding.case_.workflow && d.case_ == fill.binding.case_
    ensures d.task == fill.binding.task && d.role == fill.binding.role && d.plan == fill.binding.plan
    ensures d.requested == d.actual == fill.binding.model && d.skills == fill.binding.skills
    ensures d.started == StartedTime(before, fill) && d.completed == CompletedTime(before, fill)
  {
    hide StartedTime, CompletedTime;
    assert Holds(after, ContractVersion) == Some(Number(CONTRACT_VERSION)) &&
           Holds(after, WorkflowVersion) == Some(Number(fill.binding.case_.workflow));
    assert Holds(after, CaseField) == Some(CaseOf(fill.binding.case_)) &&
           Holds(after, TaskId) == Some(Text(fill.binding.task));
    assert Holds(after, Role) == Some(RoleOf(fill.binding.role)) &&
           Holds(after, PlanVersion) == Some(Number(fill.binding.plan));
    assert Holds(after, RequestedModel) == Holds(after, ActualModel) == Some(Text(fill.binding.model));
    assert Holds(after, SkillsCommit) == Some(Text(fill.binding.skills));
    assert Holds(after, StartedAt) == Some(Number(StartedTime(before, fill))) &&
           Holds(after, CompletedAt) == Some(Number(CompletedTime(before, fill)));
  }

  lemma FilledReview(before: Fields, fill: Fill, after: Fields, d: Decoded)
    requires IsFilled(before, fill, after) && Decode(after) == Some(d) && d.role == fill.binding.role &&
             WellFormed(fill.binding)
    ensures d.reviewer == fill.binding.reviewer
    ensures Reviewed(d.role) && fill.binding.pr.Some? ==> d.pr == fill.binding.pr
    ensures Reviewed(d.role) && fill.binding.head.Some? ==> (d.head == fill.binding.head <==> HeadAgrees(before, fill))
  {
    hide NotBlank, Hex, StartedTime, CompletedTime;
    assert Holds(after, ReviewerField) == OwnedOrKept(before, fill, ReviewerField);
    assert Holds(after, PrNumber) == OwnedOrKept(before, fill, PrNumber);
    assert Holds(after, ReviewedHead) == OwnedOrKept(before, fill, ReviewedHead);
  }

  /** After filling, the only possible binding mismatch is a reviewed head the worker had to attest. */
  lemma OnlyHeadCanMismatch(before: Fields, fill: Fill, after: Fields, d: Decoded)
    requires WellFormed(fill.binding) && IsFilled(before, fill, after) && Decode(after) == Some(d)
    ensures BindingMatches(d, fill.binding) <==> HeadAgrees(before, fill)
  {
    hide IsFilled, Decode, NotBlank, Hex;
    FilledCommon(before, fill, after, d);
    FilledReview(before, fill, after, d);
  }

  /** The common checks pass exactly when measured run times are ordered, and an unmeasured completion lies
      in the past. */
  lemma FilledIsValid(before: Fields, fill: Fill, after: Fields, d: Decoded)
    requires WellFormed(fill.binding) && IsFilled(before, fill, after) && Decode(after) == Some(d)
    ensures CommonError(d) == if TimesOrdered(fill) then None else Some(InvalidTimestampOrder)
    ensures d.started <= d.completed <==> TimesOrdered(fill)
    ensures fill.runTimes.None? ==> d.completed <= fill.now
  {
    hide IsFilled, Decode, NotBlank, Hex;
    FilledCommon(before, fill, after, d);
  }

  /** The round of the frozen task goes into the field of the job's role, and nowhere else. */
  lemma RoundFilled(before: Fields, fill: Fill, after: Fields, key: Key)
    requires IsFilled(before, fill, after) && (key.BuildRound? || key.ReviewRound? || key.FinalReviewRound?)
    ensures
      var mine := match fill.binding.role
        case Planner => false
        case Builder => key.BuildRound?
        case ReviewerGeneral => key.ReviewRound?
        case ReviewerSecperf => key.ReviewRound?
        case FinalReviewer => key.FinalReviewRound?;
      Holds(after, key) == if mine && key in fill.rounds then Some(Number(fill.rounds[key])) else Holds(before, key)
  {
    assert Holds(after, key) == OwnedOrKept(before, fill, key);
  }

  /** A result belongs to one job: bindings that accept it agree in everything validation compares. */
  lemma OneJob(d: Decoded, a: Binding, b: Binding)
    requires BindingMatches(d, a) && BindingMatches(d, b)
    ensures a.case_ == b.case_ && a.task == b.task && a.role == b.role && a.reviewer == b.reviewer
    ensures a.model == b.model && a.skills == b.skills && a.plan == b.plan && a.mode.Some? == b.mode.Some?
    ensures a.role in {ReviewerGeneral, ReviewerSecperf, FinalReviewer} ==>
              (a.pr.Some? && b.pr.Some? ==> a.pr == b.pr) && (a.head.Some? && b.head.Some? ==> a.head == b.head)
  {
  }

  /** What each error of the common checks says about a result. */
  predicate Wrong(d: Decoded, e: ContractError) {
    match e
    case UnsupportedContractVersion => d.version != 2
    case InvalidIdentity => 0 in [d.workflow, d.case_.repository, d.case_.issue, d.case_.workflow]
    case WorkflowVersionMismatch => d.workflow != d.case_.workflow
    case EmptyRequiredField => exists s :: s in [d.task, d.requested, d.actual] && Blank(s)
    case InvalidCommit => |d.skills| != 40 || exists c :: c in d.skills && c !in "0123456789abcdef"
    case InvalidTimestampOrder => d.completed < d.started
    case _ => false
  }

  predicate Blank(s: string) { forall c :: c in s ==> PublicationText.Space(c) }

  lemma HexDigits(c: char)
    ensures c in "0123456789abcdef" <==> '0' <= c <= '9' || 'a' <= c <= 'f'
  {
  }

  /** The common checks pass exactly when nothing is wrong, and an error names something that is. */
  lemma CommonExactly(d: Decoded)
    ensures CommonError(d).None? <==> forall e: ContractError :: !Wrong(d, e)
    ensures CommonError(d).Some? ==> Wrong(d, CommonError(d).value)
  {
    forall s: string ensures Blank(s) <==> !NotBlank(s) {
      if NotBlank(s) {
        var i :| 0 <= i < |s| && !PublicationText.Space(s[i]);
        assert s[i] in s;
      }
    }
    forall c: char ensures c in "0123456789abcdef" <==> '0' <= c <= '9' || 'a' <= c <= 'f' {
      HexDigits(c);
    }
    var ids := [d.workflow, d.case_.repository, d.case_.issue, d.case_.workflow];
    var texts := [d.task, d.requested, d.actual];
    assert ids[0] == d.workflow && ids[1] == d.case_.repository && ids[2] == d.case_.issue &&
           ids[3] == d.case_.workflow;
    assert texts[0] == d.task && texts[1] == d.requested && texts[2] == d.actual;
    if CommonError(d).None? {
      forall e: ContractError ensures !Wrong(d, e) { }
    } else {
      if CommonError(d).value.InvalidCommit? && |d.skills| == 40 {
        var i :| 0 <= i < |d.skills| && !('0' <= d.skills[i] <= '9' || 'a' <= d.skills[i] <= 'f');
        assert d.skills[i] in d.skills;
      }
      assert Wrong(d, CommonError(d).value);
    }
  }

  /** Worker-owned fields, and evidence that is present, are untouched. */
  lemma WorkerFieldsKept(before: Fields, fill: Fill, after: Fields, key: Key)
    requires IsFilled(before, fill, after) && (key.Worker? || (key.EvidenceField? && key in before))
    ensures Holds(after, key) == Holds(before, key)
  {
  }

  /** Filling twice is filling once. */
  lemma FillIdempotent(before: Fields, fill: Fill, after: Fields, twice: Fields)
    requires IsFilled(before, fill, after) && IsFilled(after, fill, twice)
    ensures twice == after
  {
    forall key: Key ensures Holds(twice, key) == Holds(after, key) {
      OwnedAgain(before, fill, after, key);
    }
    SameFields(after, twice);
  }

  lemma SameFields(a: Fields, b: Fields)
    requires forall key: Key :: Holds(a, key) == Holds(b, key)
    ensures a == b
  {
    forall key: Key ensures key in a <==> key in b {
      assert Holds(a, key) == Holds(b, key);
    }
    forall key: Key | key in a ensures a[key] == b[key] {
      assert Holds(a, key) == Holds(b, key);
    }
  }

  /** A field filled once is filled with the same value, or kept, the second time. */
  lemma OwnedAgain(before: Fields, fill: Fill, after: Fields, key: Key)
    requires IsFilled(before, fill, after)
    ensures Owned(after, fill, key).Some? ==> Owned(after, fill, key) == Holds(after, key)
  {
    assert Holds(after, key) == OwnedOrKept(before, fill, key);
    match key {
      case StartedAt => TimesAgain(before, fill, after);
      case CompletedAt => TimesAgain(before, fill, after);
      case EvidenceField =>
      case _ => assert Owned(after, fill, key) == Owned(before, fill, key);
    }
  }

  lemma TimesAgain(before: Fields, fill: Fill, after: Fields)
    requires IsFilled(before, fill, after)
    ensures StartedTime(after, fill) == StartedTime(before, fill) &&
            CompletedTime(after, fill) == CompletedTime(before, fill)
  {
    assert Holds(after, StartedAt) == Some(Number(StartedTime(before, fill)));
    assert Holds(after, CompletedAt) == Some(Number(CompletedTime(before, fill)));
  }

  // ---- measured times that run backwards ----

  /** The bare function keeps measured times as given: a planner or builder result filled with unordered ones
      always decodes, and its times are its one fault. */
  method FillUnordered(before: Fields, fill: Fill) returns (after: Fields, d: Decoded)
    requires WellFormed(fill.binding) && !Reviewed(fill.binding.role) && !TimesOrdered(fill)
    ensures IsFilled(before, fill, after) && Decode(after) == Some(d)
    ensures CommonError(d) == Some(InvalidTimestampOrder) && d.completed < d.started
  {
    hide NotBlank, Hex;
    var document := new Document(Some(before));
    var error := document.FillBinding(fill);
    after := document.fields.value;
    FilledDecodes(before, fill, after);
    d := Decode(after).value;
    FilledIsValid(before, fill, after, d);
  }

  lemma FilledDecodes(before: Fields, fill: Fill, after: Fields)
    requires IsFilled(before, fill, after) && !Reviewed(fill.binding.role)
    ensures Decode(after).Some?
  {
    hide StartedTime, CompletedTime;
    var b := fill.binding;
    assert Holds(after, ContractVersion) == Some(Number(CONTRACT_VERSION)) &&
           Holds(after, WorkflowVersion) == Some(Number(b.case_.workflow));
    assert Holds(after, CaseField) == Some(CaseOf(b.case_)) && Holds(after, TaskId) == Some(Text(b.task));
    assert Holds(after, Role) == Some(RoleOf(b.role)) && Holds(after, PlanVersion) == Some(Number(b.plan));
    assert Holds(after, RequestedModel) == Some(Text(b.model)) && Holds(after, ActualModel) == Some(Text(b.model));
    assert Holds(after, SkillsCommit) == Some(Text(b.skills)) && Holds(after, StartedAt).Some? &&
           Holds(after, CompletedAt).Some?;
    assert Holds(after, StartedAt) == Owned(before, fill, StartedAt) &&
           Holds(after, CompletedAt) == Owned(before, fill, CompletedAt);
    assert Holds(after, EvidenceField).Some?;
  }

  // ---- the fills the code performs ----

  /** Who completes a result: the direct executor with the clock it read before and after the run, a worker
      checking its own result, and the controller observing a native result. */
  datatype Caller =
    | DirectExecutor(before: nat, after: nat)
    | SelfCheck(now: nat)
    | NativeResult(observed: nat)

  function Later(a: nat, b: nat): nat { if a >= b then a else b }

  function FillOf(caller: Caller, binding: Binding, rounds: map<Key, nat>): Fill {
    match caller
    case DirectExecutor(before, after) =>
      var completed := Later(after, before);
      Fill(binding, rounds, Some((before, completed)), completed, !binding.role.Builder?)
    case SelfCheck(now) => Fill(binding, rounds, Some((now, now)), now, !binding.role.Builder?)
    case NativeResult(observed) => Fill(binding, rounds, None, observed, false)
  }

  /** The time a worker reports, if it is a time and not after the latest one it can be; otherwise that one. */
  function Reported(fields: Fields, key: Key, latest: nat): nat {
    if key in fields && fields[key].Number? && 1 <= fields[key].number <= latest then fields[key].number else latest
  }

  /** Whatever clocks and workers say, every result the code fills starts no later than it completes, with the times
      its caller measured or, for a native result, the worker's own where they are possible, and passes the common
      checks. */
  lemma EveryFillIsOrdered(
    caller: Caller, binding: Binding, rounds: map<Key, nat>, before: Fields, after: Fields, d: Decoded)
    requires WellFormed(binding) && IsFilled(before, FillOf(caller, binding, rounds), after) && Decode(after) == Some(d)
    ensures d.started <= d.completed && CommonError(d).None?
    ensures match caller
            case DirectExecutor(start, end) => d.started == start && d.completed == if end > start then end else start
            case SelfCheck(now) => d.started == now == d.completed
            case NativeResult(observed) =>
              d.completed == Reported(before, CompletedAt, observed) &&
              d.started == Reported(before, StartedAt, d.completed)
  {
    hide IsFilled, Decode, NotBlank, Hex;
    var fill := FillOf(caller, binding, rounds);
    FilledIsValid(before, fill, after, d);
    FilledCommon(before, fill, after, d);
  }

  /** Only a native result can mismatch its binding, and only by the reviewed head its worker attests. */
  lemma OnlyNativeHeadsMismatch(
    caller: Caller, binding: Binding, rounds: map<Key, nat>, before: Fields, after: Fields, d: Decoded)
    requires WellFormed(binding) && IsFilled(before, FillOf(caller, binding, rounds), after) && Decode(after) == Some(d)
    ensures !BindingMatches(d, binding) <==>
            caller.NativeResult? && binding.role in {ReviewerGeneral, ReviewerSecperf, FinalReviewer} &&
            binding.head.Some? && Holds(before, ReviewedHead) != Some(Text(binding.head.value))
  {
    hide IsFilled, Decode, NotBlank, Hex;
    OnlyHeadCanMismatch(before, FillOf(caller, binding, rounds), after, d);
  }
}
