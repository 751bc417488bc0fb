/** What every run keeps: dispatchable data, resumable parking, the generation fence and the loop budget. */
module WorkflowSafety {
  import opened Prelude
  import opened StateMachine
  import opened Ledger
  import opened Workflow

  // ---- dispatchable data ----

  predicate NeedsHead(state: CaseState) {
    (state.WaitingCi? || state.Reviewing? || state.Remediating? || state.FinalReview? || state.ShadowReady? ||
     state.ReadyToMerge? || state.Merging?)
  }

  /** The data a case needs to work in a state. */
  predicate DataPresent(state: CaseState, row: Case) {
    (NeedsHead(state) ==> row.head.Some?) && ((state.ReadyToBuild? || state.Building?) ==> row.plan >= 1)
  }

  /** A parked case was entered by its last record, from a state it can be resumed into. */
  predicate Resumable(l: Ledger) {
    l.history != [] && Last(l.history).Enters(l.row.state) && Last(l.history).previous.Some? &&
    Last(l.history).previous.value !in {Escalated, CaseState.Blocked} &&
    DataPresent(ResumeTarget(Last(l.history)), l.row)
  }

  predicate Dispatchable(l: Ledger) {
    l.row.pr.Some? == l.row.head.Some? && (l.row.head.Some? ==> l.row.plan >= 1) &&
    DataPresent(l.row.state, l.row) && (l.row.state.Parked() ==> Resumable(l))
  }

  /** The callers' guards that keep a parked case resumable. */
  predicate ParkingGuards(l: Ledger, c: Command) {
    ((c.event.OperationalBoundReached? || c.event.BlockedUnexpectedModel?) ==> !l.row.state.Parked()) &&
    (c.event.HumanResumed? ==> ResumeChoice(l, c))
  }

  lemma DataStep(env: Environment, l: Ledger, c: Command, l': Ledger, r: Record)
    requires Appends(env, l, c, l', r) && Projected(l) && Dispatchable(l) && !c.event.HumanResumed?
    ensures l'.row.pr.Some? == l'.row.head.Some? && (l'.row.head.Some? ==> l'.row.plan >= 1) &&
            DataPresent(l'.row.state, l'.row)
  {
    hide Resumable, Emits, Granted;
    assert Last(l'.history) == r;
  }

  lemma ParkStep(env: Environment, l: Ledger, c: Command, l': Ledger, r: Record)
    requires Appends(env, l, c, l', r) && ParkingGuards(l, c) && Projected(l)
    requires Dispatchable(l) && !c.event.HumanResumed? && l'.row.state.Parked()
    ensures Resumable(l')
  {
    hide Emits, Granted;
    assert Last(l'.history) == r;
  }

  lemma DispatchableStep(env: Environment, l: Ledger, c: Command, l': Ledger, r: Record)
    requires Appends(env, l, c, l', r) && ParkingGuards(l, c) && Projected(l)
    requires Dispatchable(l) && !c.event.HumanResumed?
    ensures Dispatchable(l')
  {
    hide Entered, Emits, NextFields, Resumable, Granted;
    DataStep(env, l, c, l', r);
    if l'.row.state.Parked() {
      ParkStep(env, l, c, l', r);
    }
  }

  lemma ResumeStep(env: Environment, l: Ledger, c: Command, l': Ledger, r: Record)
    requires Appends(env, l, c, l', r) && ParkingGuards(l, c) && Projected(l)
    requires Dispatchable(l) && c.event.HumanResumed?
    ensures Dispatchable(l')
    ensures ParkingRecord(l.history, l.row.state) == Some(Last(l.history))
    ensures r.next in {Planning, ResumeTarget(Last(l.history))}
  {
  }

  // ---- the loop budget ----

  /** Entries into REMEDIATING that spend a round: every one but a human resume. */
  function Entries(history: seq<Record>): nat {
    if history == [] then 0
    else
      Entries(history[..|history| - 1])
      + if Last(history).Enters(Remediating) && !Last(history).Is(HumanResumed) then 1 else 0
  }

  predicate RoundsCounted(l: Ledger) { l.row.round == Entries(l.history) }

  /** Policy maximum plus granted rounds. */
  function Budget(env: Environment, l: Ledger): nat
    requires l.row.policyRevision in env.policies
  {
    env.policies[l.row.policyRevision].maxRounds + Granted(l.history)
  }

  lemma BudgetStep(env: Environment, l: Ledger, c: Command, l': Ledger, r: Record)
    requires Appends(env, l, c, l', r) && Projected(l) && RoundsCounted(l)
    ensures RoundsCounted(l')
    ensures Granted(l'.history) == Granted(l.history) + if c.event.HumanResumed? then r.granted else 0
    ensures l.row.round <= Budget(env, l) &&
            env.policies[l'.row.policyRevision].maxRounds >= env.policies[l.row.policyRevision].maxRounds
            ==> l'.row.round <= Budget(env, l')
  {
  }

  /** The case was parked by the loop guard: with a round to spare, the same event would not have escalated. */
  ghost predicate ParkedByLoopGuard(l: Ledger, park: Record) {
    l.row.state.Escalated? && park.previous.Some? && park.kind.Applied? &&
    forall mode, target ::
      var spare := Transition(park.previous.value, park.kind.event, Context(0, 1, mode, target));
      !(spare.Ok? && spare.value.next.Escalated?)
  }

  /** `rounds_exhausted` is exactly the loop guard's parking, and the budget was spent when it parked. */
  lemma ExhaustionStep(env: Environment, l: Ledger, c: Command, l': Ledger, r: Record)
    requires Appends(env, l, c, l', r) && l'.row.state.Escalated?
    ensures RoundsExhausted(r, Escalated) <==> ParkedByLoopGuard(l', r)
    ensures RoundsExhausted(r, Escalated) ==> l.row.round >= Budget(env, l) && l'.row.round == l.row.round
  {
    hide Transition;
    if RoundsExhausted(r, Escalated) {
      forall mode, target
        ensures var spare := Transition(l.row.state, c.event, Context(0, 1, mode, target));
                !(spare.Ok? && spare.value.next.Escalated?)
      {
      }
    } else {
      TransitionExact(l.row.state, c.event, Context(0, 1, Shadow, None), Escalated);
    }
  }

  /** A case the loop guard parked resumes where the same event leads while a round is left; a returned review
      observes CI again first, and a question to the issue creator is planned again. */
  lemma ResumeContinues(state: CaseState, event: Event, ctx: Context, park: Record)
    requires Looping(state, event) && !ctx.Exhausted() && park.kind == Applied(event) && park.previous == Some(state)
    ensures Transition(state, event, ctx).Ok?
    ensures
      var next := Transition(state, event, ctx).value.next;
      ResumeTarget(park) == if next.Reviewing? then WaitingCi else if next.WaitingHuman? then Planning else next
  {
    hide Transition;
    TransitionExact(state, event, ctx, Remediating);
    TransitionExact(state, event, ctx, Reviewing);
    TransitionExact(state, event, ctx, Planning);
    TransitionExact(state, event, ctx, WaitingHuman);
  }
}
