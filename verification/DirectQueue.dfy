/** The direct worker queue of crates/pip-control/src/direct_queue.rs: a controller prepares and
    archives jobs, a pool runs them concurrently, and each side checks slots on its own. */
module DirectQueue {
  import opened Prelude

  type AttemptId = nat

  datatype Work = Work(attempt: AttemptId, builder: bool, workspace: nat, caseKey: nat)

  datatype Capacity = Capacity(builders: nat, reviewers: nat)
  {
    function Limit(builder: bool): nat { if builder then builders else reviewers }
  }

  // ---- slots ----

  function Count(jobs: seq<Work>, builder: bool): nat {
    if jobs == [] then 0
    else
      var rest := Count(jobs[..|jobs| - 1], builder);
      if jobs[|jobs| - 1].builder == builder then rest + 1 else rest
  }

  /** Two jobs that must not run side by side: one workspace, or one case with a builder. */
  predicate Clash(a: Work, b: Work) {
    a.workspace == b.workspace || (a.caseKey == b.caseKey && (a.builder || b.builder))
  }

  predicate SlotAvailable(work: Work, jobs: seq<Work>, cap: Capacity) {
    Count(jobs, work.builder) < cap.Limit(work.builder) && !exists i :: 0 <= i < |jobs| && Clash(jobs[i], work)
  }

  /** Why a job has to wait: its kind is at its limit, its workspace is in use, or its case is being worked on and
      one of the two is a builder. */
  predicate Hindered(work: Work, jobs: seq<Work>, cap: Capacity) {
    (work.builder && Count(jobs, true) >= cap.builders) || (!work.builder && Count(jobs, false) >= cap.reviewers) ||
    exists i :: 0 <= i < |jobs| &&
      (jobs[i].workspace == work.workspace ||
       (jobs[i].caseKey == work.caseKey && (jobs[i].builder || work.builder)))
  }

  /** A slot is available exactly when nothing hinders the job. */
  lemma SlotExactly(work: Work, jobs: seq<Work>, cap: Capacity)
    ensures SlotAvailable(work, jobs, cap) <==> !Hindered(work, jobs, cap)
  {
    if !SlotAvailable(work, jobs, cap) && Count(jobs, work.builder) < cap.Limit(work.builder) {
      var i :| 0 <= i < |jobs| && Clash(jobs[i], work);
      assert jobs[i].workspace == work.workspace || jobs[i].caseKey == work.caseKey;
    }
  }

  /** The jobs respect both limits and every exclusion. */
  predicate Fits(jobs: seq<Work>, cap: Capacity) {
    Count(jobs, true) <= cap.builders && Count(jobs, false) <= cap.reviewers &&
    forall i, j :: 0 <= i < j < |jobs| ==> !Clash(jobs[i], jobs[j])
  }

  lemma CountAppend(jobs: seq<Work>, work: Work, builder: bool)
    ensures Count(jobs + [work], builder) == Count(jobs, builder) + (if work.builder == builder then 1 else 0)
  {
  }

  lemma SlotFits(jobs: seq<Work>, work: Work, cap: Capacity)
    requires Fits(jobs, cap) && SlotAvailable(work, jobs, cap)
    ensures Fits(jobs + [work], cap)
  {
  }

  /** A job without a slot stays without one while more jobs start. */
  lemma NoSlotStays(work: Work, jobs: seq<Work>, more: Work, cap: Capacity)
    requires !SlotAvailable(work, jobs, cap)
    ensures !SlotAvailable(work, jobs + [more], cap)
  {
  }

  lemma {:induction false} CountConcat(a: seq<Work>, b: seq<Work>, builder: bool)
    ensures Count(a + b, builder) == Count(a, builder) + Count(b, builder)
  {
    if b == [] {
      assert a + b == a;
    } else {
      var front, last := b[..|b| - 1], b[|b| - 1];
      assert a + b == (a + front) + [last] && b == front + [last];
      CountConcat(a, front, builder);
      CountAppend(a + front, last, builder);
      CountAppend(front, last, builder);
    }
  }

  lemma RemoveFits(jobs: seq<Work>, k: nat, cap: Capacity)
    requires Fits(jobs, cap) && k < |jobs|
    ensures Fits(jobs[..k] + jobs[k + 1..], cap)
  {
    var rest := jobs[..k] + jobs[k + 1..];
    assert jobs == jobs[..k] + ([jobs[k]] + jobs[k + 1..]);
    forall builder
      ensures Count(rest, builder) <= Count(jobs, builder)
    {
      CountConcat(jobs[..k], jobs[k + 1..], builder);
      CountConcat([jobs[k]], jobs[k + 1..], builder);
      CountConcat(jobs[..k], [jobs[k]] + jobs[k + 1..], builder);
    }
    forall i, j | 0 <= i < j < |rest|
      ensures !Clash(rest[i], rest[j])
    {
      assert rest[i] == jobs[if i < k then i else i + 1] && rest[j] == jobs[if j < k then j else j + 1];
    }
  }

  // ---- the pool ----

  /** A thread runs, has published its result, or ended with an error. */
  datatype Status = Running | Published | Failed

  datatype Thread = Thread(work: Work, status: Status)

  function Works(active: seq<Thread>): seq<Work> { seq(|active|, i requires 0 <= i < |active| => active[i].work) }

  function Attempts(jobs: seq<Work>): set<AttemptId> { set w | w in jobs :: w.attempt }

  /** The threads still running, and the attempts of those that published, in order. */
  function Alive(active: seq<Thread>): seq<Thread> {
    if active == [] then []
    else
      var rest := Alive(active[..|active| - 1]);
      if active[|active| - 1].status.Running? then rest + [active[|active| - 1]] else rest
  }

  function Ended(active: seq<Thread>): seq<AttemptId> {
    if active == [] then []
    else
      var rest := Ended(active[..|active| - 1]);
      if active[|active| - 1].status.Published? then rest + [active[|active| - 1].work.attempt] else rest
  }

  predicate Waiting(work: Work, active: seq<Thread>, results: set<AttemptId>) {
    work.attempt !in results && work.attempt !in Attempts(Works(active))
  }

  /** One pass over the inbox, starting each waiting job that has a slot. */
  function Scanned(active: seq<Thread>, inbox: seq<Work>, results: set<AttemptId>, cap: Capacity): seq<Thread> {
    if inbox == [] then active
    else
      var rest, work := Scanned(active, inbox[..|inbox| - 1], results, cap), inbox[|inbox| - 1];
      if Waiting(work, rest, results) && SlotAvailable(work, Works(rest), cap)
      then rest + [Thread(work, Running)] else rest
  }

  class Pool {
    var active: seq<Thread>
    var finished: seq<AttemptId>

    constructor ()
      ensures active == [] && finished == []
    {
      active, finished := [], [];
    }

    /** Joins every ended thread and keeps the others in order; a failed thread ends the pool. */
    method Reap() returns (ok: bool)
      modifies this
      ensures ok <==> forall t :: t in old(active) ==> !t.status.Failed?
      ensures ok ==> active == Alive(old(active)) && finished == old(finished) + Ended(old(active))
    {
      var threads, joined, index := active, finished, 0;
      ghost var seen, all, before := 0, active, finished;
      ReapNone(all);
      hide Alive, Ended;
      while index < |threads|
        invariant 0 <= seen <= |all| && index == |Alive(all[..seen])|
        invariant threads == Alive(all[..seen]) + all[seen..]
        invariant joined == before + Ended(all[..seen])
        invariant forall k :: 0 <= k < seen ==> !all[k].status.Failed?
        decreases |all| - seen
      {
        ReapOne(all, seen);
        if threads[index].status.Failed? {
          return false;
        }
        if threads[index].status.Published? {
          joined := joined + [threads[index].work.attempt];
          threads := threads[..index] + threads[index + 1..];
        } else {
          index := index + 1;
        }
        seen := seen + 1;
      }
      assert seen == |all| && all[..seen] == all && all[seen..] == [];
      active, finished := threads, joined;
      ok := true;
    }

    method Scan(inbox: seq<Work>, results: set<AttemptId>, cap: Capacity)
      modifies this`active
      ensures active == Scanned(old(active), inbox, results, cap)
      ensures Fits(Works(old(active)), cap) ==> Fits(Works(active), cap)
      ensures old(active) <= active && StartedFrom(old(active), active, inbox, results)
      ensures forall work :: work in inbox ==>
                work.attempt in results || work.attempt in Attempts(Works(active)) ||
                Hindered(work, Works(active), cap)
    {
      ghost var before := active;
      for i := 0 to |inbox|
        invariant active == Scanned(old(active), inbox[..i], results, cap)
      {
        assert inbox[..i + 1][..i] == inbox[..i];
        var work := inbox[i];
        if work.attempt in results || exists t :: t in Works(active) && t.attempt == work.attempt {
          continue;
        }
        if !SlotAvailable(work, Works(active), cap) {
          continue;
        }
        active := active + [Thread(work, Running)];
      }
      assert inbox[..|inbox|] == inbox;
      if Fits(Works(before), cap) {
        ScanFits(before, inbox, results, cap);
      }
      ScanStarts(before, inbox, results, cap);
      forall work | work in inbox && Waiting(work, active, results) ensures Hindered(work, Works(active), cap) {
        ScanConserves(before, inbox, results, cap, work);
      }
    }
  }

  lemma ReapNone(all: seq<Thread>)
    ensures Alive(all[..0]) + all[0..] == all && |Alive(all[..0])| == 0 && Ended(all[..0]) == []
  {
  }

  /** The next thread to look at, and what joining or passing it leaves. */
  lemma ReapOne(all: seq<Thread>, seen: nat)
    requires seen < |all|
    ensures
      var alive, next := Alive(all[..seen]), all[seen];
      (alive + all[seen..])[|alive|] == next && next in all &&
      (if next.status.Running? then
         Alive(all[..seen + 1]) == alive + [next] && alive + all[seen..] == (alive + [next]) + all[seen + 1..]
       else
         Alive(all[..seen + 1]) == alive &&
         (alive + all[seen..])[..|alive|] + (alive + all[seen..])[|alive| + 1..] == alive + all[seen + 1..]) &&
      Ended(all[..seen + 1]) ==
        if next.status.Published? then Ended(all[..seen]) + [next.work.attempt] else Ended(all[..seen])
  {
    assert all[..seen + 1][..seen] == all[..seen];
  }

  lemma WorksAppend(active: seq<Thread>, t: Thread)
    ensures Works(active + [t]) == Works(active) + [t.work]
  {
  }

  lemma {:induction false} ScanFits(active: seq<Thread>, inbox: seq<Work>, results: set<AttemptId>, cap: Capacity)
    requires Fits(Works(active), cap)
    ensures Fits(Works(Scanned(active, inbox, results, cap)), cap)
  {
    if inbox == [] {
    } else {
      var rest, work := Scanned(active, inbox[..|inbox| - 1], results, cap), inbox[|inbox| - 1];
      ScanFits(active, inbox[..|inbox| - 1], results, cap);
      WorksAppend(rest, Thread(work, Running));
      if SlotAvailable(work, Works(rest), cap) {
        SlotFits(Works(rest), work, cap);
      }
    }
  }

  /** The new threads run jobs of the inbox without a result, each attempt once. */
  ghost predicate StartedFrom(before: seq<Thread>, after: seq<Thread>, inbox: seq<Work>, results: set<AttemptId>) {
    forall k :: |before| <= k < |after| ==>
      after[k].status.Running? && after[k].work in inbox && after[k].work.attempt !in results &&
      forall j :: 0 <= j < k ==> after[j].work.attempt != after[k].work.attempt
  }

  lemma {:induction false} ScanStarts(active: seq<Thread>, inbox: seq<Work>, results: set<AttemptId>, cap: Capacity)
    ensures active <= Scanned(active, inbox, results, cap)
    ensures StartedFrom(active, Scanned(active, inbox, results, cap), inbox, results)
  {
    hide SlotAvailable;
    if inbox == [] {
    } else {
      var front, last := inbox[..|inbox| - 1], inbox[|inbox| - 1];
      ScanStarts(active, front, results, cap);
      AttemptsOfThreads(Scanned(active, front, results, cap));
      assert inbox == front + [last];
    }
  }

  /** The pool is work-conserving: after a scan every job still waiting is hindered by the running ones. */
  lemma {:induction false} ScanConserves(
    active: seq<Thread>, inbox: seq<Work>, results: set<AttemptId>, cap: Capacity, work: Work)
    requires work in inbox && Waiting(work, Scanned(active, inbox, results, cap), results)
    ensures Hindered(work, Works(Scanned(active, inbox, results, cap)), cap)
  {
    hide Hindered;
    var front, last := inbox[..|inbox| - 1], inbox[|inbox| - 1];
    var rest := Scanned(active, front, results, cap);
    var started := Scanned(active, inbox, results, cap);
    WorksAppend(rest, Thread(last, Running));
    assert inbox == front + [last];
    if started == rest + [Thread(last, Running)] {
      assert Works(started)[|rest|] == last;
      assert Attempts(Works(rest)) <= Attempts(Works(started));
      assert work != last;
      ScanConserves(active, front, results, cap, work);
      SlotExactly(work, Works(rest), cap);
      NoSlotStays(work, Works(rest), last, cap);
      SlotExactly(work, Works(started), cap);
    } else if work != last {
      ScanConserves(active, front, results, cap, work);
    } else {
      SlotExactly(work, Works(rest), cap);
    }
  }

  // ---- the controller ----

  function Without(inbox: seq<Work>, attempt: AttemptId): seq<Work> {
    if inbox == [] then []
    else
      var rest := Without(inbox[..|inbox| - 1], attempt);
      if inbox[|inbox| - 1].attempt == attempt then rest else rest + [inbox[|inbox| - 1]]
  }

  class Directories {
    var inbox: seq<Work>
    var results: set<AttemptId>
    var archivedInputs: set<AttemptId>
    var archivedResults: set<AttemptId>
    var issued: nat

    constructor ()
      ensures inbox == [] && results == {} && issued == 0 && archivedInputs == {} && archivedResults == {}
    {
      inbox, results, archivedInputs, archivedResults, issued := [], {}, {}, {}, 0;
    }

    /** Hands a claimed job over under a fresh attempt, if its slot is free among the inputs not yet archived. */
    method Prepare(claimed: Option<Work>, capacity: Option<Capacity>) returns (attempt: Option<AttemptId>)
      modifies this`inbox, this`issued
      ensures attempt.Some? <==>
              claimed.Some? &&
              if capacity.None? then old(inbox) == [] else !Hindered(claimed.value, old(inbox), capacity.value)
      ensures attempt.Some? ==> attempt.value == issued == old(issued) + 1 &&
                                inbox == old(inbox) + [claimed.value.(attempt := issued)]
      ensures attempt.None? ==> inbox == old(inbox) && issued == old(issued)
    {
      if capacity.None? && inbox != [] {
        return None;
      }
      if claimed.None? {
        return None;
      }
      if capacity.Some? {
        SlotExactly(claimed.value, inbox, capacity.value);
        if !SlotAvailable(claimed.value, inbox, capacity.value) {
          return None;
        }
      }
      issued := issued + 1;
      inbox := inbox + [claimed.value.(attempt := issued)];
      return Some(issued);
    }

    /** Two renames: the input first, then the result. */
    method Archive(attempt: AttemptId)
      modifies this
      ensures inbox == Without(old(inbox), attempt) && results == old(results) - {attempt} && issued == old(issued)
      ensures archivedInputs == old(archivedInputs) + (if attempt in Attempts(old(inbox)) then {attempt} else {})
      ensures archivedResults == old(archivedResults) + (if attempt in old(results) then {attempt} else {})
    {
      WithoutKeeps(inbox, attempt);
      if exists w :: w in inbox && w.attempt == attempt {
        inbox := Without(inbox, attempt);
        archivedInputs := archivedInputs + {attempt};
      }
      if attempt in results {
        results := results - {attempt};
        archivedResults := archivedResults + {attempt};
      }
    }
  }

  lemma {:induction false} WithoutKeeps(inbox: seq<Work>, attempt: AttemptId)
    ensures forall w :: w in Without(inbox, attempt) <==> w in inbox && w.attempt != attempt
    ensures attempt !in Attempts(inbox) ==> Without(inbox, attempt) == inbox
  {
    if inbox == [] {
    } else {
      var front, last := inbox[..|inbox| - 1], inbox[|inbox| - 1];
      assert inbox == front + [last];
      WithoutKeeps(front, attempt);
      assert Attempts(front) <= Attempts(inbox) && last.attempt in Attempts(inbox);
    }
  }

  // ---- every interleaving ----

  /** Both sides at once. `reading` is the input the pool has read but not yet tested for a result;
      `started` collects every attempt ever executed, `lost` those with an execution that left no result. */
  datatype System = System(
    inbox: seq<Work>, results: set<AttemptId>, active: seq<Thread>, reading: Option<Work>,
    issued: nat, started: set<AttemptId>, lost: set<AttemptId>)

  /** `Fail` ends a thread with an error, with or without its result published; `Stop` ends the pool,
      killed or after a failed thread, and with it every thread still running. */
  datatype Step =
    | Prepare(work: Work) | Read(input: Work) | Skip | Start
    | Finish(thread: nat) | Fail(thread: nat, published: bool) | Join(thread: nat) | Stop
    | ArchiveInput(attempt: AttemptId) | ArchiveResult(attempt: AttemptId)

  function RunningAttempts(active: seq<Thread>): set<AttemptId> {
    set t | t in active && t.status.Running? :: t.work.attempt
  }

  predicate Starts(s: System, cap: Capacity) {
    s.reading.Some? && Waiting(s.reading.value, s.active, s.results) &&
    SlotAvailable(s.reading.value, Works(s.active), cap)
  }

  predicate Next(cap: Capacity, s: System, step: Step, t: System) {
    match step
    case Prepare(work) =>
      work.attempt == s.issued + 1 && SlotAvailable(work, s.inbox, cap) &&
      t == s.(inbox := s.inbox + [work], issued := s.issued + 1)
    case Read(input) => s.reading.None? && input in s.inbox && t == s.(reading := Some(input))
    case Skip => s.reading.Some? && !Starts(s, cap) && t == s.(reading := None)
    case Start =>
      Starts(s, cap) &&
      t == s.(reading := None, active := s.active + [Thread(s.reading.value, Running)],
              started := s.started + {s.reading.value.attempt})
    case Finish(i) =>
      i < |s.active| && s.active[i].status.Running? &&
      t == s.(active := s.active[i := s.active[i].(status := Published)],
              results := s.results + {s.active[i].work.attempt})
    case Fail(i, published) =>
      i < |s.active| && s.active[i].status.Running? &&
      t == s.(active := s.active[i := s.active[i].(status := Failed)],
              results := if published then s.results + {s.active[i].work.attempt} else s.results,
              lost := if published then s.lost else s.lost + {s.active[i].work.attempt})
    case Join(i) =>
      i < |s.active| && s.active[i].status.Published? && s.reading.None? &&
      t == s.(active := s.active[..i] + s.active[i + 1..])
    case Stop => t == s.(active := [], reading := None, lost := s.lost + RunningAttempts(s.active))
    case ArchiveInput(a) =>
      a in s.results && a in Attempts(s.inbox) && t == s.(inbox := Without(s.inbox, a))
    case ArchiveResult(a) =>
      a in s.results && a !in Attempts(s.inbox) && t == s.(results := s.results - {a})
  }

  predicate Initial(s: System) { s == System([], {}, [], None, 0, {}, {}) }

  /** Both sides keep their own jobs within the limits and exclusions. */
  predicate Safe(cap: Capacity, s: System) { Fits(s.inbox, cap) && Fits(Works(s.active), cap) }

  /** What is left of an attempt that no thread runs: its result, a lost execution, or no input any more. */
  predicate Settled(s: System, a: AttemptId) { a in s.results || a !in Attempts(s.inbox) || a in s.lost }

  /** An executed attempt runs or is settled; an attempt loses its input only after execution. */
  predicate Tracked(s: System) {
    (forall a :: a in s.started ==> 1 <= a <= s.issued) &&
    (forall w :: w in s.inbox ==> 1 <= w.attempt <= s.issued) &&
    (s.reading.Some? ==> 1 <= s.reading.value.attempt <= s.issued) &&
    (forall t :: t in s.active ==> t.work.attempt in s.started) &&
    (forall t :: t in s.active && !t.status.Running? ==> Settled(s, t.work.attempt)) &&
    (forall a :: a in s.results ==> a in s.started) &&
    (forall a :: a in s.lost ==> a in s.started) &&
    (forall a :: a in s.started ==> a in Attempts(Works(s.active)) || Settled(s, a)) &&
    (forall a: nat :: 1 <= a <= s.issued ==> a in Attempts(s.inbox) || a in s.started)
  }

  lemma {:induction false} WithoutFits(jobs: seq<Work>, attempt: AttemptId, cap: Capacity)
    requires Fits(jobs, cap)
    ensures Fits(Without(jobs, attempt), cap) && Count(Without(jobs, attempt), true) <= Count(jobs, true)
    ensures Count(Without(jobs, attempt), false) <= Count(jobs, false)
  {
    if jobs == [] {
    } else {
      var front, last := jobs[..|jobs| - 1], jobs[|jobs| - 1];
      assert jobs == front + [last];
      CountAppend(front, last, true);
      CountAppend(front, last, false);
      WithoutFits(front, attempt, cap);
      if last.attempt != attempt {
        var rest := Without(front, attempt);
        CountAppend(rest, last, true);
        CountAppend(rest, last, false);
        WithoutKeeps(front, attempt);
        forall i | 0 <= i < |rest| ensures !Clash(rest[i], last) {
          assert rest[i] in front;
        }
      }
    }
  }

  lemma SafeStep(cap: Capacity, s: System, step: Step, t: System)
    requires Safe(cap, s) && Next(cap, s, step, t)
    ensures Safe(cap, t)
  {
    hide Fits, SlotAvailable, Waiting;
    match step {
      case Prepare(work) => SlotFits(s.inbox, work, cap);
      case Start =>
        SlotFits(Works(s.active), s.reading.value, cap);
        WorksAppend(s.active, Thread(s.reading.value, Running));
      case Finish(i) => assert Works(t.active) == Works(s.active);
      case Fail(i, _) => assert Works(t.active) == Works(s.active);
      case Stop => NoJobsFit(cap);
      case Join(i) =>
        RemoveFits(Works(s.active), i, cap);
        assert Works(t.active) == Works(s.active)[..i] + Works(s.active)[i + 1..];
      case ArchiveInput(a) => WithoutFits(s.inbox, a, cap);
      case _ =>
    }
  }

  lemma NoJobsFit(cap: Capacity)
    ensures Fits(Works([]), cap)
  {
  }

  lemma AttemptsAppend(jobs: seq<Work>, work: Work)
    ensures Attempts(jobs + [work]) == Attempts(jobs) + {work.attempt}
  {
  }

  lemma TrackedStep(cap: Capacity, s: System, step: Step, t: System)
    requires Tracked(s) && Next(cap, s, step, t)
    ensures Tracked(t)
  {
    hide SlotAvailable, Tracked, Waiting;
    match step {
      case Prepare(work) => PrepareTracked(s, work, t);
      case Read(_) => ReadTracked(s, t);
      case Skip => ReadTracked(s, t);
      case Start => StartTracked(s, t);
      case Finish(i) => EndTracked(cap, s, step, i, t);
      case Fail(i, _) => EndTracked(cap, s, step, i, t);
      case Stop => StopTracked(cap, s, t);
      case Join(i) => JoinTracked(cap, s, i, t);
      case ArchiveInput(a) => ArchiveTracked(s, a, t);
      case ArchiveResult(a) => ForgetTracked(s, a, t);
    }
  }

  lemma PrepareTracked(s: System, work: Work, t: System)
    requires Tracked(s) && work.attempt == s.issued + 1 && t == s.(inbox := s.inbox + [work], issued := s.issued + 1)
    ensures Tracked(t)
  {
    AttemptsAppend(s.inbox, work);
  }

  lemma ReadTracked(s: System, t: System)
    requires Tracked(s) && t == s.(reading := t.reading) && (t.reading.Some? ==> t.reading.value in s.inbox)
    ensures Tracked(t)
  {
  }

  lemma StartTracked(s: System, t: System)
    requires Tracked(s) && s.reading.Some?
    requires t == s.(reading := None, active := s.active + [Thread(s.reading.value, Running)],
                     started := s.started + {s.reading.value.attempt})
    ensures Tracked(t)
  {
    WorksAppend(s.active, Thread(s.reading.value, Running));
    AttemptsAppend(Works(s.active), s.reading.value);
  }

  lemma EndTracked(cap: Capacity, s: System, step: Step, i: nat, t: System)
    requires Tracked(s) && Next(cap, s, step, t) && (step == Finish(i) || (step.Fail? && step.thread == i))
    ensures Tracked(t)
  {
    assert Works(t.active) == Works(s.active);
    assert s.active[i] in s.active;
  }

  lemma ArchiveTracked(s: System, a: AttemptId, t: System)
    requires Tracked(s) && a in s.results && t == s.(inbox := Without(s.inbox, a))
    ensures Tracked(t)
  {
    WithoutKeeps(s.inbox, a);
  }

  lemma ForgetTracked(s: System, a: AttemptId, t: System)
    requires Tracked(s) && a !in Attempts(s.inbox) && t == s.(results := s.results - {a})
    ensures Tracked(t)
  {
  }

  lemma StopTracked(cap: Capacity, s: System, t: System)
    requires Tracked(s) && Next(cap, s, Stop, t)
    ensures Tracked(t)
  {
    forall a | a in s.started ensures Settled(t, a) {
      if a in Attempts(Works(s.active)) {
        var k :| 0 <= k < |s.active| && s.active[k].work.attempt == a;
        assert s.active[k] in s.active;
      }
    }
  }

  lemma JoinTracked(cap: Capacity, s: System, i: nat, t: System)
    requires Tracked(s) && Next(cap, s, Join(i), t)
    ensures Tracked(t)
  {
    hide SlotAvailable, Attempts;
    OthersStay(s.active, i);
    assert s.active[i] in s.active;
  }

  /** Taking one thread out keeps every other attempt. */
  lemma OthersStay(active: seq<Thread>, i: nat)
    requires i < |active|
    ensures
      var rest := active[..i] + active[i + 1..];
      (forall t :: t in rest ==> t in active) &&
      forall a :: a in Attempts(Works(active)) && a != active[i].work.attempt ==> a in Attempts(Works(rest))
  {
    var before, after := Works(active), Works(active[..i] + active[i + 1..]);
    forall a | a in Attempts(before) && a != before[i].attempt
      ensures a in Attempts(after)
    {
      var k :| 0 <= k < |before| && before[k].attempt == a;
      assert after[if k < i then k else k - 1] == before[k];
    }
  }

  ghost predicate Run(cap: Capacity, states: seq<System>, steps: seq<Step>) {
    |states| == |steps| + 1 && Initial(states[0]) &&
    forall i :: 0 <= i < |steps| ==> Next(cap, states[i], steps[i], states[i + 1])
  }

  lemma {:induction false} RunKeeps(cap: Capacity, states: seq<System>, steps: seq<Step>, i: nat)
    requires Run(cap, states, steps) && i <= |steps|
    ensures Safe(cap, states[i]) && Tracked(states[i])
  {
    if i == 0 {
    } else {
      RunKeeps(cap, states, steps, i - 1);
      hide Safe, Tracked, Next;
      assert Next(cap, states[i - 1], steps[i - 1], states[i]);
      SafeStep(cap, states[i - 1], steps[i - 1], states[i]);
      TrackedStep(cap, states[i - 1], steps[i - 1], states[i]);
    }
  }

  lemma {:induction false} AliveFits(active: seq<Thread>, cap: Capacity)
    requires Fits(Works(active), cap)
    ensures Fits(Works(Alive(active)), cap)
    ensures forall t :: t in Alive(active) <==> t in active && t.status.Running?
    ensures Count(Works(Alive(active)), true) <= Count(Works(active), true)
    ensures Count(Works(Alive(active)), false) <= Count(Works(active), false)
  {
    if active == [] {
    } else {
      var front, last := active[..|active| - 1], active[|active| - 1];
      assert active == front + [last];
      WorksAppend(front, last);
      CountAppend(Works(front), last.work, true);
      CountAppend(Works(front), last.work, false);
      forall i, j | 0 <= i < j < |front| ensures !Clash(Works(front)[i], Works(front)[j]) {
        assert Works(active)[i] == Works(front)[i] && Works(active)[j] == Works(front)[j];
      }
      AliveFits(front, cap);
      if last.status.Running? {
        AliveLast(front, last, cap);
      }
    }
  }

  lemma AliveLast(front: seq<Thread>, last: Thread, cap: Capacity)
    requires Fits(Works(front + [last]), cap) && Fits(Works(Alive(front)), cap)
    requires forall t :: t in Alive(front) <==> t in front && t.status.Running?
    requires Count(Works(Alive(front)), true) <= Count(Works(front), true)
    requires Count(Works(Alive(front)), false) <= Count(Works(front), false)
    ensures Fits(Works(Alive(front) + [last]), cap)
    ensures Count(Works(Alive(front) + [last]), true) <= Count(Works(front + [last]), true)
    ensures Count(Works(Alive(front) + [last]), false) <= Count(Works(front + [last]), false)
  {
    var alive := Alive(front);
    WorksAppend(alive, last);
    WorksAppend(front, last);
    CountAppend(Works(alive), last.work, true);
    CountAppend(Works(alive), last.work, false);
    CountAppend(Works(front), last.work, true);
    CountAppend(Works(front), last.work, false);
    forall i | 0 <= i < |alive| ensures !Clash(alive[i].work, last.work) {
      assert alive[i] in front;
      var k :| 0 <= k < |front| && front[k] == alive[i];
      assert Works(front + [last])[k] == alive[i].work && Works(front + [last])[|front|] == last.work;
    }
  }

  /** In every interleaving the running jobs stay within both limits, no two share a workspace and no
      builder runs beside another job of its case, even when an input is archived before its thread is joined. */
  lemma RunningStaysWithinLimits(cap: Capacity, states: seq<System>, steps: seq<Step>, i: nat)
    requires Run(cap, states, steps) && i <= |steps|
    ensures
      var running := Works(Alive(states[i].active));
      Count(running, true) <= cap.builders && Count(running, false) <= cap.reviewers &&
      forall a, b :: 0 <= a < b < |running| ==>
        running[a].workspace != running[b].workspace &&
        (running[a].caseKey == running[b].caseKey ==> !running[a].builder && !running[b].builder)
  {
    RunKeeps(cap, states, steps, i);
    AliveFits(states[i].active, cap);
  }

  /** In every interleaving the pool passes over an input exactly when its result is there, its thread is, or the
      running jobs hinder it; otherwise it starts it. */
  lemma PassedOverExactly(cap: Capacity, states: seq<System>, steps: seq<Step>, i: nat)
    requires Run(cap, states, steps) && i < |steps| && (steps[i].Skip? || steps[i].Start?)
    ensures states[i].reading.Some?
    ensures
      var s, work := states[i], states[i].reading.value;
      steps[i].Skip? <==>
      work.attempt in s.results || (exists t :: t in s.active && t.work.attempt == work.attempt) ||
      Hindered(work, Works(s.active), cap)
  {
    hide Hindered, SlotAvailable;
    var s := states[i];
    assert Next(cap, s, steps[i], states[i + 1]);
    SlotExactly(s.reading.value, Works(s.active), cap);
    AttemptsOfThreads(s.active);
  }

  lemma AttemptsOfThreads(active: seq<Thread>)
    ensures forall a :: a in Attempts(Works(active)) <==> exists t :: t in active && t.work.attempt == a
  {
    forall a ensures a in Attempts(Works(active)) <==> exists t :: t in active && t.work.attempt == a {
      if t :| t in active && t.work.attempt == a {
        var k :| 0 <= k < |active| && active[k] == t;
        assert Works(active)[k] == t.work;
      }
    }
  }

  /** A start repeats an execution exactly when the input it read has been archived since, or an earlier
      execution of the attempt ended without a result. */
  lemma RepeatsExactly(cap: Capacity, states: seq<System>, steps: seq<Step>, i: nat)
    requires Run(cap, states, steps) && i < |steps| && steps[i].Start?
    ensures states[i].reading.Some?
    ensures
      var attempt := states[i].reading.value.attempt;
      attempt in states[i].started <==> attempt !in Attempts(states[i].inbox) || attempt in states[i].lost
  {
    RunKeeps(cap, states, steps, i);
    hide SlotAvailable, Safe;
    assert Next(cap, states[i], steps[i], states[i + 1]);
  }

  predicate StartsAgain(s: System) { s.reading.Some? && s.reading.value.attempt in s.started }

  /** Some attempt is started again. */
  ghost predicate Repeats(states: seq<System>, steps: seq<Step>) {
    |steps| < |states| &&
    exists i :: 0 <= i < |steps| && steps[i].Start? && StartsAgain(states[i])
  }

  function RaceJob(): Work { Work(1, true, 7, 3) }

  function RaceSteps(): seq<Step> {
    [Prepare(RaceJob()), Read(RaceJob()), Start, Finish(0), Join(0), Read(RaceJob()), ArchiveInput(1),
     ArchiveResult(1), Start]
  }

  function RaceStates(): seq<System> {
    var w := RaceJob();
    [System([], {}, [], None, 0, {}, {}),
     System([w], {}, [], None, 1, {}, {}),
     System([w], {}, [], Some(w), 1, {}, {}),
     System([w], {}, [Thread(w, Running)], None, 1, {1}, {}),
     System([w], {1}, [Thread(w, Published)], None, 1, {1}, {}),
     System([w], {1}, [], None, 1, {1}, {}),
     System([w], {1}, [], Some(w), 1, {1}, {}),
     System([], {1}, [], Some(w), 1, {1}, {}),
     System([], {}, [], Some(w), 1, {1}, {}),
     System([], {}, [Thread(w, Running)], None, 1, {1}, {})]
  }

  lemma RaceExecutes(i: nat)
    requires i < 5
    ensures Next(Capacity(1, 1), RaceStates()[i], RaceSteps()[i], RaceStates()[i + 1])
  {
  }

  lemma RaceArchives(i: nat)
    requires 5 <= i < 9
    ensures Next(Capacity(1, 1), RaceStates()[i], RaceSteps()[i], RaceStates()[i + 1])
  {
  }

  /** The race: the result is archived between reading the input and testing for the result. */
  lemma RaceRepeats()
    ensures exists cap, states, steps :: Run(cap, states, steps) && Repeats(states, steps)
  {
    var cap, states, steps := Capacity(1, 1), RaceStates(), RaceSteps();
    assert Run(cap, states, steps) by {
      hide Next;
      forall i | 0 <= i < |steps| ensures Next(cap, states[i], steps[i], states[i + 1]) {
        if i < 5 { RaceExecutes(i); } else { RaceArchives(i); }
      }
    }
    assert Repeats(states, steps) by { assert steps[8].Start? && StartsAgain(states[8]); }
  }

  predicate NothingArchived(steps: seq<Step>) { forall i :: 0 <= i < |steps| ==> !steps[i].ArchiveInput? }

  function LossSteps(): seq<Step> {
    [Prepare(RaceJob()), Read(RaceJob()), Start, Fail(0, false), Stop, Read(RaceJob()), Start]
  }

  function LossStates(): seq<System> {
    var w := RaceJob();
    [System([], {}, [], None, 0, {}, {}),
     System([w], {}, [], None, 1, {}, {}),
     System([w], {}, [], Some(w), 1, {}, {}),
     System([w], {}, [Thread(w, Running)], None, 1, {1}, {}),
     System([w], {}, [Thread(w, Failed)], None, 1, {1}, {1}),
     System([w], {}, [], None, 1, {1}, {1}),
     System([w], {}, [], Some(w), 1, {1}, {1}),
     System([w], {}, [Thread(w, Running)], None, 1, {1}, {1})]
  }

  lemma LossStep(i: nat)
    requires i < 7
    ensures Next(Capacity(1, 1), LossStates()[i], LossSteps()[i], LossStates()[i + 1])
  {
    assert RunningAttempts([Thread(RaceJob(), Failed)]) == {};
  }

  /** The loss: a result that could not be published leaves its input to be executed again. */
  lemma LossRepeats()
    ensures exists cap, states, steps :: Run(cap, states, steps) && Repeats(states, steps) && NothingArchived(steps)
  {
    var cap, states, steps := Capacity(1, 1), LossStates(), LossSteps();
    assert Run(cap, states, steps) by {
      hide Next;
      forall i | 0 <= i < |steps| ensures Next(cap, states[i], steps[i], states[i + 1]) {
        LossStep(i);
      }
    }
    assert Repeats(states, steps) by { assert steps[6].Start? && StartsAgain(states[6]); }
  }

  // ---- a scan is a run of the pool's own steps ----

  ghost predicate Exec(cap: Capacity, s: System, steps: seq<Step>, t: System)
    decreases |steps|, 0
  {
    if steps == [] then s == t else ExecThen(cap, s, steps[..|steps| - 1], steps[|steps| - 1], t)
  }

  ghost predicate ExecThen(cap: Capacity, s: System, front: seq<Step>, last: Step, t: System)
    decreases |front|, 1
  {
    exists m :: Exec(cap, s, front, m) && Next(cap, m, last, t)
  }

  lemma ExecAppend(cap: Capacity, s: System, steps: seq<Step>, m: System, step: Step, t: System)
    requires Exec(cap, s, steps, m) && Next(cap, m, step, t)
    ensures Exec(cap, s, steps + [step], t)
  {
  }

  /** The pool's scan of its inbox listing is a run of reads, starts and skips of the interleaving model. */
  lemma {:induction false} ScanIsRun(cap: Capacity, s: System, paths: seq<Work>) returns (steps: seq<Step>, t: System)
    requires s.reading.None? && forall w :: w in paths ==> w in s.inbox
    ensures Exec(cap, s, steps, t) &&
            (forall k :: 0 <= k < |steps| ==> steps[k].Read? || steps[k].Start? || steps[k].Skip?)
    ensures s.started <= t.started && t == s.(active := Scanned(s.active, paths, s.results, cap), started := t.started)
  {
    hide SlotAvailable, Waiting;
    if paths == [] {
      steps, t := [], s;
    } else {
      var front, work := paths[..|paths| - 1], paths[|paths| - 1];
      steps, t := ScanIsRun(cap, s, front);
      var read := t.(reading := Some(work));
      ExecAppend(cap, s, steps, t, Read(work), read);
      if Starts(read, cap) {
        t := read.(reading := None, active := read.active + [Thread(work, Running)],
                   started := read.started + {work.attempt});
        ExecAppend(cap, s, steps + [Read(work)], read, Start, t);
        steps := steps + [Read(work)] + [Start];
      } else {
        t := read.(reading := None);
        ExecAppend(cap, s, steps + [Read(work)], read, Skip, t);
        steps := steps + [Read(work)] + [Skip];
      }
    }
  }
}
