/** The durable webhook spool of crates/pip-control/src/webhook_spool.rs: receipts, pending and
    processed directories under concurrent deliveries, one consumer, and crashes between operations. */
module WebhookSpool {
  import opened Prelude

  /** Delivery identities in the order of their file names. */
  type DeliveryId = nat

  datatype Envelope = Envelope(event: nat, signature: nat, payload: seq<nat>, receivedAt: nat)

  /** `compare_existing`: everything but the receive time. */
  predicate Same(a: Envelope, b: Envelope) {
    a.event == b.event && a.signature == b.signature && a.payload == b.payload
  }

  datatype Disk = Disk(
    receipts: map<DeliveryId, Envelope>, pending: map<DeliveryId, Envelope>, processed: map<DeliveryId, Envelope>)
  {
    predicate Queued(id: DeliveryId) { id in pending || id in processed }

    /** Both queues hold exactly the receipt's bytes. */
    predicate Faithful() {
      (forall id :: id in pending ==> id in receipts && pending[id] == receipts[id]) &&
      (forall id :: id in processed ==> id in receipts && processed[id] == receipts[id])
    }
  }

  datatype SpoolResult = Stored | Replayed

  datatype SpoolError = InvalidInput | DeliveryConflict | Filesystem

  // ---- uninterrupted calls ----

  function QueueAlone(d: Disk, id: DeliveryId, e: Envelope): (Disk, Option<SpoolError>)
    requires id in d.receipts
  {
    if id in d.processed then
      (d, if !Same(d.processed[id], e) || id in d.pending then Some(DeliveryConflict) else None)
    else if id in d.pending then
      (d, if Same(d.pending[id], e) then None else Some(DeliveryConflict))
    else (d.(pending := d.pending[id := d.receipts[id]]), None)
  }

  function StoreAlone(d: Disk, valid: bool, id: DeliveryId, e: Envelope): (Disk, Result<SpoolResult, SpoolError>) {
    if !valid then (d, Err(InvalidInput))
    else if id in d.receipts && !Same(d.receipts[id], e) then (d, Err(DeliveryConflict))
    else
      var unseen := id !in d.receipts;
      var received := if unseen then d.(receipts := d.receipts[id := e]) else d;
      var (queued, error) := QueueAlone(received, id, e);
      (queued, if error.Some? then Err(error.value) else Ok(if unseen then Stored else Replayed))
  }

  class Spool {
    var receipts: map<DeliveryId, Envelope>
    var pending: map<DeliveryId, Envelope>
    var processed: map<DeliveryId, Envelope>

    constructor ()
      ensures Contents() == Disk(map[], map[], map[])
    {
      receipts, pending, processed := map[], map[], map[];
    }

    function Contents(): Disk
      reads this
    {
      Disk(receipts, pending, processed)
    }

    method EnsureQueued(id: DeliveryId, expected: Envelope) returns (error: Option<SpoolError>)
      requires id in receipts
      modifies this`pending
      ensures (Contents(), error) == QueueAlone(old(Contents()), id, expected)
    {
      if id in processed {
        if !Same(processed[id], expected) {
          return Some(DeliveryConflict);
        }
        if id in pending {
          return Some(DeliveryConflict);
        }
        return None;
      }
      if id in pending {
        return if Same(pending[id], expected) then None else Some(DeliveryConflict);
      }
      pending := pending[id := receipts[id]];
      return None;
    }

    method Store(valid: bool, id: DeliveryId, envelope: Envelope) returns (r: Result<SpoolResult, SpoolError>)
      modifies this
      ensures (Contents(), r) == StoreAlone(old(Contents()), valid, id, envelope)
    {
      if !valid {
        return Err(InvalidInput);
      }
      if id in receipts {
        if !Same(receipts[id], envelope) {
          return Err(DeliveryConflict);
        }
        var error := EnsureQueued(id, envelope);
        return if error.Some? then Err(error.value) else Ok(Replayed);
      }
      receipts := receipts[id := envelope];
      var error := EnsureQueued(id, envelope);
      return if error.Some? then Err(error.value) else Ok(Stored);
    }

    /** The first pending delivery in name order. */
    method NextPending() returns (next: Option<DeliveryId>)
      ensures next.None? <==> pending == map[]
      ensures next.Some? ==> next.value in pending && forall id :: id in pending ==> next.value <= id
    {
      var rest := pending.Keys;
      next := None;
      while rest != {}
        invariant rest <= pending.Keys
        invariant next.None? ==> rest == pending.Keys
        invariant next.Some? ==> next.value in pending && forall id :: id in pending && id !in rest ==> next.value <= id
        decreases |rest|
      {
        var id :| id in rest;
        if next.None? || id < next.value {
          next := Some(id);
        }
        rest := rest - {id};
      }
    }

    method MarkProcessed(id: DeliveryId) returns (error: Option<SpoolError>)
      modifies this`pending, this`processed
      ensures (Contents(), error) == MarkAlone(old(Contents()), id)
    {
      if id in processed {
        if id in pending {
          if pending[id] != processed[id] {
            return Some(DeliveryConflict);
          }
          pending := pending - {id};
        }
        return None;
      }
      if id !in pending {
        return Some(Filesystem);
      }
      processed, pending := processed[id := pending[id]], pending - {id};
      return None;
    }
  }

  function MarkAlone(d: Disk, id: DeliveryId): (Disk, Option<SpoolError>) {
    if id in d.processed then
      if id !in d.pending then (d, None)
      else if d.pending[id] != d.processed[id] then (d, Some(DeliveryConflict))
      else (d.(pending := d.pending - {id}), None)
    else if id !in d.pending then (d, Some(Filesystem))
    else (d.(processed := d.processed[id := d.pending[id]], pending := d.pending - {id}), None)
  }

  /** A valid delivery is refused exactly when its event, signature or payload differs from the receipt, whenever it
      arrives, or when it sits in both queues. */
  lemma RefusedAlone(d: Disk, id: DeliveryId, e: Envelope)
    requires d.Faithful()
    ensures
      var (d', r) := StoreAlone(d, true, id, e);
      (r.Err? <==>
       id in d.receipts &&
       (d.receipts[id].event != e.event || d.receipts[id].signature != e.signature ||
        d.receipts[id].payload != e.payload || (id in d.pending && id in d.processed))) &&
      (r.Err? ==> d' == d && r.error == DeliveryConflict) &&
      (r.Ok? ==> d'.Queued(id) && d'.processed == d.processed &&
                 (r.value == Stored <==> id !in d.receipts) && (r.value == Replayed <==> id in d.receipts))
  {
  }

  // ---- one directory operation at a time ----

  datatype Position =
    | CheckReceipt | LinkReceipt | CompareReceipt | CheckProcessed | CompareProcessed | CheckBoth | CompareBoth
    | LinkPending | ComparePending | Returned(error: Option<SpoolError>)

  datatype Call = Call(id: DeliveryId, envelope: Envelope, at: Position, created: bool)

  datatype Consumer =
    | Idle | FindProcessed(id: DeliveryId) | FindPending(id: DeliveryId) | CompareFiles(id: DeliveryId)
    | Remove(id: DeliveryId) | Rename(id: DeliveryId) | Broken(id: DeliveryId, error: SpoolError)

  /** `acked` holds every delivery acknowledged as stored or replayed. */
  datatype System = System(disk: Disk, calls: map<nat, Call>, consumer: Consumer, acked: set<(DeliveryId, Envelope)>)

  datatype Step =
    | Deliver(call: nat, id: DeliveryId, envelope: Envelope) | Advance(call: nat) | Crash(call: nat)
    | Take(id: DeliveryId) | Consume | ConsumerCrash

  /** The next directory operation of one delivery. */
  function AdvanceCall(d: Disk, c: Call): (Disk, Call) {
    match c.at
    case CheckReceipt => (d, c.(at := if c.id in d.receipts then CompareReceipt else LinkReceipt))
    case LinkReceipt =>
      if c.id in d.receipts then (d, c.(at := CompareReceipt))
      else (d.(receipts := d.receipts[c.id := c.envelope]), c.(at := CheckProcessed, created := true))
    case CompareReceipt =>
      (d, c.(at := if c.id in d.receipts &&
             Same(d.receipts[c.id], c.envelope) then CheckProcessed else Returned(Some(DeliveryConflict))))
    case CheckProcessed => (d, c.(at := if c.id in d.processed then CompareProcessed else LinkPending))
    case CompareProcessed =>
      (d, c.(at := if c.id in d.processed &&
             Same(d.processed[c.id], c.envelope) then CheckBoth else Returned(Some(DeliveryConflict))))
    case CheckBoth => (d, c.(at := if c.id in d.pending then CompareBoth else Returned(None)))
    case CompareBoth =>
      (d, c.(at := Returned(Some(if c.id in d.pending then DeliveryConflict else Filesystem))))
    case LinkPending =>
      if c.id in d.pending then (d, c.(at := ComparePending))
      else if c.id in d.receipts then (d.(pending := d.pending[c.id := d.receipts[c.id]]), c.(at := Returned(None)))
      else (d, c.(at := Returned(Some(Filesystem))))
    case ComparePending =>
      (d, c.(at := Returned(if c.id !in d.pending then Some(Filesystem)
                            else if Same(d.pending[c.id], c.envelope) then None else Some(DeliveryConflict))))
    case Returned(_) => (d, c)
  }

  function AdvanceConsumer(d: Disk, c: Consumer): (Disk, Consumer) {
    match c
    case FindProcessed(id) => (d, if id in d.processed then FindPending(id) else Rename(id))
    case FindPending(id) => (d, if id in d.pending then CompareFiles(id) else Idle)
    case CompareFiles(id) =>
      (d, if id in d.pending && id in d.processed &&
       d.pending[id] == d.processed[id] then Remove(id) else Broken(id, DeliveryConflict))
    case Remove(id) => (d.(pending := d.pending - {id}), Idle)
    case Rename(id) =>
      if id in d.pending then (d.(processed := d.processed[id := d.pending[id]], pending := d.pending - {id}), Idle)
      else (d, Broken(id, Filesystem))
    case Idle => (d, c)
    case Broken(_, _) => (d, c)
  }

  predicate Next(s: System, step: Step, t: System) {
    match step
    case Deliver(k, id, e) => k !in s.calls && t == s.(calls := s.calls[k := Call(id, e, CheckReceipt, false)])
    case Advance(k) =>
      k in s.calls && !s.calls[k].at.Returned? &&
      var (d, c) := AdvanceCall(s.disk, s.calls[k]);
      t == s.(disk := d, calls := s.calls[k := c],
              acked := if c.at == Returned(None) then s.acked + {(c.id, c.envelope)} else s.acked)
    case Crash(k) => k in s.calls && t == s.(calls := s.calls - {k})
    case Take(id) => s.consumer.Idle? && id in s.disk.pending && t == s.(consumer := FindProcessed(id))
    case Consume =>
      !s.consumer.Idle? && !s.consumer.Broken? &&
      var (d, c) := AdvanceConsumer(s.disk, s.consumer);
      t == s.(disk := d, consumer := c)
    case ConsumerCrash => t == s.(consumer := Idle)
  }

  predicate Initial(s: System) { s == System(Disk(map[], map[], map[]), map[], Idle, {}) }

  // ---- what every interleaving keeps ----

  /** A call past the receipt has a receipt of its own delivery. */
  predicate CallKept(d: Disk, c: Call) {
    (c.at.CompareReceipt? ==> c.id in d.receipts) &&
    (Received(c.at) ==>
       c.id in d.receipts && Same(d.receipts[c.id], c.envelope) &&
       (c.at.CheckBoth? || c.at.CompareBoth? || c.at.CompareProcessed? ==> c.id in d.processed) &&
       (c.at.ComparePending? ==> d.Queued(c.id)))
  }

  predicate Received(at: Position) {
    !(at.CheckReceipt? || at.LinkReceipt? || at.CompareReceipt? || (at.Returned? && at.error.Some?))
  }

  predicate ConsumerKept(d: Disk, c: Consumer) {
    match c
    case Idle => true
    case FindProcessed(id) => id in d.pending
    case FindPending(id) => id in d.pending && id in d.processed
    case CompareFiles(id) => id in d.pending && id in d.processed
    case Remove(id) => id in d.pending && id in d.processed
    case Rename(id) => id in d.pending && id !in d.processed
    case Broken(_, _) => false
  }

  predicate Acknowledged(d: Disk, acked: set<(DeliveryId, Envelope)>) {
    forall a :: a in acked ==> d.Queued(a.0) && a.0 in d.receipts && Same(d.receipts[a.0], a.1)
  }

  predicate Inv(s: System) {
    s.disk.Faithful() && (forall k :: k in s.calls ==> CallKept(s.disk, s.calls[k])) &&
    ConsumerKept(s.disk, s.consumer) && Acknowledged(s.disk, s.acked)
  }

  /** Receipts never change, processed only grows, and nothing queued is lost. */
  ghost predicate Grows(d: Disk, d': Disk) {
    (forall id :: id in d.receipts ==> id in d'.receipts && d'.receipts[id] == d.receipts[id]) &&
    (forall id :: id in d.processed ==> id in d'.processed && d'.processed[id] == d.processed[id]) &&
    (forall id :: d.Queued(id) ==> d'.Queued(id))
  }

  lemma CallStepKeeps(s: System, k: nat, t: System)
    requires Inv(s) && Next(s, Advance(k), t)
    ensures t.disk.Faithful() && Grows(s.disk, t.disk) && CallKept(t.disk, t.calls[k])
    ensures t.calls[k].at == Returned(None) ==> t.disk.Queued(t.calls[k].id)
    ensures forall id :: id in s.disk.pending ==> id in t.disk.pending
    ensures t.disk.processed == s.disk.processed
  {
    hide ConsumerKept, Acknowledged;
  }

  lemma ConsumeKeeps(s: System, t: System)
    requires Inv(s) && Next(s, Consume, t)
    ensures t.disk.Faithful() && Grows(s.disk, t.disk) && ConsumerKept(t.disk, t.consumer)
  {
    hide CallKept, Acknowledged;
    match s.consumer {
      case Rename(id) => RenameKeeps(s.disk, t.disk, id);
      case Remove(id) => RemoveKeeps(s.disk, t.disk, id);
      case _ =>
    }
  }

  lemma RenameKeeps(d: Disk, d': Disk, id: DeliveryId)
    requires d.Faithful() && id in d.pending && id !in d.processed
    requires d' == d.(processed := d.processed[id := d.pending[id]], pending := d.pending - {id})
    ensures d'.Faithful() && Grows(d, d')
  {
  }

  lemma RemoveKeeps(d: Disk, d': Disk, id: DeliveryId)
    requires d.Faithful() && id in d.processed && d' == d.(pending := d.pending - {id})
    ensures d'.Faithful() && Grows(d, d')
  {
  }

  /** Growth keeps what calls and acknowledgements rely on. */
  lemma GrowthKeeps(d: Disk, d': Disk, c: Call, acked: set<(DeliveryId, Envelope)>)
    requires Grows(d, d') && CallKept(d, c) && Acknowledged(d, acked)
    ensures CallKept(d', c) && Acknowledged(d', acked)
  {
  }

  lemma StepKeeps(s: System, step: Step, t: System)
    requires Inv(s) && Next(s, step, t)
    ensures Inv(t) && Grows(s.disk, t.disk) && s.acked <= t.acked
  {
    hide CallKept, Acknowledged, AdvanceCall, AdvanceConsumer;
    match step {
      case Deliver(k, id, e) => NewCallKept(s.disk, t.calls[k]);
      case Advance(k) =>
        CallStepKeeps(s, k, t);
        forall j | j in t.calls ensures CallKept(t.disk, t.calls[j]) {
          if j != k { GrowthKeeps(s.disk, t.disk, s.calls[j], s.acked); }
        }
        GrowthKeeps(s.disk, t.disk, s.calls[k], s.acked);
        AckKept(t.disk, t.calls[k], s.acked);
      case Consume =>
        ConsumeKeeps(s, t);
        forall j | j in t.calls ensures CallKept(t.disk, t.calls[j]) {
          GrowthKeeps(s.disk, t.disk, s.calls[j], s.acked);
        }
        AcksGrow(s.disk, t.disk, s.acked);
      case _ =>
    }
  }

  lemma NewCallKept(d: Disk, c: Call)
    requires c.at.CheckReceipt?
    ensures CallKept(d, c)
  {
  }

  lemma AcksGrow(d: Disk, d': Disk, acked: set<(DeliveryId, Envelope)>)
    requires Grows(d, d') && Acknowledged(d, acked)
    ensures Acknowledged(d', acked)
  {
  }

  lemma AckKept(d: Disk, c: Call, acked: set<(DeliveryId, Envelope)>)
    requires Acknowledged(d, acked) && CallKept(d, c)
    requires c.at == Returned(None) ==> d.Queued(c.id)
    ensures c.at == Returned(None) ==> Acknowledged(d, acked + {(c.id, c.envelope)})
  {
  }

  ghost predicate Run(states: seq<System>, steps: seq<Step>) {
    |states| == |steps| + 1 && Initial(states[0]) && forall i :: 0 <= i < |steps| ==>
      Next(states[i], steps[i], states[i + 1])
  }

  lemma {:induction false} RunKeeps(states: seq<System>, steps: seq<Step>, i: nat, j: nat)
    requires Run(states, steps) && i <= j <= |steps|
    ensures Inv(states[i]) && Inv(states[j]) && Grows(states[i].disk, states[j].disk) &&
            states[i].acked <= states[j].acked
    decreases j
  {
    if i < j {
      RunKeeps(states, steps, i, j - 1);
      assert Next(states[j - 1], steps[j - 1], states[j]);
      StepKeeps(states[j - 1], steps[j - 1], states[j]);
    } else if i > 0 {
      RunKeeps(states, steps, i - 1, i - 1);
      assert Next(states[i - 1], steps[i - 1], states[i]);
      StepKeeps(states[i - 1], steps[i - 1], states[i]);
    }
  }

  /** An acknowledged delivery is in pending or processed for ever after, under the bytes of a receipt
      that agrees with what was acknowledged and never changes; processed only grows. */
  lemma AcknowledgedNeverLost(states: seq<System>, steps: seq<Step>, i: nat, j: nat, id: DeliveryId, e: Envelope)
    requires Run(states, steps) && i <= j <= |steps| && (id, e) in states[i].acked
    ensures states[j].disk.Queued(id) && states[j].disk.Faithful()
    ensures id in states[i].disk.receipts && id in states[j].disk.receipts
    ensures states[j].disk.receipts[id] == states[i].disk.receipts[id] && Same(states[j].disk.receipts[id], e)
    ensures forall p :: p in states[i].disk.processed ==> p in states[j].disk.processed
  {
    RunKeeps(states, steps, i, j);
    assert (id, e) in states[j].acked;
  }

  /** The consumer never meets a conflict or a missing file. */
  lemma ConsumerNeverBreaks(states: seq<System>, steps: seq<Step>, i: nat)
    requires Run(states, steps) && i <= |steps|
    ensures !states[i].consumer.Broken?
  {
    RunKeeps(states, steps, i, i);
  }

  // ---- uninterrupted calls are runs of the same operations ----

  function Iterate(d: Disk, c: Call, n: nat): (Disk, Call)
    decreases n
  {
    if n == 0 then (d, c) else var (d', c') := AdvanceCall(d, c); Iterate(d', c', n - 1)
  }

  /** `store` without interference is its directory operations one after the other. */
  lemma StoreIsItsOperations(d: Disk, id: DeliveryId, e: Envelope)
    requires d.Faithful()
    ensures
      var (d', c) := Iterate(d, Call(id, e, CheckReceipt, false), 7);
      var (alone, r) := StoreAlone(d, true, id, e);
      d' == alone && c.at == Returned(if r.Err? then Some(r.error) else None) &&
      (r.Ok? ==> c.created == r.value.Stored?)
  {
    var c := Call(id, e, CheckReceipt, false);
    if id in d.receipts {
      assert AdvanceCall(d, c) == (d, c.(at := CompareReceipt));
      if Same(d.receipts[id], e) {
        QueueIsItsOperations(d, c.(at := CheckProcessed));
        assert Iterate(d, c.(at := CompareReceipt), 6) == Iterate(d, c.(at := CheckProcessed), 5);
      } else {
        ReturnedStays(d, c.(at := Returned(Some(DeliveryConflict))), 5);
        assert Iterate(d, c.(at := CompareReceipt), 6) == Iterate(d, c.(at := Returned(Some(DeliveryConflict))), 5);
      }
    } else {
      var received := d.(receipts := d.receipts[id := e]);
      QueueIsItsOperations(received, c.(at := CheckProcessed, created := true));
      assert Iterate(d, c.(at := LinkReceipt), 6) == Iterate(received, c.(at := CheckProcessed, created := true), 5);
    }
  }

  lemma {:induction false} ReturnedStays(d: Disk, c: Call, n: nat)
    requires c.at.Returned?
    ensures Iterate(d, c, n) == (d, c)
  {
    if n == 0 {
    } else {
      ReturnedStays(d, c, n - 1);
    }
  }

  lemma QueueIsItsOperations(d: Disk, c: Call)
    requires c.at.CheckProcessed? && c.id in d.receipts
    ensures
      var (alone, error) := QueueAlone(d, c.id, c.envelope);
      Iterate(d, c, 5) == (alone, c.(at := Returned(error)))
  {
  }

  /** After any crash an undisturbed redelivery queues its delivery, and is refused exactly while the
      delivery sits in both queues. */
  lemma RedeliveryRepairs(d: Disk, id: DeliveryId, e: Envelope)
    requires d.Faithful() && (id in d.receipts ==> Same(d.receipts[id], e))
    ensures
      var (d', r) := StoreAlone(d, true, id, e);
      d'.Queued(id) && d'.Faithful() && Grows(d, d') &&
      (r.Ok? <==> !(id in d.pending && id in d.processed))
  {
  }

  /** Processing empties the delivery out of pending, so the refusal is transient. */
  lemma ProcessingSettles(d: Disk, id: DeliveryId)
    requires d.Faithful() && d.Queued(id)
    ensures
      var (d', error) := MarkAlone(d, id);
      error.None? && id !in d'.pending && id in d'.processed && d'.Faithful() && Grows(d, d')
  {
  }

  // ---- when a redelivery is refused in an interleaving ----

  /** The call agrees with the receipt of its delivery, if there is one. */
  predicate Agrees(d: Disk, c: Call) { c.id in d.receipts ==> Same(d.receipts[c.id], c.envelope) }

  /** A call that agrees with its receipt is refused at exactly two places: it found the delivery in both
      queues, or the pending file it wanted to compare was taken away by the consumer. Either way the
      delivery is already processed. */
  lemma RefusedExactly(states: seq<System>, steps: seq<Step>, i: nat, k: nat)
    requires Run(states, steps) && i < |steps| && steps[i] == Advance(k)
    requires k in states[i].calls && Agrees(states[i].disk, states[i].calls[k])
    ensures k in states[i + 1].calls
    ensures
      var d, c := states[i].disk, states[i].calls[k];
      var at := states[i + 1].calls[k].at;
      (at.Returned? && at.error.Some? <==> c.at.CompareBoth? || (c.at.ComparePending? && c.id !in d.pending)) &&
      (at == Returned(Some(DeliveryConflict)) <==> c.at.CompareBoth? && c.id in d.pending) &&
      (at.Returned? && at.error.Some? ==> c.id in d.processed)
  {
    RunKeeps(states, steps, i, i);
    assert Next(states[i], steps[i], states[i + 1]);
    assert CallKept(states[i].disk, states[i].calls[k]);
  }

  // ---- both refusals happen ----

  ghost predicate Reachable(s: System) {
    exists states, steps :: Run(states, steps) && states[|steps|] == s
  }

  lemma Extend(s: System, step: Step, t: System)
    requires Reachable(s) && Next(s, step, t)
    ensures Reachable(t)
  {
    hide Next;
    var states, steps :| Run(states, steps) && states[|steps|] == s;
    var more, taken := states + [t], steps + [step];
    forall i | 0 <= i < |taken| ensures Next(more[i], taken[i], more[i + 1]) {
      if i < |steps| {
        assert Next(states[i], steps[i], states[i + 1]);
        assert more[i] == states[i] && more[i + 1] == states[i + 1] && taken[i] == steps[i];
      } else {
        assert more[i] == s && more[i + 1] == t && taken[i] == step;
      }
    }
    assert Run(more, taken) && more[|taken|] == t;
  }

  lemma Empty()
    ensures Reachable(System(Disk(map[], map[], map[]), map[], Idle, {}))
  {
    var s := System(Disk(map[], map[], map[]), map[], Idle, {});
    var steps: seq<Step> := [];
    assert Run([s], steps) && [s][|steps|] == s;
  }

  lemma DeliverTo(s: System, k: nat, id: DeliveryId, e: Envelope) returns (t: System)
    requires Reachable(s) && k !in s.calls
    ensures Reachable(t) && t == s.(calls := s.calls[k := Call(id, e, CheckReceipt, false)])
  {
    t := s.(calls := s.calls[k := Call(id, e, CheckReceipt, false)]);
    Extend(s, Deliver(k, id, e), t);
  }

  lemma AdvanceTo(s: System, k: nat) returns (t: System)
    requires Reachable(s) && k in s.calls && !s.calls[k].at.Returned?
    ensures Reachable(t) && t.consumer == s.consumer
    ensures t.disk == AdvanceCall(s.disk, s.calls[k]).0 && t.calls == s.calls[k := AdvanceCall(s.disk, s.calls[k]).1]
  {
    var (d, c) := AdvanceCall(s.disk, s.calls[k]);
    t := s.(disk := d, calls := s.calls[k := c],
            acked := if c.at == Returned(None) then s.acked + {(c.id, c.envelope)} else s.acked);
    Extend(s, Advance(k), t);
  }

  /** The consumer takes a pending delivery that was not processed before and moves it. */
  lemma ProcessTo(s: System, id: DeliveryId) returns (t: System)
    requires Reachable(s) && s.consumer.Idle? && id in s.disk.pending && id !in s.disk.processed
    ensures Reachable(t) && t.calls == s.calls && t.consumer.Idle?
    ensures t.disk == s.disk.(processed := s.disk.processed[id := s.disk.pending[id]], pending := s.disk.pending - {id})
  {
    var taken := s.(consumer := FindProcessed(id));
    Extend(s, Take(id), taken);
    var found := taken.(consumer := Rename(id));
    Extend(taken, Consume, found);
    t := found.(disk := s.disk.(processed := s.disk.processed[id := s.disk.pending[id]],
                                pending := s.disk.pending - {id}),
                consumer := Idle);
    Extend(found, Consume, t);
  }

  /** One delivery stored, and a second call for it about to link the pending file. */
  lemma SecondCallLinks(id: DeliveryId, e: Envelope) returns (s: System)
    ensures Reachable(s) && s.disk == Disk(map[id := e], map[id := e], map[]) && s.consumer.Idle?
    ensures s.calls.Keys == {1, 2} && s.calls[2] == Call(id, e, LinkPending, false)
  {
    hide Reachable;
    Empty();
    s := System(Disk(map[], map[], map[]), map[], Idle, {});
    s := DeliverTo(s, 1, id, e);
    s := AdvanceTo(s, 1);
    s := AdvanceTo(s, 1);
    s := AdvanceTo(s, 1);
    s := AdvanceTo(s, 1);
    assert s.disk == Disk(map[id := e], map[id := e], map[]);
    s := DeliverTo(s, 2, id, e);
    s := AdvanceTo(s, 2);
    s := AdvanceTo(s, 2);
    s := AdvanceTo(s, 2);
  }

  /** Some run refuses a redelivery because its pending file is taken away before it is compared. */
  lemma VanishedPendingRefuses(id: DeliveryId, e: Envelope) returns (s: System, k: nat)
    ensures Reachable(s) && k in s.calls && s.calls[k].id == id && Agrees(s.disk, s.calls[k])
    ensures s.calls[k].at.ComparePending? && id !in s.disk.pending
  {
    hide Reachable;
    s := SecondCallLinks(id, e);
    k := 2;
    s := AdvanceTo(s, k);
    s := ProcessTo(s, id);
  }

  /** Some run leaves a delivery in both queues and refuses its next redelivery. */
  lemma BothQueuesRefuse(id: DeliveryId, e: Envelope) returns (s: System, k: nat)
    ensures Reachable(s) && k in s.calls && s.calls[k].id == id && Agrees(s.disk, s.calls[k])
    ensures s.calls[k].at.CompareBoth? && id in s.disk.pending && id in s.disk.processed
  {
    hide Reachable;
    s := SecondCallLinks(id, e);
    s := ProcessTo(s, id);
    s := AdvanceTo(s, 2);
    k := 3;
    s := DeliverTo(s, k, id, e);
    s := AdvanceTo(s, k);
    s := AdvanceTo(s, k);
    s := AdvanceTo(s, k);
    s := AdvanceTo(s, k);
    s := AdvanceTo(s, k);
  }
}
