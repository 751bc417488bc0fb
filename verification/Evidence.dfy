/** The immutable evidence bundle of crates/pip-controller/src/scheduling.rs: payloads that the run
    index already holds are replaced by references. */
module Evidence {
  import opened Prelude

  /** A JSON payload, as its text. */
  type Value = string
  type RunId = nat
  type EventId = nat
  type Digest = nat

  datatype Content = Payload(value: Value) | PayloadRef(runId: RunId, digest: Digest)

  datatype Event = Event(id: EventId, revision: nat, digest: Digest, content: Content)

  datatype Run = Run(id: RunId, event: EventId, payload: Value, digest: Digest)

  /** The run index by event: the last run of an event wins. */
  function ByEvent(runs: seq<Run>): map<EventId, Run> {
    if runs == [] then map[] else ByEvent(runs[..|runs| - 1])[runs[|runs| - 1].event := runs[|runs| - 1]]
  }

  predicate Recorded(index: map<EventId, Run>, e: Event) {
    e.id in index && e.digest == index[e.id].digest && e.content == Payload(index[e.id].payload)
  }

  function Shortened(index: map<EventId, Run>, e: Event): Event {
    if Recorded(index, e) then e.(content := PayloadRef(index[e.id].id, index[e.id].digest)) else e
  }

  method IndexRuns(runs: seq<Run>) returns (index: map<EventId, Run>)
    ensures index == ByEvent(runs)
  {
    index := map[];
    for i := 0 to |runs|
      invariant index == ByEvent(runs[..i])
    {
      assert runs[..i + 1][..i] == runs[..i];
      index := index[runs[i].event := runs[i]];
    }
    assert runs[..|runs|] == runs;
  }

  /** Rewrites the exported events in place. */
  method Deduplicate(records: array<Event>, runs: seq<Run>)
    modifies records
    ensures forall i :: 0 <= i < records.Length ==> records[i] == Shortened(ByEvent(runs), old(records[i]))
  {
    var index := IndexRuns(runs);
    for i := 0 to records.Length
      invariant forall k :: 0 <= k < i ==> records[k] == Shortened(index, old(records[k]))
      invariant forall k :: i <= k < records.Length ==> records[k] == old(records[k])
    {
      var event := records[i];
      if event.id in index &&
         event.digest == index[event.id].digest && event.content == Payload(index[event.id].payload) {
        records[i] := event.(content := PayloadRef(index[event.id].id, index[event.id].digest));
      }
    }
  }

  // ---- reading the bundle back ----

  function Find(runs: seq<Run>, id: RunId): Option<Run> {
    if runs == [] then None else if runs[0].id == id then Some(runs[0]) else Find(runs[1..], id)
  }

  /** What a reader does with a reference: follow it through the exported runs. */
  function Expanded(runs: seq<Run>, e: Event): Event {
    if e.content.PayloadRef? && Find(runs, e.content.runId).Some?
    then e.(content := Payload(Find(runs, e.content.runId).value.payload)) else e
  }

  predicate UniqueRunIds(runs: seq<Run>) { forall i, j :: 0 <= i < j < |runs| ==> runs[i].id != runs[j].id }

  lemma {:induction false} FindUnique(runs: seq<Run>, r: Run)
    requires UniqueRunIds(runs) && r in runs
    ensures Find(runs, r.id) == Some(r)
  {
    assert runs == [runs[0]] + runs[1..];
    if runs[0] != r {
      FindUnique(runs[1..], r);
    }
  }

  lemma {:induction false} IndexHolds(runs: seq<Run>, id: EventId)
    ensures id in ByEvent(runs) <==> exists i :: 0 <= i < |runs| && runs[i].event == id
    ensures id in ByEvent(runs) ==> ByEvent(runs)[id] in runs && ByEvent(runs)[id].event == id
  {
    if runs == [] {
    } else {
      var front, last := runs[..|runs| - 1], runs[|runs| - 1];
      assert runs == front + [last];
      IndexHolds(front, id);
      if i :| 0 <= i < |front| && front[i].event == id {
        assert runs[i].event == id;
      }
    }
  }

  /** Lossless: following the references restores every original event, and only payloads that a run
      of the same event holds are replaced. */
  lemma DeduplicationIsLossless(runs: seq<Run>, e: Event)
    requires UniqueRunIds(runs) && e.content.Payload?
    ensures Expanded(runs, Shortened(ByEvent(runs), e)) == e
    ensures Shortened(ByEvent(runs), e).content.PayloadRef? ==>
              exists r :: r in runs && r.event == e.id && r.digest == e.digest && r.payload == e.content.value
  {
    IndexHolds(runs, e.id);
    if Recorded(ByEvent(runs), e) {
      FindUnique(runs, ByEvent(runs)[e.id]);
    }
  }

  /** The whole event list is restored. */
  lemma BundleRestores(runs: seq<Run>, events: seq<Event>, bundle: seq<Event>)
    requires UniqueRunIds(runs) && |bundle| == |events|
    requires forall i :: 0 <= i < |events| ==>
               events[i].content.Payload? && bundle[i] == Shortened(ByEvent(runs), events[i])
    ensures seq(|bundle|, i requires 0 <= i < |bundle| => Expanded(runs, bundle[i])) == events
  {
    forall i | 0 <= i < |events| ensures Expanded(runs, bundle[i]) == events[i] {
      DeduplicationIsLossless(runs, events[i]);
    }
  }
}
