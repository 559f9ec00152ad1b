/** Batched ingestion (`client.py`): the `_SizedBatchWriter` that buffers
    records and submits them in groups through `add_many`, the `IndexBatch`
    manager that receives its failure list, and the pieces of `add_many` it
    relies on (record normalisation and the mapping of the reply).

    The bulk-insert collaborator is an oracle: each operation that may flush
    takes the outcome the collaborator would give, either the parsed reply
    or the message of the exception it raised. `uuid4()` is a fresh id the
    caller supplies. */
module Batch {
  import opened Wrappers
  import opened Text

  // ---------------------------------------------------------------------
  // Results of add_many

  /** `FailedRecord`: the id of a record that was not stored and why. */
  datatype FailedRecord = FailedRecord(id: string, error: string)

  /** `AddManyResult`: the accepted ids, plus the failures. */
  datatype AddManyResult = AddManyResult(ids: seq<string>, failedRecords: seq<FailedRecord>) {
    /** The `number_errors` property. */
    function NumberErrors(): (n: nat)
      ensures n == 0 <==> failedRecords == []
      ensures n == |failedRecords|
    {
      |failedRecords|
    }
  }

  /** One entry of the reply's "failed_objects"; a field is `None` when it is
      absent or null. */
  datatype FailedObject = FailedObject(uuid: Option<string>, error: Option<string>)

  /** The JSON reply of the insert-many endpoint, as far as `add_many` reads it. */
  datatype InsertManyReply = InsertManyReply(uuids: Option<seq<string>>, failedObjects: Option<seq<FailedObject>>)

  /** The comprehension over "failed_objects" in `add_many`: one failure per
      entry, in order, a missing id or message becoming "". */
  function ToFailedRecords(objects: seq<FailedObject>): (r: seq<FailedRecord>)
    ensures |r| == |objects|
    ensures forall i :: 0 <= i < |objects| ==>
              r[i].id == OrEmpty(objects[i].uuid) && r[i].error == OrEmpty(objects[i].error)
  {
    seq(|objects|, i requires 0 <= i < |objects| =>
      FailedRecord(OrEmpty(objects[i].uuid), OrEmpty(objects[i].error)))
  }

  /** What `add_many` returns for a reply: the ids (none if the key is
      missing) and the mapped failures (none if the key is missing). */
  function AddManyResultOf(reply: InsertManyReply): (r: AddManyResult)
    ensures r.ids == reply.uuids.GetOr([])
    ensures r.failedRecords == ToFailedRecords(reply.failedObjects.GetOr([]))
    ensures r.NumberErrors() == |reply.failedObjects.GetOr([])|
  {
    AddManyResult(reply.uuids.GetOr([]), ToFailedRecords(reply.failedObjects.GetOr([])))
  }

  /** `_normalize_record`: a copy of the record whose "id" key, if any, is
      renamed "uuid" (replacing any "uuid" already there). */
  function NormalizeRecord<V>(record: map<string, V>): (item: map<string, V>)
    ensures "id" !in record ==> item == record
    ensures "id" in record ==> item.Keys == record.Keys - {"id"} + {"uuid"}
    ensures "id" in record ==> item["uuid"] == record["id"]
    ensures forall k :: k in record && k != "id" && k != "uuid" ==> k in item && item[k] == record[k]
  {
    if "id" in record then (record - {"id"})["uuid" := record["id"]] else record
  }

  // ---------------------------------------------------------------------
  // Records and the calls the writer makes

  /** A buffered record, as `add` builds it. */
  datatype Record<P, V> = Record(properties: P, vector: V, id: string)

  /** A value in a record's dictionary. */
  datatype Value<P, V> = PropertiesValue(properties: P) | VectorValue(vector: V) | IdValue(id: string)

  /** The dictionary `add` appends to the buffer. */
  function RecordDict<P, V>(r: Record<P, V>): (d: map<string, Value<P, V>>)
    ensures d.Keys == {"properties", "vector", "id"}
    ensures d["properties"] == PropertiesValue(r.properties)
    ensures d["vector"] == VectorValue(r.vector)
    ensures d["id"] == IdValue(r.id)
  {
    map["properties" := PropertiesValue(r.properties), "vector" := VectorValue(r.vector), "id" := IdValue(r.id)]
  }

  /** The "objects" that `add_many` sends for a payload: each record
      normalised, in payload order. */
  function Objects<P, V>(payload: seq<Record<P, V>>): (objects: seq<map<string, Value<P, V>>>)
    ensures |objects| == |payload|
    ensures forall i :: 0 <= i < |payload| ==>
              && objects[i].Keys == {"properties", "vector", "uuid"}
              && objects[i]["uuid"] == IdValue(payload[i].id)
              && objects[i]["properties"] == PropertiesValue(payload[i].properties)
              && objects[i]["vector"] == VectorValue(payload[i].vector)
  {
    seq(|payload|, i requires 0 <= i < |payload| => NormalizeRecord(RecordDict(payload[i])))
  }

  /** The `on_error` policy of a writer. */
  datatype OnError = Raise | Continue

  /** One call of `add_many` by a flush, with the options it passes. */
  datatype InsertCall<P, V> = InsertCall(
    objects: seq<map<string, Value<P, V>>>,
    onDuplicate: string,
    onError: OnError,
    batchSize: nat,
    maxWorkers: nat)

  /** What the bulk-insert collaborator does with one call: it replies, or it
      raises an exception with the given message. */
  datatype InsertOutcome = Replied(reply: InsertManyReply) | Raised(message: string)

  /** `max(1, n)`: the writer's batch size and worker count are coerced up. */
  function AtLeastOne(n: int): (r: nat)
    ensures r >= 1
    ensures n >= 1 ==> r == n
    ensures n < 1 ==> r == 1
  {
    if n < 1 then 1 else n
  }

  /** The id `add` gives a record: the caller's, else the fresh one. */
  function AssignedId(id: Option<string>, freshId: string): (r: string)
    ensures id.Some? ==> r == id.value
    ensures id.None? ==> r == freshId
  {
    id.GetOr(freshId)
  }

  /** The failures recorded when the insert call itself fails: one per
      record, in payload order, each with the exception's message. */
  function FailuresFor<P, V>(payload: seq<Record<P, V>>, message: string): (r: seq<FailedRecord>)
    ensures |r| == |payload|
    ensures forall i :: 0 <= i < |payload| ==> r[i] == FailedRecord(payload[i].id, message)
  {
    seq(|payload|, i requires 0 <= i < |payload| => FailedRecord(OrEmpty(Some(payload[i].id)), message))
  }

  /** The failures one flush of `payload` records, whatever the outcome. */
  function FlushFailures<P, V>(payload: seq<Record<P, V>>, outcome: InsertOutcome): (r: seq<FailedRecord>)
    ensures outcome.Replied? ==> r == AddManyResultOf(outcome.reply).failedRecords
    ensures outcome.Raised? ==> |r| == |payload|
    ensures outcome.Raised? ==>
              forall i :: 0 <= i < |payload| ==> r[i].id == payload[i].id && r[i].error == outcome.message
  {
    match outcome
    case Replied(reply) => AddManyResultOf(reply).failedRecords
    case Raised(message) => FailuresFor(payload, message)
  }

  /** The exception a flush lets escape: the collaborator's, and only under
      the `raise` policy. */
  function FlushRaise(outcome: InsertOutcome, onError: OnError): (r: Option<string>)
    ensures r.Some? <==> outcome.Raised? && onError == Raise
    ensures r.Some? ==> r.value == outcome.message
  {
    if outcome.Raised? && onError == Raise then Some(outcome.message) else None
  }

  // ---------------------------------------------------------------------
  // The manager and the writer

  /** `IndexBatch`: hands out writers and keeps the failure list of the
      last writer that closed cleanly. */
  class IndexBatch {
    var failedRecords: seq<FailedRecord>

    constructor ()
      ensures failedRecords == []
    {
      failedRecords := [];
    }

    /** `with_size`: a new writer reporting back to this manager. */
    method WithSize<P, V>(batchSize: int := 200, maxWorkers: int := 1, onError: OnError := Continue)
      returns (w: SizedBatchWriter<P, V>)
      ensures fresh(w) && w.Valid()
      ensures w.manager == this
      ensures w.batchSize == AtLeastOne(batchSize) && w.maxWorkers == AtLeastOne(maxWorkers)
      ensures w.onError == onError
      ensures w.buffer == [] && w.failedRecords == [] && w.insertCalls == []
    {
      w := new SizedBatchWriter(this, batchSize, maxWorkers, onError);
    }
  }

  /** `_SizedBatchWriter`. `insertCalls` is not a field of `_SizedBatchWriter`: it
      is the record of the calls the writer made to the collaborator, so
      that contracts can say what each flush submitted. */
  class SizedBatchWriter<P, V> {
    const manager: IndexBatch
    const batchSize: nat
    const maxWorkers: nat
    const onError: OnError
    var buffer: seq<Record<P, V>>
    var failedRecords: seq<FailedRecord>
    var numberErrors: nat
    var insertCalls: seq<InsertCall<P, V>>

    /** The accounting invariant: the error count is the failure list's
        length, and both configured sizes are at least 1. */
    ghost predicate Consistent()
      reads this
    {
      batchSize >= 1 && maxWorkers >= 1 && numberErrors == |failedRecords|
    }

    /** The invariant between public calls: also, the buffer holds fewer
        records than a batch. */
    ghost predicate Valid()
      reads this
    {
      Consistent() && |buffer| < batchSize
    }

    /** The call a flush of `payload` makes: duplicates are errors, item
        errors do not abort the call. */
    function CallFor(payload: seq<Record<P, V>>): (c: InsertCall<P, V>)
      reads this
      ensures c.objects == Objects(payload)
      ensures c.onDuplicate == "error" && c.onError == Continue
      ensures c.batchSize == batchSize && c.maxWorkers == maxWorkers
    {
      InsertCall(Objects(payload), "error", Continue, batchSize, maxWorkers)
    }

    constructor (manager: IndexBatch, batchSize: int, maxWorkers: int, onError: OnError)
      ensures Valid()
      ensures this.manager == manager
      ensures this.batchSize == AtLeastOne(batchSize) && this.maxWorkers == AtLeastOne(maxWorkers)
      ensures this.onError == onError
      ensures buffer == [] && failedRecords == [] && numberErrors == 0 && insertCalls == []
    {
      this.manager := manager;
      this.batchSize := AtLeastOne(batchSize);
      this.maxWorkers := AtLeastOne(maxWorkers);
      this.onError := onError;
      buffer := [];
      failedRecords := [];
      numberErrors := 0;
      insertCalls := [];
    }

    /** `__enter__`: the writer itself. */
    method Enter() returns (w: SizedBatchWriter<P, V>)
      ensures w == this
    {
      w := this;
    }

    /** `flush`: submit the whole buffer as one call and empty it. An empty
        buffer makes no call and changes nothing. `raised` is the exception
        that escapes, if any. */
    method Flush(outcome: InsertOutcome) returns (raised: Option<string>)
      requires Consistent() && |buffer| <= batchSize
      modifies this
      ensures Valid() && buffer == []
      ensures old(buffer) == [] ==>
                && failedRecords == old(failedRecords)
                && numberErrors == old(numberErrors)
                && insertCalls == old(insertCalls)
                && raised == None
      ensures old(buffer) != [] ==>
                && insertCalls == old(insertCalls) + [CallFor(old(buffer))]
                && failedRecords == old(failedRecords) + FlushFailures(old(buffer), outcome)
                && numberErrors == old(numberErrors) + |FlushFailures(old(buffer), outcome)|
                && raised == FlushRaise(outcome, onError)
    {
      raised := None;
      if buffer == [] {
        return;
      }
      var payload := buffer;
      buffer := [];
      insertCalls := insertCalls + [CallFor(payload)];
      match outcome {
        case Replied(reply) =>
          var result := AddManyResultOf(reply);
          numberErrors := numberErrors + result.NumberErrors();
          failedRecords := failedRecords + result.failedRecords;
        case Raised(message) =>
          numberErrors := numberErrors + |payload|;
          failedRecords := failedRecords + FailuresFor(payload, message);
          if onError == Raise {
            raised := Some(message);
          }
      }
    }

    /** `add`: buffer a record under the caller's id or the fresh one and
        flush once the buffer holds a full batch. Returns the id, or the
        exception that flush let escape. */
    method Add(properties: P, vector: V, id: Option<string>, freshId: string, outcome: InsertOutcome)
      returns (r: Result<string, string>)
      requires Valid()
      modifies this
      ensures Valid()
      ensures var rec := Record(properties, vector, AssignedId(id, freshId));
              var pending := old(buffer) + [rec];
              if |pending| < batchSize then
                && buffer == pending
                && failedRecords == old(failedRecords)
                && numberErrors == old(numberErrors)
                && insertCalls == old(insertCalls)
                && r == Ok(rec.id)
              else
                && buffer == []
                && insertCalls == old(insertCalls) + [CallFor(pending)]
                && failedRecords == old(failedRecords) + FlushFailures(pending, outcome)
                && numberErrors == old(numberErrors) + |FlushFailures(pending, outcome)|
                && r == (if FlushRaise(outcome, onError).Some? then Err(outcome.message) else Ok(rec.id))
    {
      var outId := AssignedId(id, freshId);
      buffer := buffer + [Record(properties, vector, outId)];
      if |buffer| >= batchSize {
        var raised := Flush(outcome);
        if raised.Some? {
          return Err(raised.value);
        }
      }
      r := Ok(outId);
    }

    /** `__exit__`: a final flush, then the failure list is copied to the
        manager. If that flush raises, the copy is skipped and its exception
        escapes; otherwise the exception `pending` that ended the `with`
        body, if any, escapes unchanged (it is never suppressed). */
    method Exit(pending: Option<string>, outcome: InsertOutcome) returns (escaping: Option<string>)
      requires Valid()
      modifies this, manager
      ensures Valid() && buffer == []
      ensures old(buffer) == [] ==>
                && failedRecords == old(failedRecords)
                && insertCalls == old(insertCalls)
      ensures old(buffer) != [] ==>
                && insertCalls == old(insertCalls) + [CallFor(old(buffer))]
                && failedRecords == old(failedRecords) + FlushFailures(old(buffer), outcome)
      ensures var raised := if old(buffer) == [] then None else FlushRaise(outcome, onError);
              if raised.Some? then
                manager.failedRecords == old(manager.failedRecords) && escaping == raised
              else
                manager.failedRecords == failedRecords && escaping == pending
    {
      var raised := Flush(outcome);
      if raised.Some? {
        return raised;
      }
      manager.failedRecords := failedRecords;
      escaping := pending;
    }
  }

  /** The life of a writer with batch size 2 fed three records: adding the
      second flushes the first two, closing flushes the third; two calls in
      all, and the manager ends with every failure the writer saw. */
  method TwoBatches<P, V>(a: Record<P, V>, b: Record<P, V>, c: Record<P, V>,
                          first: InsertManyReply, second: InsertManyReply)
    returns (calls: seq<InsertCall<P, V>>, managerFailures: seq<FailedRecord>)
    ensures calls == [InsertCall(Objects([a, b]), "error", Continue, 2, 1),
                      InsertCall(Objects([c]), "error", Continue, 2, 1)]
    ensures managerFailures == AddManyResultOf(first).failedRecords + AddManyResultOf(second).failedRecords
  {
    var m := new IndexBatch();
    var w: SizedBatchWriter<P, V> := m.WithSize(2, 1, Continue);
    var _ := w.Add(a.properties, a.vector, Some(a.id), "", Replied(first));
    assert w.buffer == [a] && w.insertCalls == [];
    var _ := w.Add(b.properties, b.vector, Some(b.id), "", Replied(first));
    assert [a] + [Record(b.properties, b.vector, AssignedId(Some(b.id), ""))] == [a, b];
    assert w.buffer == [];
    assert w.insertCalls == [w.CallFor([a, b])];
    var _ := w.Add(c.properties, c.vector, Some(c.id), "", Replied(second));
    assert w.buffer == [c];
    var _ := w.Exit(None, Replied(second));
    calls := w.insertCalls;
    managerFailures := m.failedRecords;
  }
}
