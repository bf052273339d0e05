/**
 * The per-span field store (CustomFieldStorage): a side table from span
 * identifier to the JSON map of that span's fields.
 */
module SpanStore {
  import opened Json
  import opened Visitor

  /** tracing's span Id: a non-zero 64-bit integer. */
  newtype SpanId = x: int | 0 < x < 0x1_0000_0000_0000_0000 witness 1

  type Store = map<string, Value>
  type Table = map<SpanId, Store>

  /**
   * on_new_span: the span gets a store holding exactly its initial fields
   * (replacing whatever an earlier span with a reused id left), and every
   * other span keeps its store.
   */
  function NewSpan(table: Table, id: SpanId, attrs: seq<Field>): (r: Table)
    ensures r.Keys == table.Keys + {id}
    ensures r[id].Keys == Names(attrs)
    ensures forall k | k in r[id] ::
      LastValue(attrs, k).Some? && r[id][k] == ToJson(LastValue(attrs, k).value)
    ensures forall other | other in table && other != id :: r[other] == table[other]
  {
    var store := VisitAll(map[], attrs);
    forall k | k in store
      ensures LastValue(attrs, k).Some? && store[k] == ToJson(LastValue(attrs, k).value)
    {
      VisitAllLastWins(map[], attrs, k);
    }
    table[id := store]
  }

  /**
   * on_record on a span whose store exists: last write wins per key, no key
   * is removed, and every other span keeps its store.
   */
  function Record(table: Table, id: SpanId, values: seq<Field>): (r: Table)
    requires id in table
    ensures r.Keys == table.Keys
    ensures table[id].Keys <= r[id].Keys
    ensures r[id].Keys == table[id].Keys + Names(values)
    ensures forall other | other in table && other != id :: r[other] == table[other]
  {
    table[id := VisitAll(table[id], values)]
  }

  /** One on_record call: the span and the fields recorded on it. */
  datatype RecordCall = RecordCall(id: SpanId, values: seq<Field>)

  /** Every call names a span whose store exists. */
  predicate Targets(table: Table, calls: seq<RecordCall>) {
    forall i | 0 <= i < |calls| :: calls[i].id in table
  }

  /** The table after a sequence of on_record calls, in order. */
  function RecordAll(table: Table, calls: seq<RecordCall>): (r: Table)
    requires Targets(table, calls)
    ensures r.Keys == table.Keys
  {
    if |calls| == 0 then table
    else
      var last := calls[|calls| - 1];
      Record(RecordAll(table, calls[..|calls| - 1]), last.id, last.values)
  }

  /** The fields recorded on one span, in call order. */
  function FieldsFor(calls: seq<RecordCall>, id: SpanId): seq<Field> {
    if |calls| == 0 then []
    else
      var last := calls[|calls| - 1];
      FieldsFor(calls[..|calls| - 1], id) + (if last.id == id then last.values else [])
  }

  /**
   * However on_record calls on different spans interleave, a span's store
   * ends up as its starting store with only its own calls' fields visited.
   */
  lemma {:induction false} RecordAllPerSpan(table: Table, calls: seq<RecordCall>, id: SpanId)
    requires Targets(table, calls) && id in table
    ensures RecordAll(table, calls)[id] == VisitAll(table[id], FieldsFor(calls, id))
  {
    if |calls| > 0 {
      var init := calls[..|calls| - 1];
      var last := calls[|calls| - 1];
      RecordAllPerSpan(table, init, id);
      if last.id == id {
        VisitAllConcat(table[id], FieldsFor(init, id), last.values);
      } else {
        assert FieldsFor(calls, id) == FieldsFor(init, id) + [];
        assert FieldsFor(init, id) + [] == FieldsFor(init, id);
      }
    }
  }

  /**
   * Last write wins across calls: a key recorded on a span holds the value
   * of the last recording of that key on that span, whatever other spans
   * recorded in between.
   */
  lemma LastRecordWins(table: Table, calls: seq<RecordCall>, id: SpanId, k: string)
    requires Targets(table, calls) && id in table
    requires k in Names(FieldsFor(calls, id))
    ensures k in RecordAll(table, calls)[id] && LastValue(FieldsFor(calls, id), k).Some?
    ensures RecordAll(table, calls)[id][k] == ToJson(LastValue(FieldsFor(calls, id), k).value)
  {
    RecordAllPerSpan(table, calls, id);
    LastValueDefined(FieldsFor(calls, id), k);
    VisitAllLastWins(table[id], FieldsFor(calls, id), k);
  }
}
