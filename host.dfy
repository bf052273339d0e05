/**
 * The side of tracing that drives a layer: a program's spans and events
 * reach the layer as a sequence of callbacks, each gated the way the
 * subscriber gates it. A span or event whose level the layer's `enabled`
 * refuses is never created, so it never reaches the layer. `Run` is the
 * reference meaning of such a sequence; `Drive` replays it against a
 * `Registry` and is proved to agree.
 */
module Host {
  import opened Json
  import opened Levels
  import opened Visitor
  import opened SpanStore
  import opened ScopeMerge
  import opened Event
  import opened Layer

  /** One callback the subscriber makes into the layer. */
  datatype Callback =
    | Open(id: SpanId, attrs: seq<Field>, level: Level)
    | Update(id: SpanId, values: seq<Field>)
    | Fire(scope: seq<SpanId>, own: seq<Field>, meta: Metadata, timestamp: string)

  /** What the layer has accumulated: the span stores and the records written. */
  datatype State = State(storage: Table, output: seq<Value>)

  const Initial := State(map[], [])

  /** Every span of the scope has a store. */
  predicate Covers(table: Table, scope: seq<SpanId>) {
    forall i | 0 <= i < |scope| :: scope[i] in table
  }

  /**
   * One callback. A record on a span without a store, or an event inside
   * one, stops at the `unwrap` and leaves the state as it was; a span or an
   * event the level gate refuses never reaches the layer.
   */
  function Step(layer: JsonLayer, s: State, c: Callback): (r: State)
    ensures c.Open? && Enabled(layer, c.level) ==> r.output == s.output && r.storage.Keys == s.storage.Keys + {c.id}
    ensures c.Open? && !Enabled(layer, c.level) ==> r == s
    ensures c.Update? ==> r.output == s.output && r.storage.Keys == s.storage.Keys
    ensures c.Fire? ==> r.storage == s.storage
    ensures c.Fire? && Enabled(layer, c.meta.level) && Covers(s.storage, c.scope) ==>
              r.output == s.output + [Object(EventRecord(StoresOf(s.storage, c.scope), c.own, c.meta, c.timestamp))]
    ensures c.Fire? && !(Enabled(layer, c.meta.level) && Covers(s.storage, c.scope)) ==> r == s
  {
    match c
    case Open(id, attrs, level) =>
      if Enabled(layer, level) then State(NewSpan(s.storage, id, attrs), s.output) else s
    case Update(id, values) =>
      if id in s.storage then State(SpanStore.Record(s.storage, id, values), s.output) else s
    case Fire(scope, own, meta, timestamp) =>
      if Enabled(layer, meta.level) && Covers(s.storage, scope)
      then State(s.storage, s.output + [Object(EventRecord(StoresOf(s.storage, scope), own, meta, timestamp))])
      else s
  }

  /** Opening an admitted span gives it a store holding its visited attributes. */
  lemma StepOpen(layer: JsonLayer, s: State, id: SpanId, attrs: seq<Field>, level: Level)
    requires Enabled(layer, level)
    ensures Step(layer, s, Open(id, attrs, level)) == State(s.storage[id := VisitAll(map[], attrs)], s.output)
  {
  }

  /** Recording on a span with a store visits the values into that store. */
  lemma StepUpdate(layer: JsonLayer, s: State, id: SpanId, values: seq<Field>)
    requires id in s.storage
    ensures Step(layer, s, Update(id, values)) == State(s.storage[id := VisitAll(s.storage[id], values)], s.output)
  {
  }

  /** An admitted event whose spans all have stores appends its record. */
  lemma StepFire(layer: JsonLayer, s: State, scope: seq<SpanId>, own: seq<Field>, meta: Metadata, timestamp: string)
    requires Enabled(layer, meta.level) && Covers(s.storage, scope)
    ensures Step(layer, s, Fire(scope, own, meta, timestamp))
         == State(s.storage, s.output + [Object(EventRecord(StoresOf(s.storage, scope), own, meta, timestamp))])
  {
  }

  /** The callbacks in order, the last one applied to what the others left. */
  function Run(layer: JsonLayer, s: State, calls: seq<Callback>): State
    decreases |calls|
  {
    if |calls| == 0 then s else Step(layer, Run(layer, s, calls[..|calls| - 1]), calls[|calls| - 1])
  }

  /** `Run` on one to four callbacks, unfolded. */
  lemma RunOne(l: JsonLayer, s: State, calls: seq<Callback>)
    requires |calls| == 1
    ensures Run(l, s, calls) == Step(l, s, calls[0])
  {
    assert calls[..0] == [];
  }

  lemma RunTwo(l: JsonLayer, s: State, calls: seq<Callback>)
    requires |calls| == 2
    ensures Run(l, s, calls) == Step(l, Step(l, s, calls[0]), calls[1])
  {
    RunOne(l, s, calls[..1]);
  }

  lemma RunThree(l: JsonLayer, s: State, calls: seq<Callback>)
    requires |calls| == 3
    ensures Run(l, s, calls) == Step(l, Step(l, Step(l, s, calls[0]), calls[1]), calls[2])
  {
    RunTwo(l, s, calls[..2]);
  }

  lemma RunFour(l: JsonLayer, s: State, calls: seq<Callback>)
    requires |calls| == 4
    ensures Run(l, s, calls) == Step(l, Step(l, Step(l, Step(l, s, calls[0]), calls[1]), calls[2]), calls[3])
  {
    RunThree(l, s, calls[..3]);
  }

  /** `Step` keeps stores flat and records flat objects. */
  lemma StepWellFormed(layer: JsonLayer, s: State, c: Callback)
    requires WellFormed(s.storage, s.output)
    ensures var r := Step(layer, s, c); WellFormed(r.storage, r.output)
  {
    match c
    case Open(id, attrs, level) =>
      assert Flat(map[]);
    case Update(id, values) =>
    case Fire(scope, own, meta, timestamp) =>
      if Enabled(layer, meta.level) && Covers(s.storage, scope) {
        StoresOfFlat(s.storage, scope);
      }
  }

  /** The layer only ever appends to its output. */
  lemma {:induction false} RunAppendsOnly(layer: JsonLayer, s: State, calls: seq<Callback>)
    ensures s.output <= Run(layer, s, calls).output
    decreases |calls|
  {
    if |calls| > 0 {
      RunAppendsOnly(layer, s, calls[..|calls| - 1]);
    }
  }

  /** A well-formed state stays well-formed whatever the callbacks. */
  lemma {:induction false} RunWellFormed(layer: JsonLayer, s: State, calls: seq<Callback>)
    requires WellFormed(s.storage, s.output)
    ensures var r := Run(layer, s, calls); WellFormed(r.storage, r.output)
    decreases |calls|
  {
    if |calls| > 0 {
      RunWellFormed(layer, s, calls[..|calls| - 1]);
      StepWellFormed(layer, Run(layer, s, calls[..|calls| - 1]), calls[|calls| - 1]);
    }
  }

  /** Running two sequences one after the other is running their concatenation. */
  lemma {:induction false} RunConcat(layer: JsonLayer, s: State, a: seq<Callback>, b: seq<Callback>)
    ensures Run(layer, s, a + b) == Run(layer, Run(layer, s, a), b)
    decreases |b|
  {
    if |b| == 0 {
      assert a + b == a;
    } else {
      assert (a + b)[..|a + b| - 1] == a + b[..|b| - 1];
      RunConcat(layer, s, a, b[..|b| - 1]);
    }
  }

  /**
   * A span the gate refuses leaves no trace: removing its `Open` from any
   * callback sequence changes neither the stores nor the output.
   */
  lemma RefusedSpanInvisible(layer: JsonLayer, s: State, a: seq<Callback>, b: seq<Callback>,
                             id: SpanId, attrs: seq<Field>, level: Level)
    requires !Enabled(layer, level)
    ensures Run(layer, s, a + [Open(id, attrs, level)] + b) == Run(layer, s, a + b)
  {
    RunConcat(layer, s, a + [Open(id, attrs, level)], b);
    RunConcat(layer, s, a, [Open(id, attrs, level)]);
    RunOne(layer, Run(layer, s, a), [Open(id, attrs, level)]);
    RunConcat(layer, s, a, b);
  }

  /** The `Update` callbacks that make the given on_record calls, in order. */
  function Updates(calls: seq<RecordCall>): (r: seq<Callback>)
    ensures |r| == |calls|
  {
    seq(|calls|, i requires 0 <= i < |calls| => Update(calls[i].id, calls[i].values))
  }

  /**
   * A run of `Update` callbacks on spans that have stores does what
   * `RecordAll` does to the stores, so its per-span last-write-wins law holds
   * of `Run` too; the output is untouched.
   */
  lemma {:induction false} UpdatesMatchRecordAll(layer: JsonLayer, s: State, calls: seq<RecordCall>)
    requires Targets(s.storage, calls)
    ensures Run(layer, s, Updates(calls)) == State(RecordAll(s.storage, calls), s.output)
    decreases |calls|
  {
    if |calls| > 0 {
      var init := calls[..|calls| - 1];
      assert Targets(s.storage, init) by {
        forall i | 0 <= i < |init| ensures init[i].id in s.storage {
          assert init[i] == calls[i];
        }
      }
      assert Updates(calls)[..|calls| - 1] == Updates(init);
      UpdatesMatchRecordAll(layer, s, init);
    }
  }

  /**
   * Last write wins under any interleaving of `Update` callbacks: a key
   * recorded on a span holds the value of its last recording there.
   */
  lemma UpdatesLastRecordWins(layer: JsonLayer, s: State, calls: seq<RecordCall>, id: SpanId, k: string)
    requires Targets(s.storage, calls) && id in s.storage
    requires k in Names(FieldsFor(calls, id))
    ensures id in Run(layer, s, Updates(calls)).storage && LastValue(FieldsFor(calls, id), k).Some?
    ensures k in Run(layer, s, Updates(calls)).storage[id]
    ensures Run(layer, s, Updates(calls)).storage[id][k] == ToJson(LastValue(FieldsFor(calls, id), k).value)
  {
    UpdatesMatchRecordAll(layer, s, calls);
    LastRecordWins(s.storage, calls, id, k);
  }

  /** Deliver one callback to a registry, gated the way the subscriber gates it. */
  method Deliver(r: Registry, c: Callback)
    requires r.Valid()
    modifies r
    ensures r.Valid()
    ensures State(r.storage, r.output) == Step(r.layer, State(old(r.storage), old(r.output)), c)
  {
    match c {
      case Open(id, attrs, level) =>
        if Enabled(r.layer, level) {
          r.OnNewSpan(id, attrs);
        }
      case Update(id, values) =>
        var outcome := r.OnRecord(id, values);
      case Fire(scope, own, meta, timestamp) =>
        if Enabled(r.layer, meta.level) {
          var outcome := r.OnEvent(scope, own, meta, timestamp);
        }
    }
  }

  /** Replay the callbacks against a registry, in the order tracing makes them. */
  method Drive(r: Registry, calls: seq<Callback>)
    requires r.Valid()
    modifies r
    ensures r.Valid()
    ensures State(r.storage, r.output) == Run(r.layer, State(old(r.storage), old(r.output)), calls)
  {
    ghost var start := State(r.storage, r.output);
    var i := 0;
    while i < |calls|
      invariant 0 <= i <= |calls|
      invariant r.Valid()
      invariant State(r.storage, r.output) == Run(r.layer, start, calls[..i])
    {
      assert calls[..i + 1][..i] == calls[..i];
      Deliver(r, calls[i]);
      i := i + 1;
    }
    assert calls[..i] == calls;
  }

  /** A fresh registry with `layer` attached, driven through `calls`: what its output received. */
  method Replay(layer: JsonLayer, calls: seq<Callback>) returns (records: seq<Value>)
    ensures records == Run(layer, Initial, calls).output
    ensures forall i | 0 <= i < |records| :: IsRecord(records[i])
  {
    var r := new Registry(layer);
    Drive(r, calls);
    records := r.output;
  }
}
