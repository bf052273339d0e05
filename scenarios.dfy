/**
 * The scenarios of the source's unit tests, as the callbacks tracing makes
 * for them in order. Each lemma states what the test output receives; the
 * name is the callsite name and the timestamps are left free.
 */
module Scenarios {
  import opened Json
  import opened Levels
  import opened Visitor
  import opened SpanStore
  import opened ScopeMerge
  import opened Event
  import opened Layer
  import opened Host
  import opened Collections

  const Target := "tracing_json_span_fields::tests"

  /** A test-output layer with the default configuration. */
  function TestLayer(): (l: JsonLayer)
    ensures l.output == TestOutput && l.maxLevel == UpTo(Info)
  {
    WithOutput(Default(), TestOutput)
  }

  /** The record that a test expects: its fields plus the reserved keys. */
  function Expected(fields: map<string, Value>, name: string, level: Level, timestamp: string): Value {
    Object(fields + DefaultFields(Metadata(Target, name, level), timestamp))
  }

  lemma StoresOfOne(table: Table, a: SpanId)
    requires a in table
    ensures StoresOf(table, [a]) == [table[a]]
  {
  }

  lemma StoresOfTwo(table: Table, a: SpanId, b: SpanId)
    requires a in table && b in table
    ensures StoresOf(table, [a, b]) == [table[a], table[b]]
  {
  }

  /** The bit pattern of the double 1.1. */
  const OnePointOne := F64(0x3FF1_9999_9999_999A)

  /** The record of an event with one or two own fields, outside any span. */
  lemma RecordOutsideSpans(f: Field, g: Field, meta: Metadata, ts: string)
    ensures EventRecord([], [f], meta, ts) == map[f.name := ToJson(f.value)] + DefaultFields(meta, ts)
    ensures EventRecord([], [f, g], meta, ts)
         == map[f.name := ToJson(f.value)][g.name := ToJson(g.value)] + DefaultFields(meta, ts)
  {
    VisitAllPair(map[], f, g);
  }

  /** The record of an event with one or two own fields inside one span. */
  lemma RecordInOneSpan(store: Store, f: Field, g: Field, meta: Metadata, ts: string)
    ensures EventRecord([store], [f], meta, ts) == store[f.name := ToJson(f.value)] + DefaultFields(meta, ts)
    ensures EventRecord([store], [f, g], meta, ts)
         == store[f.name := ToJson(f.value)][g.name := ToJson(g.value)] + DefaultFields(meta, ts)
  {
    MergeChainPair([store]);
    VisitAllPair(store, f, g);
  }

  /** The record of an event with two own fields inside two nested spans. */
  lemma RecordInTwoSpans(outer: Store, inner: Store, f: Field, g: Field, meta: Metadata, ts: string)
    ensures EventRecord([outer, inner], [f, g], meta, ts)
         == (outer + inner)[f.name := ToJson(f.value)][g.name := ToJson(g.value)] + DefaultFields(meta, ts)
  {
    MergeChainPair([outer, inner]);
    VisitAllPair(outer + inner, f, g);
  }

  /** An event with one or two own fields inside one span opened with one attribute. */
  lemma InOneSpan(top: SpanId, k: string, v: FieldValue, f: Field, g: Field, name: string, level: Level, ts: string)
    ensures Object(EventRecord(StoresOf(map[top := VisitAll(map[], [Field(k, v)])], [top]), [f], Metadata(Target, name, level), ts))
         == Expected(map[k := ToJson(v), f.name := ToJson(f.value)], name, level, ts)
    ensures Object(EventRecord(StoresOf(map[top := VisitAll(map[], [Field(k, v)])], [top]), [f, g], Metadata(Target, name, level), ts))
         == Expected(map[k := ToJson(v), f.name := ToJson(f.value), g.name := ToJson(g.value)], name, level, ts)
  {
    var store := map[k := ToJson(v)];
    VisitAllPair(map[], Field(k, v), Field(k, v));
    StoresOfOne(map[top := store], top);
    RecordInOneSpan(store, f, g, Metadata(Target, name, level), ts);
  }

  /** An event with two own fields inside two nested spans, each opened with one attribute. */
  lemma InTwoSpans(top: SpanId, k1: string, v1: FieldValue, second: SpanId, k2: string, v2: FieldValue,
                   f: Field, g: Field, name: string, level: Level, ts: string)
    requires top != second
    ensures Object(EventRecord(StoresOf(map[top := VisitAll(map[], [Field(k1, v1)]), second := VisitAll(map[], [Field(k2, v2)])],
                                        [top, second]), [f, g], Metadata(Target, name, level), ts))
         == Expected(map[k1 := ToJson(v1), k2 := ToJson(v2), f.name := ToJson(f.value), g.name := ToJson(g.value)], name, level, ts)
  {
    var outer, inner := map[k1 := ToJson(v1)], map[k2 := ToJson(v2)];
    VisitAllPair(map[], Field(k1, v1), Field(k1, v1));
    VisitAllPair(map[], Field(k2, v2), Field(k2, v2));
    StoresOfTwo(map[top := outer, second := inner], top, second);
    OverlayOne(outer, k2, ToJson(v2));
    RecordInTwoSpans(outer, inner, f, g, Metadata(Target, name, level), ts);
  }

  /** An event with two own fields inside a span opened with one attribute and then recorded with one value. */
  lemma RecordedInOneSpan(span: SpanId, k1: string, v1: FieldValue, k2: string, v2: FieldValue,
                          f: Field, g: Field, name: string, level: Level, ts: string)
    ensures Object(EventRecord(StoresOf(map[span := VisitAll(VisitAll(map[], [Field(k1, v1)]), [Field(k2, v2)])], [span]),
                               [f, g], Metadata(Target, name, level), ts))
         == Expected(map[k1 := ToJson(v1), k2 := ToJson(v2), f.name := ToJson(f.value), g.name := ToJson(g.value)], name, level, ts)
  {
    var initial := map[k1 := ToJson(v1)];
    var store := map[k1 := ToJson(v1), k2 := ToJson(v2)];
    VisitAllPair(map[], Field(k1, v1), Field(k1, v1));
    VisitAllPair(initial, Field(k2, v2), Field(k2, v2));
    StoresOfOne(map[span := store], span);
    RecordInOneSpan(store, f, g, Metadata(Target, name, level), ts);
  }

  /** An event with one or two own fields outside every span. */
  lemma OutsideSpans(f: Field, g: Field, name: string, level: Level, ts: string)
    ensures Object(EventRecord([], [f], Metadata(Target, name, level), ts))
         == Expected(map[f.name := ToJson(f.value)], name, level, ts)
    ensures Object(EventRecord([], [f, g], Metadata(Target, name, level), ts))
         == Expected(map[f.name := ToJson(f.value), g.name := ToJson(g.value)], name, level, ts)
  {
    RecordOutsideSpans(f, g, Metadata(Target, name, level), ts);
  }

  /** A span is opened and two admitted events fire inside it. */
  lemma SpanThenTwoEvents(l: JsonLayer, id: SpanId, attrs: seq<Field>,
                          own1: seq<Field>, meta1: Metadata, ts1: string,
                          own2: seq<Field>, meta2: Metadata, ts2: string)
    requires Enabled(l, Info) && Enabled(l, meta1.level) && Enabled(l, meta2.level)
    ensures Run(l, Initial, [Open(id, attrs, Info), Fire([id], own1, meta1, ts1), Fire([id], own2, meta2, ts2)]).output
         == [Object(EventRecord(StoresOf(map[id := VisitAll(map[], attrs)], [id]), own1, meta1, ts1)),
             Object(EventRecord(StoresOf(map[id := VisitAll(map[], attrs)], [id]), own2, meta2, ts2))]
  {
    var calls := [Open(id, attrs, Info), Fire([id], own1, meta1, ts1), Fire([id], own2, meta2, ts2)];
    var spans := map[id := VisitAll(map[], attrs)];
    var rec1 := Object(EventRecord(StoresOf(spans, [id]), own1, meta1, ts1));
    var rec2 := Object(EventRecord(StoresOf(spans, [id]), own2, meta2, ts2));
    var s1 := State(spans, []);
    var s2 := State(spans, [rec1]);
    AppendToEmpty(rec1);
    AppendToSingleton(rec1, rec2);
    RunThree(l, Initial, calls);
    assert calls[0] == Open(id, attrs, Info) && calls[1] == Fire([id], own1, meta1, ts1) && calls[2] == Fire([id], own2, meta2, ts2);
    assert Step(l, Initial, calls[0]) == s1 by {
      StepOpen(l, Initial, id, attrs, Info);
      InsertIntoEmpty(id, VisitAll(map[], attrs));
    }
    assert Covers(spans, [id]);
    StepFire(l, s1, [id], own1, meta1, ts1);
    StepFire(l, s2, [id], own2, meta2, ts2);
  }

  /** Two spans are opened, the second inside the first, and an admitted event fires inside both. */
  lemma TwoSpansThenEvent(l: JsonLayer, outer: SpanId, outerAttrs: seq<Field>, inner: SpanId, innerAttrs: seq<Field>,
                          own: seq<Field>, meta: Metadata, ts: string)
    requires Enabled(l, Info) && outer != inner && Enabled(l, meta.level)
    ensures Run(l, Initial, [Open(outer, outerAttrs, Info), Open(inner, innerAttrs, Info), Fire([outer, inner], own, meta, ts)]).output
         == [Object(EventRecord(StoresOf(map[outer := VisitAll(map[], outerAttrs), inner := VisitAll(map[], innerAttrs)],
                                         [outer, inner]), own, meta, ts))]
  {
    AppendToEmpty(Object(EventRecord(StoresOf(map[outer := VisitAll(map[], outerAttrs), inner := VisitAll(map[], innerAttrs)],
                                              [outer, inner]), own, meta, ts)));
    var calls := [Open(outer, outerAttrs, Info), Open(inner, innerAttrs, Info), Fire([outer, inner], own, meta, ts)];
    var one := map[outer := VisitAll(map[], outerAttrs)];
    var both := map[outer := VisitAll(map[], outerAttrs), inner := VisitAll(map[], innerAttrs)];
    RunThree(l, Initial, calls);
    assert calls[0] == Open(outer, outerAttrs, Info) && calls[1] == Open(inner, innerAttrs, Info) && calls[2] == Fire([outer, inner], own, meta, ts);
    assert Step(l, Initial, calls[0]) == State(one, []) by {
      StepOpen(l, Initial, outer, outerAttrs, Info);
      InsertIntoEmpty(outer, VisitAll(map[], outerAttrs));
    }
    assert Step(l, State(one, []), calls[1]) == State(both, []) by {
      StepOpen(l, State(one, []), inner, innerAttrs, Info);
      InsertAnother(outer, VisitAll(map[], outerAttrs), inner, VisitAll(map[], innerAttrs));
    }
    assert Covers(both, [outer, inner]);
    StepFire(l, State(both, []), [outer, inner], own, meta, ts);
  }

  /** A span is opened, giving table `t`, and an admitted event fires in a scope that `t` covers. */
  lemma OpenThenFire(l: JsonLayer, s: State, id: SpanId, attrs: seq<Field>, t: Table, scope: seq<SpanId>,
                     own: seq<Field>, meta: Metadata, ts: string)
    requires Enabled(l, Info) && Enabled(l, meta.level) && t == s.storage[id := VisitAll(map[], attrs)] && Covers(t, scope)
    ensures Run(l, s, [Open(id, attrs, Info), Fire(scope, own, meta, ts)])
         == State(t, s.output + [Object(EventRecord(StoresOf(t, scope), own, meta, ts))])
  {
    RunTwo(l, s, [Open(id, attrs, Info), Fire(scope, own, meta, ts)]);
    StepOpen(l, s, id, attrs, Info);
    StepFire(l, State(t, s.output), scope, own, meta, ts);
  }

  /** An event in the outer span, then an inner span is opened and an event fires inside both. */
  lemma EventPerNestingDepth(l: JsonLayer, outer: SpanId, outerAttrs: seq<Field>, inner: SpanId, innerAttrs: seq<Field>,
                             own1: seq<Field>, meta1: Metadata, ts1: string,
                             own2: seq<Field>, meta2: Metadata, ts2: string)
    requires Enabled(l, Info) && outer != inner && Enabled(l, meta1.level) && Enabled(l, meta2.level)
    ensures Run(l, Initial, [Open(outer, outerAttrs, Info), Fire([outer], own1, meta1, ts1),
                             Open(inner, innerAttrs, Info), Fire([outer, inner], own2, meta2, ts2)]).output
         == [Object(EventRecord(StoresOf(map[outer := VisitAll(map[], outerAttrs)], [outer]), own1, meta1, ts1)),
             Object(EventRecord(StoresOf(map[outer := VisitAll(map[], outerAttrs), inner := VisitAll(map[], innerAttrs)],
                                         [outer, inner]), own2, meta2, ts2))]
  {
    var first := [Open(outer, outerAttrs, Info), Fire([outer], own1, meta1, ts1)];
    var second := [Open(inner, innerAttrs, Info), Fire([outer, inner], own2, meta2, ts2)];
    var one := map[outer := VisitAll(map[], outerAttrs)];
    var both := map[outer := VisitAll(map[], outerAttrs), inner := VisitAll(map[], innerAttrs)];
    var rec1 := Object(EventRecord(StoresOf(one, [outer]), own1, meta1, ts1));
    var rec2 := Object(EventRecord(StoresOf(both, [outer, inner]), own2, meta2, ts2));
    JoinPairs(first[0], first[1], second[0], second[1]);
    RunConcat(l, Initial, first, second);
    InsertIntoEmpty(outer, VisitAll(map[], outerAttrs));
    assert Covers(one, [outer]);
    OpenThenFire(l, Initial, outer, outerAttrs, one, [outer], own1, meta1, ts1);
    AppendToEmpty(rec1);
    InsertAnother(outer, VisitAll(map[], outerAttrs), inner, VisitAll(map[], innerAttrs));
    assert Covers(both, [outer, inner]);
    OpenThenFire(l, State(one, [rec1]), inner, innerAttrs, both, [outer, inner], own2, meta2, ts2);
    AppendToSingleton(rec1, rec2);
  }

  /** A span is opened, values are recorded on it, and an admitted event fires inside it. */
  lemma SpanRecordedThenEvent(l: JsonLayer, id: SpanId, attrs: seq<Field>, values: seq<Field>,
                              own: seq<Field>, meta: Metadata, ts: string)
    requires Enabled(l, Info) && Enabled(l, meta.level)
    ensures Run(l, Initial, [Open(id, attrs, Info), Update(id, values), Fire([id], own, meta, ts)]).output
         == [Object(EventRecord(StoresOf(map[id := VisitAll(VisitAll(map[], attrs), values)], [id]), own, meta, ts))]
  {
    AppendToEmpty(Object(EventRecord(StoresOf(map[id := VisitAll(VisitAll(map[], attrs), values)], [id]), own, meta, ts)));
    var calls := [Open(id, attrs, Info), Update(id, values), Fire([id], own, meta, ts)];
    var created := map[id := VisitAll(map[], attrs)];
    var recorded := map[id := VisitAll(VisitAll(map[], attrs), values)];
    RunThree(l, Initial, calls);
    assert calls[0] == Open(id, attrs, Info) && calls[1] == Update(id, values) && calls[2] == Fire([id], own, meta, ts);
    assert Step(l, Initial, calls[0]) == State(created, []) by {
      StepOpen(l, Initial, id, attrs, Info);
      InsertIntoEmpty(id, VisitAll(map[], attrs));
    }
    assert Step(l, State(created, []), calls[1]) == State(recorded, []) by {
      StepUpdate(l, State(created, []), id, values);
      Overwrite(map[], id, VisitAll(map[], attrs), VisitAll(VisitAll(map[], attrs), values));
    }
    assert Covers(recorded, [id]);
    StepFire(l, State(recorded, []), [id], own, meta, ts);
  }

  /** Events outside every span: each reaches the output exactly when the gate admits it. */
  lemma EventsWithoutSpan(l: JsonLayer, own1: seq<Field>, meta1: Metadata, ts1: string,
                          own2: seq<Field>, meta2: Metadata, ts2: string)
    ensures Run(l, Initial, [Fire([], own1, meta1, ts1)]).output
         == (if Enabled(l, meta1.level) then [Object(EventRecord([], own1, meta1, ts1))] else [])
    ensures Run(l, Initial, [Fire([], own1, meta1, ts1), Fire([], own2, meta2, ts2)]).output
         == (if Enabled(l, meta1.level) then [Object(EventRecord([], own1, meta1, ts1))] else [])
          + (if Enabled(l, meta2.level) then [Object(EventRecord([], own2, meta2, ts2))] else [])
  {
    RunOne(l, Initial, [Fire([], own1, meta1, ts1)]);
    RunTwo(l, Initial, [Fire([], own1, meta1, ts1), Fire([], own2, meta2, ts2)]);
    assert StoresOf(map[], []) == [];
  }

  /** The first record of one_span_some_fields, from the store the span left. */
  lemma OneSpanSomeFieldsFirstRecord(top: SpanId, ts: string)
    ensures Object(EventRecord(StoresOf(map[top := VisitAll(map[], [Field("field_top", I64Value(0))])], [top]),
                               [Field("message", DebugValue("FOOBAR")), Field("field_event", StrValue("from event"))],
                               Metadata(Target, "event src/lib.rs:389", Info), ts))
         == Expected(map["field_top" := Number(Int(0)), "message" := String("FOOBAR"),
                         "field_event" := String("from event")], "event src/lib.rs:389", Info, ts)
  {
    InOneSpan(top, "field_top", I64Value(0), Field("message", DebugValue("FOOBAR")), Field("field_event", StrValue("from event")),
              "event src/lib.rs:389", Info, ts);
    assert ToJson(I64Value(0)) == Number(Int(0));
    assert ToJson(DebugValue("FOOBAR")) == String("FOOBAR");
    assert ToJson(StrValue("from event")) == String("from event");
  }

  /** The second record of one_span_some_fields. */
  lemma OneSpanSomeFieldsSecondRecord(top: SpanId, ts: string)
    ensures Object(EventRecord(StoresOf(map[top := VisitAll(map[], [Field("field_top", I64Value(0))])], [top]),
                               [Field("message", DebugValue("BAZ"))], Metadata(Target, "event src/lib.rs:390", Error), ts))
         == Expected(map["field_top" := Number(Int(0)), "message" := String("BAZ")], "event src/lib.rs:390", Error, ts)
  {
    InOneSpan(top, "field_top", I64Value(0), Field("message", DebugValue("BAZ")), Field("message", DebugValue("BAZ")),
              "event src/lib.rs:390", Error, ts);
    assert ToJson(I64Value(0)) == Number(Int(0));
    assert ToJson(DebugValue("BAZ")) == String("BAZ");
  }

  /** The test one_span_some_fields: two events, at INFO and at ERROR, inside one span. */
  lemma OneSpanSomeFields(top: SpanId, ts1: string, ts2: string)
    ensures Run(TestLayer(), Initial, [
        Open(top, [Field("field_top", I64Value(0))], Info),
        Fire([top], [Field("message", DebugValue("FOOBAR")), Field("field_event", StrValue("from event"))],
             Metadata(Target, "event src/lib.rs:389", Info), ts1),
        Fire([top], [Field("message", DebugValue("BAZ"))], Metadata(Target, "event src/lib.rs:390", Error), ts2)
      ]).output == [
        Expected(map["field_top" := Number(Int(0)), "message" := String("FOOBAR"),
                     "field_event" := String("from event")], "event src/lib.rs:389", Info, ts1),
        Expected(map["field_top" := Number(Int(0)), "message" := String("BAZ")], "event src/lib.rs:390", Error, ts2)]
  {
    var attrs := [Field("field_top", I64Value(0))];
    var own1 := [Field("message", DebugValue("FOOBAR")), Field("field_event", StrValue("from event"))];
    var own2 := [Field("message", DebugValue("BAZ"))];
    var meta1, meta2 := Metadata(Target, "event src/lib.rs:389", Info), Metadata(Target, "event src/lib.rs:390", Error);
    SpanThenTwoEvents(TestLayer(), top, attrs, own1, meta1, ts1, own2, meta2, ts2);
    OneSpanSomeFieldsFirstRecord(top, ts1);
    OneSpanSomeFieldsSecondRecord(top, ts2);
  }

  /** The record of two_spans_different_fields: both spans' fields appear. */
  lemma TwoSpansDifferentFieldsRecord(top: SpanId, second: SpanId, ts: string)
    requires top != second
    ensures Object(EventRecord(StoresOf(map[top := VisitAll(map[], [Field("field_top", I64Value(0))]),
                                            second := VisitAll(map[], [Field("field_second", I64Value(1))])], [top, second]),
                               [Field("message", DebugValue("FOOBAR")), Field("field_event", StrValue("from event"))],
                               Metadata(Target, "event src/lib.rs:436", Info), ts))
         == Expected(map["field_top" := Number(Int(0)), "field_second" := Number(Int(1)),
                         "message" := String("FOOBAR"), "field_event" := String("from event")],
                     "event src/lib.rs:436", Info, ts)
  {
    InTwoSpans(top, "field_top", I64Value(0), second, "field_second", I64Value(1),
               Field("message", DebugValue("FOOBAR")), Field("field_event", StrValue("from event")), "event src/lib.rs:436", Info, ts);
    assert ToJson(I64Value(0)) == Number(Int(0));
    assert ToJson(I64Value(1)) == Number(Int(1));
    assert ToJson(DebugValue("FOOBAR")) == String("FOOBAR");
    assert ToJson(StrValue("from event")) == String("from event");
  }

  /** The test two_spans_different_fields. */
  lemma TwoSpansDifferentFields(top: SpanId, second: SpanId, ts: string)
    requires top != second
    ensures Run(TestLayer(), Initial, [
        Open(top, [Field("field_top", I64Value(0))], Info),
        Open(second, [Field("field_second", I64Value(1))], Info),
        Fire([top, second], [Field("message", DebugValue("FOOBAR")), Field("field_event", StrValue("from event"))],
             Metadata(Target, "event src/lib.rs:436", Info), ts)
      ]).output == [
        Expected(map["field_top" := Number(Int(0)), "field_second" := Number(Int(1)),
                     "message" := String("FOOBAR"), "field_event" := String("from event")],
                 "event src/lib.rs:436", Info, ts)]
  {
    var attrs1, attrs2 := [Field("field_top", I64Value(0))], [Field("field_second", I64Value(1))];
    var own := [Field("message", DebugValue("FOOBAR")), Field("field_event", StrValue("from event"))];
    var meta := Metadata(Target, "event src/lib.rs:436", Info);
    TwoSpansThenEvent(TestLayer(), top, attrs1, second, attrs2, own, meta, ts);
    TwoSpansDifferentFieldsRecord(top, second, ts);
  }

  /** The record of two_spans_same_fields: the inner span's value wins. */
  lemma TwoSpansSameFieldsRecord(top: SpanId, second: SpanId, ts: string)
    requires top != second
    ensures Object(EventRecord(StoresOf(map[top := VisitAll(map[], [Field("field_overwrite", I64Value(0))]),
                                            second := VisitAll(map[], [Field("field_overwrite", I64Value(1))])], [top, second]),
                               [Field("message", DebugValue("FOOBAR")), Field("field_event", StrValue("from event"))],
                               Metadata(Target, "event src/lib.rs:470", Info), ts))
         == Expected(map["field_overwrite" := Number(Int(1)), "message" := String("FOOBAR"),
                         "field_event" := String("from event")], "event src/lib.rs:470", Info, ts)
  {
    InTwoSpans(top, "field_overwrite", I64Value(0), second, "field_overwrite", I64Value(1),
               Field("message", DebugValue("FOOBAR")), Field("field_event", StrValue("from event")), "event src/lib.rs:470", Info, ts);
    assert ToJson(I64Value(0)) == Number(Int(0));
    assert ToJson(I64Value(1)) == Number(Int(1));
    assert ToJson(DebugValue("FOOBAR")) == String("FOOBAR");
    assert ToJson(StrValue("from event")) == String("from event");
    Overwrite(map[], "field_overwrite", Number(Int(0)), Number(Int(1)));
  }

  /** The test two_spans_same_fields. */
  lemma TwoSpansSameFields(top: SpanId, second: SpanId, ts: string)
    requires top != second
    ensures Run(TestLayer(), Initial, [
        Open(top, [Field("field_overwrite", I64Value(0))], Info),
        Open(second, [Field("field_overwrite", I64Value(1))], Info),
        Fire([top, second], [Field("message", DebugValue("FOOBAR")), Field("field_event", StrValue("from event"))],
             Metadata(Target, "event src/lib.rs:470", Info), ts)
      ]).output == [
        Expected(map["field_overwrite" := Number(Int(1)), "message" := String("FOOBAR"),
                     "field_event" := String("from event")], "event src/lib.rs:470", Info, ts)]
  {
    var attrs1, attrs2 := [Field("field_overwrite", I64Value(0))], [Field("field_overwrite", I64Value(1))];
    var own := [Field("message", DebugValue("FOOBAR")), Field("field_event", StrValue("from event"))];
    var meta := Metadata(Target, "event src/lib.rs:470", Info);
    TwoSpansThenEvent(TestLayer(), top, attrs1, second, attrs2, own, meta, ts);
    TwoSpansSameFieldsRecord(top, second, ts);
  }

  /** The record of two_spans_same_fields_including_event: the event's own value wins over both spans. */
  lemma TwoSpansSameFieldsIncludingEventRecord(top: SpanId, second: SpanId, ts: string)
    requires top != second
    ensures Object(EventRecord(StoresOf(map[top := VisitAll(map[], [Field("field_overwrite", I64Value(0))]),
                                            second := VisitAll(map[], [Field("field_overwrite", I64Value(1))])], [top, second]),
                               [Field("message", DebugValue("FOOBAR")), Field("field_overwrite", StrValue("from event"))],
                               Metadata(Target, "event src/lib.rs:503", Info), ts))
         == Expected(map["message" := String("FOOBAR"), "field_overwrite" := String("from event")],
                     "event src/lib.rs:503", Info, ts)
  {
    InTwoSpans(top, "field_overwrite", I64Value(0), second, "field_overwrite", I64Value(1),
               Field("message", DebugValue("FOOBAR")), Field("field_overwrite", StrValue("from event")), "event src/lib.rs:503", Info, ts);
    assert ToJson(I64Value(0)) == Number(Int(0));
    assert ToJson(I64Value(1)) == Number(Int(1));
    assert ToJson(DebugValue("FOOBAR")) == String("FOOBAR");
    assert ToJson(StrValue("from event")) == String("from event");
    Overwrite(map[], "field_overwrite", Number(Int(0)), Number(Int(1)));
    OverwriteAcross(map[], "field_overwrite", Number(Int(1)), "message", String("FOOBAR"), String("from event"));
  }

  /** The test two_spans_same_fields_including_event. */
  lemma TwoSpansSameFieldsIncludingEvent(top: SpanId, second: SpanId, ts: string)
    requires top != second
    ensures Run(TestLayer(), Initial, [
        Open(top, [Field("field_overwrite", I64Value(0))], Info),
        Open(second, [Field("field_overwrite", I64Value(1))], Info),
        Fire([top, second], [Field("message", DebugValue("FOOBAR")), Field("field_overwrite", StrValue("from event"))],
             Metadata(Target, "event src/lib.rs:503", Info), ts)
      ]).output == [
        Expected(map["message" := String("FOOBAR"), "field_overwrite" := String("from event")],
                 "event src/lib.rs:503", Info, ts)]
  {
    var attrs1, attrs2 := [Field("field_overwrite", I64Value(0))], [Field("field_overwrite", I64Value(1))];
    var own := [Field("message", DebugValue("FOOBAR")), Field("field_overwrite", StrValue("from event"))];
    var meta := Metadata(Target, "event src/lib.rs:503", Info);
    TwoSpansThenEvent(TestLayer(), top, attrs1, second, attrs2, own, meta, ts);
    TwoSpansSameFieldsIncludingEventRecord(top, second, ts);
  }

  /** The first record of two_events_from_two_spans: only the outer span is entered. */
  lemma TwoEventsFromTwoSpansFirstRecord(top: SpanId, ts: string)
    ensures Object(EventRecord(StoresOf(map[top := VisitAll(map[], [Field("field_top", I64Value(0))])], [top]),
                               [Field("message", DebugValue("ONE")), Field("field_event", StrValue("from event one"))],
                               Metadata(Target, "event src/lib.rs:534", Info), ts))
         == Expected(map["field_top" := Number(Int(0)), "message" := String("ONE"),
                         "field_event" := String("from event one")], "event src/lib.rs:534", Info, ts)
  {
    InOneSpan(top, "field_top", I64Value(0), Field("message", DebugValue("ONE")), Field("field_event", StrValue("from event one")),
              "event src/lib.rs:534", Info, ts);
    assert ToJson(I64Value(0)) == Number(Int(0));
    assert ToJson(DebugValue("ONE")) == String("ONE");
    assert ToJson(StrValue("from event one")) == String("from event one");
  }

  /** The second record of two_events_from_two_spans: both spans are entered. */
  lemma TwoEventsFromTwoSpansSecondRecord(top: SpanId, second: SpanId, ts: string)
    requires top != second
    ensures Object(EventRecord(StoresOf(map[top := VisitAll(map[], [Field("field_top", I64Value(0))]),
                                            second := VisitAll(map[], [Field("field_second", I64Value(1))])], [top, second]),
                               [Field("message", DebugValue("TWO")), Field("field_event", StrValue("from event two"))],
                               Metadata(Target, "event src/lib.rs:536", Info), ts))
         == Expected(map["field_top" := Number(Int(0)), "field_second" := Number(Int(1)),
                         "message" := String("TWO"), "field_event" := String("from event two")],
                     "event src/lib.rs:536", Info, ts)
  {
    InTwoSpans(top, "field_top", I64Value(0), second, "field_second", I64Value(1),
               Field("message", DebugValue("TWO")), Field("field_event", StrValue("from event two")), "event src/lib.rs:536", Info, ts);
    assert ToJson(I64Value(0)) == Number(Int(0));
    assert ToJson(I64Value(1)) == Number(Int(1));
    assert ToJson(DebugValue("TWO")) == String("TWO");
    assert ToJson(StrValue("from event two")) == String("from event two");
  }

  /** The test two_events_from_two_spans: each event sees only the spans it is inside. */
  lemma TwoEventsFromTwoSpans(top: SpanId, second: SpanId, ts1: string, ts2: string)
    requires top != second
    ensures Run(TestLayer(), Initial, [
        Open(top, [Field("field_top", I64Value(0))], Info),
        Fire([top], [Field("message", DebugValue("ONE")), Field("field_event", StrValue("from event one"))],
             Metadata(Target, "event src/lib.rs:534", Info), ts1),
        Open(second, [Field("field_second", I64Value(1))], Info),
        Fire([top, second], [Field("message", DebugValue("TWO")), Field("field_event", StrValue("from event two"))],
             Metadata(Target, "event src/lib.rs:536", Info), ts2)
      ]).output == [
        Expected(map["field_top" := Number(Int(0)), "message" := String("ONE"),
                     "field_event" := String("from event one")], "event src/lib.rs:534", Info, ts1),
        Expected(map["field_top" := Number(Int(0)), "field_second" := Number(Int(1)),
                     "message" := String("TWO"), "field_event" := String("from event two")],
                 "event src/lib.rs:536", Info, ts2)]
  {
    var attrs1, attrs2 := [Field("field_top", I64Value(0))], [Field("field_second", I64Value(1))];
    var own1 := [Field("message", DebugValue("ONE")), Field("field_event", StrValue("from event one"))];
    var own2 := [Field("message", DebugValue("TWO")), Field("field_event", StrValue("from event two"))];
    var meta1, meta2 := Metadata(Target, "event src/lib.rs:534", Info), Metadata(Target, "event src/lib.rs:536", Info);
    EventPerNestingDepth(TestLayer(), top, attrs1, second, attrs2, own1, meta1, ts1, own2, meta2, ts2);
    TwoEventsFromTwoSpansFirstRecord(top, ts1);
    TwoEventsFromTwoSpansSecondRecord(top, second, ts2);
  }

  /** The record of one_span_recorded_field: the recorded value joins the initial one. */
  lemma OneSpanRecordedFieldRecord(span: SpanId, ts: string)
    ensures Object(EventRecord(StoresOf(map[span := VisitAll(VisitAll(map[], [Field("span_field", I64Value(0))]),
                                                             [Field("recorded_field", StrValue("foo"))])], [span]),
                               [Field("message", DebugValue("FOOBAR")), Field("event_field", F64Value(OnePointOne))],
                               Metadata(Target, "event src/lib.rs:583", Info), ts))
         == Expected(map["span_field" := Number(Int(0)), "recorded_field" := String("foo"),
                         "message" := String("FOOBAR"), "event_field" := Number(Float(OnePointOne))],
                     "event src/lib.rs:583", Info, ts)
  {
    RecordedInOneSpan(span, "span_field", I64Value(0), "recorded_field", StrValue("foo"),
                      Field("message", DebugValue("FOOBAR")), Field("event_field", F64Value(OnePointOne)), "event src/lib.rs:583", Info, ts);
    assert IsFinite(OnePointOne);
    assert ToJson(I64Value(0)) == Number(Int(0));
    assert ToJson(StrValue("foo")) == String("foo");
    assert ToJson(DebugValue("FOOBAR")) == String("FOOBAR");
    assert ToJson(F64Value(OnePointOne)) == Number(Float(OnePointOne));
  }

  /**
   * The test one_span_recorded_field. The span declares `recorded_field`
   * as `field::Empty`, which tracing does not visit, so only `span_field`
   * is among the initial attributes.
   */
  lemma OneSpanRecordedField(span: SpanId, ts: string)
    ensures Run(TestLayer(), Initial, [
        Open(span, [Field("span_field", I64Value(0))], Info),
        Update(span, [Field("recorded_field", StrValue("foo"))]),
        Fire([span], [Field("message", DebugValue("FOOBAR")), Field("event_field", F64Value(OnePointOne))],
             Metadata(Target, "event src/lib.rs:583", Info), ts)
      ]).output == [
        Expected(map["span_field" := Number(Int(0)), "recorded_field" := String("foo"),
                     "message" := String("FOOBAR"), "event_field" := Number(Float(OnePointOne))],
                 "event src/lib.rs:583", Info, ts)]
  {
    var attrs, values := [Field("span_field", I64Value(0))], [Field("recorded_field", StrValue("foo"))];
    var own := [Field("message", DebugValue("FOOBAR")), Field("event_field", F64Value(OnePointOne))];
    var meta := Metadata(Target, "event src/lib.rs:583", Info);
    SpanRecordedThenEvent(TestLayer(), span, attrs, values, own, meta, ts);
    OneSpanRecordedFieldRecord(span, ts);
  }

  /** The record of one_span_recorded_field_overwriting_initial_field: the recorded value replaces the initial one. */
  lemma OneSpanRecordedFieldOverwritingInitialFieldRecord(span: SpanId, ts: string)
    ensures Object(EventRecord(StoresOf(map[span := VisitAll(VisitAll(map[], [Field("span_field", I64Value(0))]),
                                                             [Field("span_field", StrValue("foo"))])], [span]),
                               [Field("message", DebugValue("FOOBAR")), Field("event_field", F64Value(OnePointOne))],
                               Metadata(Target, "event src/lib.rs:618", Info), ts))
         == Expected(map["span_field" := String("foo"), "message" := String("FOOBAR"),
                         "event_field" := Number(Float(OnePointOne))], "event src/lib.rs:618", Info, ts)
  {
    RecordedInOneSpan(span, "span_field", I64Value(0), "span_field", StrValue("foo"),
                      Field("message", DebugValue("FOOBAR")), Field("event_field", F64Value(OnePointOne)), "event src/lib.rs:618", Info, ts);
    assert IsFinite(OnePointOne);
    assert ToJson(I64Value(0)) == Number(Int(0));
    assert ToJson(StrValue("foo")) == String("foo");
    assert ToJson(DebugValue("FOOBAR")) == String("FOOBAR");
    assert ToJson(F64Value(OnePointOne)) == Number(Float(OnePointOne));
    Overwrite(map[], "span_field", Number(Int(0)), String("foo"));
  }

  /** The test one_span_recorded_field_overwriting_initial_field. */
  lemma OneSpanRecordedFieldOverwritingInitialField(span: SpanId, ts: string)
    ensures Run(TestLayer(), Initial, [
        Open(span, [Field("span_field", I64Value(0))], Info),
        Update(span, [Field("span_field", StrValue("foo"))]),
        Fire([span], [Field("message", DebugValue("FOOBAR")), Field("event_field", F64Value(OnePointOne))],
             Metadata(Target, "event src/lib.rs:618", Info), ts)
      ]).output == [
        Expected(map["span_field" := String("foo"), "message" := String("FOOBAR"),
                     "event_field" := Number(Float(OnePointOne))], "event src/lib.rs:618", Info, ts)]
  {
    var attrs, values := [Field("span_field", I64Value(0))], [Field("span_field", StrValue("foo"))];
    var own := [Field("message", DebugValue("FOOBAR")), Field("event_field", F64Value(OnePointOne))];
    var meta := Metadata(Target, "event src/lib.rs:618", Info);
    SpanRecordedThenEvent(TestLayer(), span, attrs, values, own, meta, ts);
    OneSpanRecordedFieldOverwritingInitialFieldRecord(span, ts);
  }

  /** The record of without_any_spans: the event's fields and the reserved keys only. */
  lemma WithoutAnySpansRecord(ts: string)
    ensures Object(EventRecord([], [Field("message", DebugValue("FOOBAR")), Field("event_field", F64Value(OnePointOne))],
                               Metadata(Target, "event src/lib.rs:649", Info), ts))
         == Expected(map["message" := String("FOOBAR"), "event_field" := Number(Float(OnePointOne))],
                     "event src/lib.rs:649", Info, ts)
  {
    OutsideSpans(Field("message", DebugValue("FOOBAR")), Field("event_field", F64Value(OnePointOne)), "event src/lib.rs:649", Info, ts);
    assert IsFinite(OnePointOne);
    assert ToJson(DebugValue("FOOBAR")) == String("FOOBAR");
    assert ToJson(F64Value(OnePointOne)) == Number(Float(OnePointOne));
  }

  /** The test without_any_spans. */
  lemma WithoutAnySpans(ts: string)
    ensures Run(TestLayer(), Initial, [
        Fire([], [Field("message", DebugValue("FOOBAR")), Field("event_field", F64Value(OnePointOne))],
             Metadata(Target, "event src/lib.rs:649", Info), ts)
      ]).output == [
        Expected(map["message" := String("FOOBAR"), "event_field" := Number(Float(OnePointOne))],
                 "event src/lib.rs:649", Info, ts)]
  {
    var own := [Field("message", DebugValue("FOOBAR")), Field("event_field", F64Value(OnePointOne))];
    var meta := Metadata(Target, "event src/lib.rs:649", Info);
    EventsWithoutSpan(TestLayer(), own, meta, ts, own, meta, ts);
    WithoutAnySpansRecord(ts);
  }

  /**
   * The test custom_timestamp: the timestamp format changes only how the
   * `timestamp` value is rendered, so the record is the one without_any_spans
   * expects, under this callsite's name.
   */
  lemma CustomTimestamp(ts: string)
    ensures Run(WithTimestampFormat(TestLayer(), Description("[year]-[month]-[day] [hour]:[minute]:[second].[subsecond digits:3]")),
                Initial, [
        Fire([], [Field("message", DebugValue("FOOBAR")), Field("event_field", F64Value(OnePointOne))],
             Metadata(Target, "event src/lib.rs:684", Info), ts)
      ]).output == [
        Expected(map["message" := String("FOOBAR"), "event_field" := Number(Float(OnePointOne))],
                 "event src/lib.rs:684", Info, ts)]
  {
    var l := WithTimestampFormat(TestLayer(), Description("[year]-[month]-[day] [hour]:[minute]:[second].[subsecond digits:3]"));
    var own := [Field("message", DebugValue("FOOBAR")), Field("event_field", F64Value(OnePointOne))];
    var meta := Metadata(Target, "event src/lib.rs:684", Info);
    assert Enabled(l, Info);
    EventsWithoutSpan(l, own, meta, ts, own, meta, ts);
    OutsideSpans(own[0], own[1], "event src/lib.rs:684", Info, ts);
    assert IsFinite(OnePointOne);
    assert ToJson(DebugValue("FOOBAR")) == String("FOOBAR");
    assert ToJson(F64Value(OnePointOne)) == Number(Float(OnePointOne));
  }

  /**
   * The tests logging_levels, logging_levels_trace and logging_levels_off,
   * under any filter. Each test fires its two events from its own lines, so
   * the callsite names are parameters.
   */
  lemma LoggingLevels(filter: LevelFilter, name1: string, name2: string, ts1: string, ts2: string)
    ensures Run(WithLevel(TestLayer(), filter), Initial, [
        Fire([], [Field("message", DebugValue("INFO"))], Metadata(Target, name1, Info), ts1),
        Fire([], [Field("message", DebugValue("TRACE"))], Metadata(Target, name2, Trace), ts2)
      ]).output ==
        (if Admits(filter, Info) then [Expected(map["message" := String("INFO")], name1, Info, ts1)] else [])
      + (if Admits(filter, Trace) then [Expected(map["message" := String("TRACE")], name2, Trace, ts2)] else [])
  {
    var own1, own2 := [Field("message", DebugValue("INFO"))], [Field("message", DebugValue("TRACE"))];
    var meta1, meta2 := Metadata(Target, name1, Info), Metadata(Target, name2, Trace);
    EventsWithoutSpan(WithLevel(TestLayer(), filter), own1, meta1, ts1, own2, meta2, ts2);
    OutsideSpans(own1[0], own1[0], name1, Info, ts1);
    OutsideSpans(own2[0], own2[0], name2, Trace, ts2);
    assert ToJson(DebugValue("INFO")) == String("INFO");
    assert ToJson(DebugValue("TRACE")) == String("TRACE");
    AdmitsMatchesListing(filter, Info);
    AdmitsMatchesListing(filter, Trace);
  }

  /** The default INFO filter keeps one of the two events, TRACE keeps both, OFF keeps none. */
  lemma LoggingLevelCounts(name1: string, name2: string, ts1: string, ts2: string)
    ensures var calls := [
        Fire([], [Field("message", DebugValue("INFO"))], Metadata(Target, name1, Info), ts1),
        Fire([], [Field("message", DebugValue("TRACE"))], Metadata(Target, name2, Trace), ts2)];
      && |Run(TestLayer(), Initial, calls).output| == 1
      && |Run(WithLevel(TestLayer(), UpTo(Trace)), Initial, calls).output| == 2
      && |Run(WithLevel(TestLayer(), Off), Initial, calls).output| == 0
  {
    var own1, own2 := [Field("message", DebugValue("INFO"))], [Field("message", DebugValue("TRACE"))];
    var meta1, meta2 := Metadata(Target, name1, Info), Metadata(Target, name2, Trace);
    var info, trace, off := TestLayer(), WithLevel(TestLayer(), UpTo(Trace)), WithLevel(TestLayer(), Off);
    assert Enabled(info, Info) && !Enabled(info, Trace);
    assert Enabled(trace, Info) && Enabled(trace, Trace);
    assert !Enabled(off, Info) && !Enabled(off, Trace);
    EventsWithoutSpan(info, own1, meta1, ts1, own2, meta2, ts2);
    EventsWithoutSpan(trace, own1, meta1, ts1, own2, meta2, ts2);
    EventsWithoutSpan(off, own1, meta1, ts1, own2, meta2, ts2);
  }
}
