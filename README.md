# tracing_json: the JsonLayer context merge, in Dafny

`tracing_json` provides a `tracing_subscriber` layer, `JsonLayer`, that writes
each admitted event as one flat JSON object. The object holds the fields of
every span enclosing the event, then the event's own fields, then four
reserved keys: `target`, `name`, `log_level` and `timestamp`.

The layer keeps a side table of JSON maps, one per span, in the span's
extensions (`CustomFieldStorage`):
- `on_new_span` fills a span's map from its initial attributes.
- `on_record` visits later values into that map.
- `on_event` copies the maps of the event's scope into one accumulator, root
  first, so the innermost span wins. It then visits the event's fields over
  the accumulator and finally inserts the reserved keys.

The project models this engine and proves what it promises:
- last write wins within a span and across `on_record` calls;
- descendant spans override ancestors, and the event overrides every span;
- the reserved keys always carry the metadata's values;
- no key is dropped: a key is in the record iff a span, the event or the
  reserved set supplies it;
- every record sent is a flat object;
- the level gate admits exactly the levels at or below the filter.

Modules, in dependency order:

| module | file | contents |
|---|---|---|
| `Wrappers` | wrappers.dfy | `Option` |
| `Collections` | collections.dfy | identities of sequence and map displays, for any element type, used by the scenario proofs |
| `Json` | json.dfy | the part of serde_json's `Value` that the layer produces |
| `Levels` | levels.dfy | tracing's `Level` and `LevelFilter`, their order, `as_str` |
| `Visitor` | visitor.dfy | field values, their JSON conversion, and the `JsonVisitor` class with its `record_*` methods |
| `SpanStore` | span_store.dfy | the per-span side table and its update on new-span and record |
| `ScopeMerge` | scope_merge.dfy | the root-first merge of the scope's stores, as a function and as the loop `on_event` runs |
| `Event` | event.dfy | assembly of one event's record |
| `Layer` | layer.dfy | the `JsonLayer` configuration, its builders and gate, the state invariant `WellFormed`, and a `Registry` class whose methods are the three callbacks |
| `Host` | host.dfy | a sequence of callbacks as the subscriber delivers them: `Run` gives its meaning and `Drive` runs it against a `Registry` |
| `Scenarios` | scenarios.dfy | each unit test of the source as a callback sequence, with the exact records the test output receives |

Modelling choices:
- The runtime state the source mutates is the class `Layer.Registry`: the
  per-span stores and the records its output received. The
  configuration is an immutable datatype, since every builder consumes
  `self` and returns a new layer.
- A failing `unwrap` is not a panic here. A span without a store (in
  `on_record`, or in `on_event`'s scope walk) returns the outcome
  `MissingStorage(id)` and leaves the state unchanged. `on_event` builds its
  map locally and writes only at the end, so nothing partial survives.
- An `f64` is an opaque 64-bit pattern. `json!(f64)` yields `null` for a NaN
  or an infinity and a number otherwise, and the model does the same.
- `i64` and `u64` become one unbounded JSON integer, since serde_json
  compares integers by value.
- The event's scope is passed as a list of span ids, root first. The current
  time, already formatted, is passed as a string.
- In the scenarios, the `name` key holds a callsite name. The tests check
  only its prefix `event src/lib.rs:`. Where a lemma stands for one test,
  it uses that test's full callsite name. `LoggingLevels` and
  `LoggingLevelCounts` stand for three tests that fire from different
  lines, so there the names are parameters.
- tracing asks the layer's `enabled` about spans as well as events. A
  refused span is never created: `on_new_span` never runs for it, and it is
  never part of any event's scope. An `Open` callback carries the span's
  level and is gated like an event. A `Fire` callback's scope lists the
  spans that tracing created.

## Model

| member | source | states |
|---|---|---|
| Levels.AdmitsMatchesListing | src/lib.rs:162-164 | `level <= max_level` admits exactly the levels listed for each filter, in both directions |
| Levels.OffAndTrace | src/lib.rs:162-164 | OFF admits no level and TRACE admits every level |
| Levels.AdmitsMonotone | src/lib.rs:162-164 | a filter no more verbose than another admits a subset of its levels |
| Levels.AdmitsDownwardClosed | src/lib.rs:162-164 | a filter admitting a level admits every less verbose level |
| Levels.AsStrInjective | src/lib.rs:225-228 | distinct levels get distinct `log_level` labels |
| Visitor.ToJson | src/lib.rs:246-289 | each value kind maps to a scalar: integers and finite doubles to numbers, non-finite doubles to null, strings, errors and debug renderings to strings, bools to bools (each an iff) |
| Visitor.VisitAll | src/lib.rs:169-170 | visiting fields adds exactly their names as keys and keeps the map flat |
| Visitor.VisitAllLastWins | src/lib.rs:246-289 | after visiting, a key holds the converted value of the last field with that name; an unnamed key keeps its old value |
| Visitor.VisitAllConcat | src/lib.rs:197-199 | visiting two value sets in turn equals visiting their concatenation |
| Visitor.JsonVisitor.constructor | src/lib.rs:244 | the visitor borrows the given map unchanged |
| Visitor.JsonVisitor.RecordF64 | src/lib.rs:247-250 | inserts the field's name: a number for a finite double, null otherwise |
| Visitor.JsonVisitor.RecordI64 | src/lib.rs:252-255 | inserts the field's name with the integer value |
| Visitor.JsonVisitor.RecordU64 | src/lib.rs:257-260 | inserts the field's name with the integer value |
| Visitor.JsonVisitor.RecordBool | src/lib.rs:262-265 | inserts the field's name with the boolean |
| Visitor.JsonVisitor.RecordStr | src/lib.rs:267-270 | inserts the field's name with the string |
| Visitor.JsonVisitor.RecordError | src/lib.rs:272-281 | inserts the field's name with the error's Display string |
| Visitor.JsonVisitor.RecordDebug | src/lib.rs:283-288 | inserts the field's name with the Debug rendering |
| Visitor.JsonVisitor.Record | src/lib.rs:246-289 | dispatching one field inserts exactly its converted value under its name |
| Visitor.JsonVisitor.Visit | src/lib.rs:169-170 | recording a value set leaves the map equal to `VisitAll` of the old map, whose last-write-wins law is proved |
| SpanStore.NewSpan | src/lib.rs:166-181 | the new span's store holds exactly its attribute names, each with its last attribute value; other spans keep their stores |
| SpanStore.Record | src/lib.rs:187-200 | recording keeps every span and every existing key, adds exactly the recorded names, and leaves other spans' stores alone |
| SpanStore.RecordAll | src/lib.rs:187-200 | a series of records on existing spans keeps the set of spans |
| SpanStore.RecordAllPerSpan | src/lib.rs:187-200 | however records on different spans interleave, a span's store is its start store with only its own values visited |
| SpanStore.LastRecordWins | src/lib.rs:187-200 | a key recorded on a span holds the value of its last recording there |
| ScopeMerge.MergeChain | src/lib.rs:206-216 | the merged keys are exactly the union of the scope's stores' keys; flat stores merge to a flat map |
| ScopeMerge.AllKeysIff | src/lib.rs:206-216 | a key is merged iff some store of the scope holds it |
| ScopeMerge.MergeChainInnermostWins | src/lib.rs:206-216 | a merged key takes the value of the innermost store that holds it |
| ScopeMerge.StoresOf | src/lib.rs:207-210 | the stores are fetched one per span, in root-first order |
| ScopeMerge.OverlayEntries | src/lib.rs:212-214 | copying every entry into the accumulator yields the accumulator overlaid with the store |
| ScopeMerge.CollectSpanFields | src/lib.rs:206-216 | the walk succeeds iff every span of the scope has a store, and then yields `MergeChain`; otherwise it names the first span without one |
| Event.DefaultFields | src/lib.rs:222-235 | the reserved keys are exactly target, name, log_level and timestamp, all strings |
| Event.InsertDefaultFields | src/lib.rs:222-235 | the four inserts in order overlay the reserved keys on the map |
| Event.EventRecord | src/lib.rs:202-238 | the record's keys are the spans' keys, the event's names and the reserved keys; flat stores give a flat record |
| Event.ReservedKeysOverride | src/lib.rs:222-235 | the reserved keys always hold the metadata's target, name, level label and the timestamp, whatever the fields say |
| Event.LogLevelIdentifiesLevel | src/lib.rs:225-228 | two records with the same `log_level` come from events of the same level |
| Event.EventFieldsOverrideSpans | src/lib.rs:218-220 | a non-reserved key that some field of the event carries holds the event's last value for it, overriding every span |
| Event.InnermostSpanWins | src/lib.rs:206-220 | a key neither reserved nor set by the event holds the innermost span's value |
| Event.RecordKeys | src/lib.rs:202-238 | a key is in the record iff it is reserved, set by the event or held by a span of the scope |
| Event.NoEnclosingSpan | src/lib.rs:206 | with no scope the record holds only the event's fields and the reserved keys |
| Layer.Default | src/lib.rs:104-111 | the default layer writes compact stdout with ISO 8601 timestamps and admits exactly ERROR, WARN and INFO |
| Layer.Pretty | src/lib.rs:115-117 | the pretty layer differs from the default only in pretty output |
| Layer.WithOutput | src/lib.rs:125-134 | replaces the output and keeps format and level |
| Layer.WithTimestampFormat | src/lib.rs:136-145 | replaces the timestamp format and keeps output and level |
| Layer.WithLevel | src/lib.rs:147-153 | replaces the level filter and keeps output and format |
| Layer.BuildersCommute | src/lib.rs:125-153 | builders on different components commute |
| Layer.BuildersLastWins | src/lib.rs:125-153 | a second call of any of the three builders overrides the first |
| Layer.Enabled | src/lib.rs:162-164 | the gate passes a level iff the filter's listed levels contain it |
| Layer.MaxLevelHint | src/lib.rs:183-185 | the hint is always given, and filtering by it admits exactly what the gate admits |
| Layer.DefaultGate | src/lib.rs:104-111 | the default gate passes INFO and refuses DEBUG and TRACE; OFF passes nothing; TRACE passes everything |
| Layer.GateMonotone | src/lib.rs:147-164 | a level passed under a filter is passed under any less restrictive one |
| Layer.Registry.constructor | src/lib.rs:156-161 | a registry with the layer attached starts with no stores and no output |
| Layer.Registry.OnNewSpan | src/lib.rs:166-181 | the table becomes `NewSpan` of the old one and the output is untouched |
| Layer.Registry.OnRecord | src/lib.rs:187-200 | a span with a store gets `Record` of the old table; a span without one is reported and nothing changes |
| Layer.Registry.OnEvent | src/lib.rs:202-241 | an event whose spans all have stores appends exactly one `EventRecord` object; otherwise the first span without a store is reported and nothing changes |
| Host.Step | src/lib.rs:162-241 | opening an admitted span adds it and updating keeps the span set, neither touching the output; a refused span changes nothing; an event leaves the stores alone and appends its record iff admitted and covered |
| Host.StepWellFormed | src/lib.rs:202-241 | each callback keeps every store flat and every record a flat object |
| Host.RunAppendsOnly | src/lib.rs:238-240 | the output only grows: earlier records are never changed or removed |
| Host.RunWellFormed | src/lib.rs:202-241 | any callback sequence keeps stores flat and records flat objects |
| Host.RefusedSpanInvisible | src/lib.rs:162-181 | removing a refused span's `Open` from any callback sequence changes neither the stores nor the output |
| Host.UpdatesMatchRecordAll | src/lib.rs:187-200 | a run of `Update` callbacks on spans with stores leaves the stores as `RecordAll` of the same record calls and the output unchanged |
| Host.UpdatesLastRecordWins | src/lib.rs:187-200 | under any interleaving of `Update` callbacks, a key recorded on a span holds the value of its last recording there |
| Host.RunConcat | src/lib.rs:156-241 | running two callback sequences in turn equals running their concatenation |
| Host.Deliver | src/lib.rs:162-241 | delivering one callback, with spans and events gated by `enabled`, moves the registry to the state `Step` gives |
| Host.Drive | src/lib.rs:156-241 | driving a registry through the callbacks, with spans and events gated by `enabled`, ends in the state `Run` gives |
| Host.Replay | src/lib.rs:367-371 | a fresh registry's output receives exactly the records `Run` gives, each a flat object |
| Scenarios.TestLayer | src/lib.rs:379 | the test layer writes to the test output and admits up to INFO |
| Scenarios.OneSpanSomeFields | src/lib.rs:374-422 | one span, then an INFO and an ERROR event: exactly the two expected records, each with the span's field |
| Scenarios.TwoSpansDifferentFields | src/lib.rs:424-456 | both spans' fields and the event's fields appear in the one record |
| Scenarios.TwoSpansSameFields | src/lib.rs:458-489 | for a key both spans set, the inner span's value appears |
| Scenarios.TwoSpansSameFieldsIncludingEvent | src/lib.rs:491-521 | for a key both spans and the event set, the event's value appears |
| Scenarios.TwoEventsFromTwoSpans | src/lib.rs:523-568 | the event before the inner span opens sees only the outer span; the one after sees both |
| Scenarios.OneSpanRecordedField | src/lib.rs:570-603 | a value recorded after creation appears beside the initial field |
| Scenarios.OneSpanRecordedFieldOverwritingInitialField | src/lib.rs:605-637 | a recorded value replaces the initial value of the same key |
| Scenarios.WithoutAnySpans | src/lib.rs:639-667 | outside every span the record holds the event's fields and the reserved keys |
| Scenarios.CustomTimestamp | src/lib.rs:669-703 | a custom timestamp format leaves the record's fields as without_any_spans expects |
| Scenarios.LoggingLevels | src/lib.rs:705-795 | under any filter, each of the INFO and TRACE events appears iff the filter admits its level |
| Scenarios.LoggingLevelCounts | src/lib.rs:705-795 | the default filter keeps one of the two events, TRACE keeps both, OFF keeps none |

## Left out

- JsonStdout's write (src/lib.rs:83-93): println and serde_json's compact or pretty serialisation are I/O. The model's output is the sequence of values handed to `write`.
- Timestamp generation (src/lib.rs:229-235): the clock and the `time` crate's formatting are outside the model, so the timestamp arrives as a rendered string. The `unwrap` on a format error is not modelled. `TimestampFormat` keeps a custom format only as its description.
- tracing_subscriber's registry: span lookup, extensions and `event_scope` are outside the model. The scope arrives as an explicit root-first list of span ids.
- The `ctx.span(id).unwrap()` in on_new_span (src/lib.rs:176) cannot fail for a span the registry has just created, so it is not modelled.
- Closing a span, which drops its extensions, is not part of this model. The table only grows.
- Concurrency: the locking of extensions and of the test output's mutex is not modelled. Callbacks run one at a time.
- `f64` arithmetic and decimal rendering: a double is an opaque bit pattern, and only finiteness is interpreted.
- Display and Debug rendering of values: the rendered strings are inputs.
- JSON arrays: the layer never produces them, so `Json.Value` has no array case.
- Fields declared `field::Empty` are never visited by tracing, so such fields appear in the scenarios only once recorded.
- The tests' timestamp checks (src/lib.rs:304-361): parsing and comparing against the clock are not modelled. The timestamp is a free parameter of every scenario.
- In one_span_some_fields, the BEFORE and AFTER events (src/lib.rs:383, 393) go to a different global subscriber, not to this layer, so they are not among its callbacks.
- Host.Run: a reference definition by recursion with no contract of its own; its properties are the Host lemmas above.
