/**
 * The JsonLayer: its configuration and builder methods, its level gate, and
 * its three callbacks acting on the span side table and the output.
 */
module Layer {
  import opened Wrappers
  import opened Json
  import opened Levels
  import opened Visitor
  import opened SpanStore
  import opened ScopeMerge
  import opened Event

  /** Where records go: JsonStdout (compact or pretty) or the output of the tests. */
  datatype Output = Stdout(pretty: bool) | TestOutput

  /** The format used to render timestamps; a custom one is kept as its description. */
  datatype TimestampFormat = Iso8601Default | Description(text: string)

  /** The layer's configuration, fixed once built. */
  datatype JsonLayer = JsonLayer(output: Output, timestampFormat: TimestampFormat, maxLevel: LevelFilter)

  /** The default layer: compact stdout, ISO 8601 timestamps, up to INFO. */
  function Default(): (l: JsonLayer)
    ensures l.output == Stdout(false) && l.timestampFormat == Iso8601Default
    ensures AdmittedLevels(l.maxLevel) == {Error, Warn, Info}
  {
    JsonLayer(Stdout(false), Iso8601Default, UpTo(Info))
  }

  /** The default layer writing pretty-printed JSON; nothing else differs. */
  function Pretty(): (l: JsonLayer)
    ensures l.output == Stdout(true)
    ensures l.timestampFormat == Default().timestampFormat && l.maxLevel == Default().maxLevel
  {
    WithOutput(Default(), Stdout(true))
  }

  /** Replaces the output and keeps the other two components. */
  function WithOutput(l: JsonLayer, output: Output): (r: JsonLayer)
    ensures r.output == output
    ensures r.timestampFormat == l.timestampFormat && r.maxLevel == l.maxLevel
  {
    JsonLayer(output, l.timestampFormat, l.maxLevel)
  }

  /** Replaces the timestamp format and keeps the other two components. */
  function WithTimestampFormat(l: JsonLayer, format: TimestampFormat): (r: JsonLayer)
    ensures r.timestampFormat == format
    ensures r.output == l.output && r.maxLevel == l.maxLevel
  {
    JsonLayer(l.output, format, l.maxLevel)
  }

  /** Replaces the level filter and keeps the other two components. */
  function WithLevel(l: JsonLayer, maxLevel: LevelFilter): (r: JsonLayer)
    ensures r.maxLevel == maxLevel
    ensures r.output == l.output && r.timestampFormat == l.timestampFormat
  {
    JsonLayer(l.output, l.timestampFormat, maxLevel)
  }

  /** Builders touch disjoint components, so their order does not matter. */
  lemma BuildersCommute(l: JsonLayer, o: Output, f: TimestampFormat, m: LevelFilter)
    ensures WithLevel(WithOutput(l, o), m) == WithOutput(WithLevel(l, m), o)
    ensures WithTimestampFormat(WithOutput(l, o), f) == WithOutput(WithTimestampFormat(l, f), o)
    ensures WithLevel(WithTimestampFormat(l, f), m) == WithTimestampFormat(WithLevel(l, m), f)
  {
  }

  /** A later call of the same builder replaces the earlier one's choice. */
  lemma BuildersLastWins(l: JsonLayer, o1: Output, o2: Output, f1: TimestampFormat, f2: TimestampFormat,
                         m1: LevelFilter, m2: LevelFilter)
    ensures WithOutput(WithOutput(l, o1), o2) == WithOutput(l, o2)
    ensures WithTimestampFormat(WithTimestampFormat(l, f1), f2) == WithTimestampFormat(l, f2)
    ensures WithLevel(WithLevel(l, m1), m2) == WithLevel(l, m2)
  {
  }

  /** The level gate: a span or event passes iff its level is at most the filter. */
  function Enabled(l: JsonLayer, level: Level): (r: bool)
    ensures r <==> level in AdmittedLevels(l.maxLevel)
  {
    AdmitsMatchesListing(l.maxLevel, level);
    Admits(l.maxLevel, level)
  }

  /** The hint given to tracing: filtering by it admits exactly what the gate admits. */
  function MaxLevelHint(l: JsonLayer): (r: Option<LevelFilter>)
    ensures r.Some?
    ensures forall level :: Enabled(l, level) <==> Admits(r.value, level)
  {
    Some(l.maxLevel)
  }

  /** The default gate passes INFO and refuses DEBUG and TRACE; OFF passes nothing. */
  lemma DefaultGate(level: Level)
    ensures Enabled(Default(), Info) && !Enabled(Default(), Debug) && !Enabled(Default(), Trace)
    ensures !Enabled(WithLevel(Default(), Off), level)
    ensures Enabled(WithLevel(Default(), UpTo(Trace)), level)
  {
  }

  /** A more restrictive filter lets through a subset of what a less restrictive one does. */
  lemma GateMonotone(l: JsonLayer, f: LevelFilter, g: LevelFilter, level: Level)
    requires FilterVerbosity(f) <= FilterVerbosity(g)
    requires Enabled(WithLevel(l, f), level)
    ensures Enabled(WithLevel(l, g), level)
  {
    AdmitsMonotone(f, g);
  }

  /** How a callback ended: normally, or at the `unwrap` of a span without a store. */
  datatype Outcome = Completed | MissingStorage(id: SpanId)

  /** Every store is flat and every record sent is a flat JSON object. */
  predicate WellFormed(storage: Table, output: seq<Value>) {
    && (forall id | id in storage :: Flat(storage[id]))
    && (forall i | 0 <= i < |output| :: IsRecord(output[i]))
  }

  /**
   * A registry with the layer attached: the field store tracing keeps in
   * each span's extensions, and the records the layer's output received.
   */
  class Registry {
    const layer: JsonLayer
    var storage: Table
    var output: seq<Value>

    ghost predicate Valid()
      reads this
    {
      WellFormed(storage, output)
    }

    constructor (layer: JsonLayer)
      ensures Valid()
      ensures this.layer == layer && storage == map[] && output == []
    {
      this.layer := layer;
      storage := map[];
      output := [];
    }

    /** on_new_span: visit the initial fields into a fresh map and store it. */
    method OnNewSpan(id: SpanId, attrs: seq<Field>)
      requires Valid()
      modifies this
      ensures Valid()
      ensures storage == NewSpan(old(storage), id, attrs)
      ensures output == old(output)
    {
      var visitor := new JsonVisitor(map[]);
      visitor.Visit(attrs);
      storage := storage[id := visitor.fields];
    }

    /** on_record: visit the new values into the span's existing store. */
    method OnRecord(id: SpanId, values: seq<Field>) returns (outcome: Outcome)
      requires Valid()
      modifies this
      ensures Valid()
      ensures outcome == if id in old(storage) then Completed else MissingStorage(id)
      ensures outcome.Completed? ==> storage == Record(old(storage), id, values)
      ensures outcome.MissingStorage? ==> storage == old(storage)
      ensures output == old(output)
    {
      if id !in storage {
        return MissingStorage(id);
      }
      var visitor := new JsonVisitor(storage[id]);
      visitor.Visit(values);
      storage := storage[id := visitor.fields];
      outcome := Completed;
    }

    /**
     * on_event for an event inside `scope` (root first): merge the spans'
     * fields, visit the event's own fields, write the reserved keys, and
     * hand exactly one object to the output. `timestamp` is the current
     * time rendered in the configured format.
     */
    method OnEvent(scope: seq<SpanId>, own: seq<Field>, meta: Metadata, timestamp: string)
      returns (outcome: Outcome)
      requires Valid()
      modifies this
      ensures Valid()
      ensures storage == old(storage)
      ensures outcome.Completed? <==> forall i | 0 <= i < |scope| :: scope[i] in old(storage)
      ensures outcome.Completed? ==>
        output == old(output) + [Object(EventRecord(StoresOf(old(storage), scope), own, meta, timestamp))]
      ensures outcome.MissingStorage? ==> output == old(output) && outcome.id !in old(storage)
      ensures outcome.MissingStorage? ==>
        exists j :: 0 <= j < |scope| && scope[j] == outcome.id && forall i | 0 <= i < j :: scope[i] in old(storage)
    {
      var spanFields := CollectSpanFields(storage, scope);
      if spanFields.Missing? {
        return MissingStorage(spanFields.id);
      }
      var visitor := new JsonVisitor(spanFields.fields);
      visitor.Visit(own);
      var fields := visitor.fields;
      InsertDefaultFields(fields, meta, timestamp);
      fields := fields["target" := String(meta.target)];
      fields := fields["name" := String(meta.name)];
      fields := fields["log_level" := String(AsStr(meta.level))];
      fields := fields["timestamp" := String(timestamp)];
      StoresOfFlat(storage, scope);
      assert fields == EventRecord(StoresOf(storage, scope), own, meta, timestamp);
      output := output + [Object(fields)];
      outcome := Completed;
    }
  }
}
