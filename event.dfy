/**
 * Event assembly in on_event: the merged span fields, then the event's own
 * fields, then four reserved keys written unconditionally.
 */
module Event {
  import opened Wrappers
  import opened Json
  import opened Levels
  import opened Visitor
  import opened SpanStore
  import opened ScopeMerge

  /** The parts of an event's metadata that the record shows. */
  datatype Metadata = Metadata(target: string, name: string, level: Level)

  const ReservedKeys: set<string> := {"target", "name", "log_level", "timestamp"}

  /** The reserved keys and their values; `timestamp` is already rendered. */
  function DefaultFields(meta: Metadata, timestamp: string): (r: map<string, Value>)
    ensures r.Keys == ReservedKeys
    ensures Flat(r)
  {
    map["target" := String(meta.target),
        "name" := String(meta.name),
        "log_level" := String(AsStr(meta.level)),
        "timestamp" := String(timestamp)]
  }

  /** Inserting the reserved keys one after the other overlays them on the map. */
  lemma InsertDefaultFields(m: map<string, Value>, meta: Metadata, timestamp: string)
    ensures m["target" := String(meta.target)]
             ["name" := String(meta.name)]
             ["log_level" := String(AsStr(meta.level))]
             ["timestamp" := String(timestamp)]
         == m + DefaultFields(meta, timestamp)
  {
  }

  /** The fields of the object on_event hands to the output. */
  function EventRecord(stores: seq<Store>, own: seq<Field>, meta: Metadata, timestamp: string)
    : (r: map<string, Value>)
    ensures r.Keys == AllKeys(stores) + Names(own) + ReservedKeys
    ensures AllFlat(stores) ==> Flat(r)
  {
    VisitAll(MergeChain(stores), own) + DefaultFields(meta, timestamp)
  }

  /** The reserved keys always appear, with the metadata's values, whatever the fields say. */
  lemma ReservedKeysOverride(stores: seq<Store>, own: seq<Field>, meta: Metadata, timestamp: string)
    ensures var r := EventRecord(stores, own, meta, timestamp);
      && r["target"] == String(meta.target)
      && r["name"] == String(meta.name)
      && r["log_level"] == String(AsStr(meta.level))
      && r["timestamp"] == String(timestamp)
  {
  }

  /** The `log_level` a record shows identifies the level of the event that produced it. */
  lemma LogLevelIdentifiesLevel(stores1: seq<Store>, own1: seq<Field>, meta1: Metadata, timestamp1: string,
                                stores2: seq<Store>, own2: seq<Field>, meta2: Metadata, timestamp2: string)
    requires EventRecord(stores1, own1, meta1, timestamp1)["log_level"]
          == EventRecord(stores2, own2, meta2, timestamp2)["log_level"]
    ensures meta1.level == meta2.level
  {
    ReservedKeysOverride(stores1, own1, meta1, timestamp1);
    ReservedKeysOverride(stores2, own2, meta2, timestamp2);
    AsStrInjective(meta1.level, meta2.level);
  }

  /** A field the event sets overrides every span field of the same name. */
  lemma EventFieldsOverrideSpans(stores: seq<Store>, own: seq<Field>, meta: Metadata,
                                 timestamp: string, k: string)
    requires k !in ReservedKeys && exists i :: 0 <= i < |own| && own[i].name == k
    ensures k in Names(own) && LastValue(own, k).Some?
    ensures EventRecord(stores, own, meta, timestamp)[k] == ToJson(LastValue(own, k).value)
  {
    NamesIff(own, k);
    LastValueDefined(own, k);
    VisitAllLastWins(MergeChain(stores), own, k);
  }

  /**
   * A key neither reserved nor set by the event shows the value of the
   * innermost span that holds it.
   */
  lemma InnermostSpanWins(stores: seq<Store>, own: seq<Field>, meta: Metadata,
                          timestamp: string, k: string, j: nat)
    requires k !in ReservedKeys && k !in Names(own)
    requires j < |stores| && k in stores[j]
    requires forall i | j < i < |stores| :: k !in stores[i]
    ensures k in EventRecord(stores, own, meta, timestamp)
    ensures EventRecord(stores, own, meta, timestamp)[k] == stores[j][k]
  {
    MergeChainInnermostWins(stores, j, k);
    LastValueDefined(own, k);
    VisitAllLastWins(MergeChain(stores), own, k);
  }

  /**
   * No key is dropped: a key is in the record iff it is reserved, set by
   * the event, or held by some span of the chain.
   */
  lemma RecordKeys(stores: seq<Store>, own: seq<Field>, meta: Metadata, timestamp: string, k: string)
    ensures k in EventRecord(stores, own, meta, timestamp) <==>
      k in ReservedKeys || k in Names(own) || exists i :: 0 <= i < |stores| && k in stores[i]
  {
    AllKeysIff(stores, k);
  }

  /** Outside any span the record holds only the event's fields and the reserved keys. */
  lemma NoEnclosingSpan(own: seq<Field>, meta: Metadata, timestamp: string)
    ensures EventRecord([], own, meta, timestamp).Keys == Names(own) + ReservedKeys
    ensures EventRecord([], own, meta, timestamp)
         == VisitAll(map[], own) + DefaultFields(meta, timestamp)
  {
  }
}
