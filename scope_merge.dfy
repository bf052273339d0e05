/**
 * The scope merge of on_event: every span store of the event's scope is
 * copied into one accumulator, from the root span to the innermost one,
 * each insert overwriting an existing value for the same key.
 */
module ScopeMerge {
  import opened Json
  import opened SpanStore

  /** Every key of any store in the chain. */
  function AllKeys(stores: seq<Store>): set<string> {
    if |stores| == 0 then {} else AllKeys(stores[..|stores| - 1]) + stores[|stores| - 1].Keys
  }

  /** Every store in the chain holds only scalars. */
  predicate AllFlat(stores: seq<Store>) {
    forall i | 0 <= i < |stores| :: Flat(stores[i])
  }

  /** The accumulator after overlaying the stores root first. */
  function MergeChain(stores: seq<Store>): (r: Store)
    ensures r.Keys == AllKeys(stores)
    ensures AllFlat(stores) ==> Flat(r)
  {
    if |stores| == 0 then map[]
    else MergeChain(stores[..|stores| - 1]) + stores[|stores| - 1]
  }

  /** A key is merged iff some store in the chain holds it. */
  lemma {:induction false} AllKeysIff(stores: seq<Store>, k: string)
    ensures k in AllKeys(stores) <==> exists i :: 0 <= i < |stores| && k in stores[i]
  {
    if |stores| > 0 {
      var init := stores[..|stores| - 1];
      AllKeysIff(init, k);
      if k in AllKeys(init) {
        var i :| 0 <= i < |init| && k in init[i];
        assert k in stores[i];
      }
      if exists i :: 0 <= i < |stores| && k in stores[i] {
        var i :| 0 <= i < |stores| && k in stores[i];
        if i < |stores| - 1 {
          assert k in init[i];
        }
      }
    }
  }

  /**
   * Descendant context wins: a key takes the value of the innermost store
   * that holds it.
   */
  lemma {:induction false} MergeChainInnermostWins(stores: seq<Store>, j: nat, k: string)
    requires j < |stores| && k in stores[j]
    requires forall i | j < i < |stores| :: k !in stores[i]
    ensures k in MergeChain(stores) && MergeChain(stores)[k] == stores[j][k]
  {
    if j < |stores| - 1 {
      var init := stores[..|stores| - 1];
      assert init[j] == stores[j];
      MergeChainInnermostWins(init, j, k);
    }
  }

  /** A scope of one or two spans: the inner store overlays the outer one. */
  lemma MergeChainPair(stores: seq<Store>)
    requires 1 <= |stores| <= 2
    ensures |stores| == 1 ==> MergeChain(stores) == stores[0]
    ensures |stores| == 2 ==> MergeChain(stores) == stores[0] + stores[1]
  {
    assert |stores| == 2 ==> stores[..1][..0] == [];
    assert stores[..|stores| - 1][..0] == [];
    assert map[] + stores[0] == stores[0];
  }

  /** The stores of the spans of a chain, in chain order. */
  function StoresOf(table: Table, chain: seq<SpanId>): (r: seq<Store>)
    requires forall i | 0 <= i < |chain| :: chain[i] in table
    ensures |r| == |chain|
    ensures forall i | 0 <= i < |chain| :: r[i] == table[chain[i]]
  {
    if |chain| == 0 then []
    else StoresOf(table, chain[..|chain| - 1]) + [table[chain[|chain| - 1]]]
  }

  /** Merging one more span of the chain overlays its store on the accumulator. */
  lemma MergeChainStep(table: Table, chain: seq<SpanId>, i: nat)
    requires i < |chain|
    requires forall j | 0 <= j <= i :: chain[j] in table
    ensures MergeChain(StoresOf(table, chain[..i + 1]))
         == MergeChain(StoresOf(table, chain[..i])) + table[chain[i]]
  {
    var s := StoresOf(table, chain[..i + 1]);
    assert chain[..i + 1][..i] == chain[..i];
    assert s[..|s| - 1] == StoresOf(table, chain[..i]);
  }

  /** Stores that hold only scalars yield a chain of flat stores. */
  lemma StoresOfFlat(table: Table, chain: seq<SpanId>)
    requires forall i | 0 <= i < |chain| :: chain[i] in table
    requires forall id | id in table :: Flat(table[id])
    ensures AllFlat(StoresOf(table, chain))
  {
  }

  /** The inner loop of the merge: insert every entry of `m`, overwriting. */
  method OverlayEntries(acc: Store, m: Store) returns (r: Store)
    ensures r == acc + m
  {
    r := acc;
    var todo := m.Keys;
    while todo != {}
      invariant todo <= m.Keys
      invariant r.Keys == acc.Keys + (m.Keys - todo)
      invariant forall k | k in m && k !in todo :: r[k] == m[k]
      invariant forall k | k in acc && k !in m :: r[k] == acc[k]
      invariant forall k | k in acc && k in todo :: r[k] == acc[k]
      decreases todo
    {
      var key :| key in todo;
      r := r[key := m[key]];
      todo := todo - {key};
    }
    assert forall k | k in r :: r[k] == (acc + m)[k];
  }

  /** Result of looking up every store of a chain. */
  datatype Scope = Merged(fields: Store) | Missing(id: SpanId)

  /**
   * The span part of on_event: walk the chain root first, fetch each span's
   * store and overlay it. A span without a store is the `unwrap` failure;
   * it is reported as the first such span of the chain.
   */
  method CollectSpanFields(table: Table, chain: seq<SpanId>) returns (r: Scope)
    ensures r.Merged? <==> forall i | 0 <= i < |chain| :: chain[i] in table
    ensures r.Merged? ==> r.fields == MergeChain(StoresOf(table, chain))
    ensures r.Missing? ==>
      exists j :: 0 <= j < |chain| && chain[j] == r.id && r.id !in table &&
                  forall i | 0 <= i < j :: chain[i] in table
  {
    var fields: Store := map[];
    var i := 0;
    while i < |chain|
      invariant 0 <= i <= |chain|
      invariant forall j | 0 <= j < i :: chain[j] in table
      invariant fields == MergeChain(StoresOf(table, chain[..i]))
    {
      if chain[i] !in table {
        r := Missing(chain[i]);
        assert chain[i] == r.id && forall j | 0 <= j < i :: chain[j] in table;
        return;
      }
      fields := OverlayEntries(fields, table[chain[i]]);
      MergeChainStep(table, chain, i);
      i := i + 1;
    }
    assert chain[..|chain|] == chain;
    r := Merged(fields);
  }
}
