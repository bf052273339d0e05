/**
 * Small identities of sequence and map displays, stated once for any
 * element type so that proofs about concrete records can use them without
 * unfolding displays of strings and JSON values.
 */
module Collections {

  lemma AppendToEmpty<T>(a: T)
    ensures [] + [a] == [a]
  {
  }

  lemma AppendToSingleton<T>(a: T, b: T)
    ensures [a] + [b] == [a, b]
  {
  }

  lemma JoinPairs<T>(a: T, b: T, c: T, d: T)
    ensures [a, b] + [c, d] == [a, b, c, d]
  {
  }

  /** Overlaying a one-entry map is one insert. */
  lemma OverlayOne<K, V>(m: map<K, V>, k: K, v: V)
    ensures m + map[k := v] == m[k := v]
  {
  }

  lemma InsertIntoEmpty<K, V>(k: K, v: V)
    ensures map[][k := v] == map[k := v]
  {
  }

  lemma InsertAnother<K, V>(k1: K, v1: V, k2: K, v2: V)
    ensures map[k1 := v1][k2 := v2] == map[k1 := v1, k2 := v2]
  {
  }

  /** A second insert under the same key replaces the first. */
  lemma Overwrite<K, V>(m: map<K, V>, k: K, a: V, b: V)
    ensures m[k := a][k := b] == m[k := b]
  {
  }

  /** The same, with an insert under another key in between. */
  lemma OverwriteAcross<K, V>(m: map<K, V>, k: K, a: V, j: K, b: V, c: V)
    requires k != j
    ensures m[k := a][j := b][k := c] == m[j := b][k := c]
  {
  }
}
