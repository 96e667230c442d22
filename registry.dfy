/**
 * The dictionary operations the mods build their registries from: an insert
 * that never overwrites (`TryAdd`, or `ContainsKey` before the indexer),
 * lookup with a default for a missing key, and removal.
 */
module Registry {
  import opened Wrappers

  /** Insert v under k unless k is already present; entries already there are never overwritten. */
  function TryAdd<K, V>(m: map<K, V>, k: K, v: V): (r: map<K, V>)
    ensures r.Keys == m.Keys + {k}
    ensures forall j :: j in m ==> r[j] == m[j]
    ensures k !in m ==> r[k] == v
  {
    if k in m then m else m[k := v]
  }

  /** The value under k, or default (None) when k is absent. */
  function Lookup<K, V>(m: map<K, V>, k: K): (r: Option<V>)
    ensures r.Some? <==> k in m
    ensures r.Some? ==> r.value == m[k]
  {
    if k in m then Some(m[k]) else None
  }

  /** Successive TryAdds of the given entries, in order. */
  function TryAddAll<K, V>(m: map<K, V>, entries: seq<(K, V)>): map<K, V>
    decreases |entries|
  {
    if |entries| == 0 then m else TryAddAll(TryAdd(m, entries[0].0, entries[0].1), entries[1..])
  }

  /** The keys the entries name. */
  function KeysOf<K, V>(entries: seq<(K, V)>): (r: set<K>)
    ensures forall i :: 0 <= i < |entries| ==> entries[i].0 in r
    ensures forall k :: k in r ==> exists i :: 0 <= i < |entries| && entries[i].0 == k
    decreases |entries|
  {
    if |entries| == 0 then {}
    else
      var rest := KeysOf(entries[1..]);
      assert forall k :: k in rest ==> exists i :: 1 <= i < |entries| && entries[i].0 == k by {
        forall k | k in rest ensures exists i :: 1 <= i < |entries| && entries[i].0 == k {
          var j :| 0 <= j < |entries| - 1 && entries[1..][j].0 == k;
          assert entries[j + 1].0 == k;
        }
      }
      {entries[0].0} + rest
  }

  /** The keys after TryAddAll are the old keys and the keys of every entry. */
  lemma {:induction false} TryAddAllKeys<K, V>(m: map<K, V>, entries: seq<(K, V)>)
    ensures TryAddAll(m, entries).Keys == m.Keys + KeysOf(entries)
    decreases |entries|
  {
    if |entries| > 0 {
      TryAddAllKeys(TryAdd(m, entries[0].0, entries[0].1), entries[1..]);
    }
  }

  /** An entry present before TryAddAll keeps its value, whatever the later entries say. */
  lemma {:induction false} TryAddAllKeeps<K, V>(m: map<K, V>, entries: seq<(K, V)>, k: K)
    requires k in m
    ensures k in TryAddAll(m, entries) && TryAddAll(m, entries)[k] == m[k]
    decreases |entries|
  {
    if |entries| > 0 {
      TryAddAllKeeps(TryAdd(m, entries[0].0, entries[0].1), entries[1..], k);
    }
  }

  /** For a key absent before, the first entry that names it is the one kept. */
  lemma {:induction false} TryAddAllFirstWins<K, V>(m: map<K, V>, entries: seq<(K, V)>, i: nat)
    requires i < |entries| && entries[i].0 !in m
    requires forall j :: 0 <= j < i ==> entries[j].0 != entries[i].0
    ensures entries[i].0 in TryAddAll(m, entries) && TryAddAll(m, entries)[entries[i].0] == entries[i].1
    decreases |entries|
  {
    var next := TryAdd(m, entries[0].0, entries[0].1);
    if i == 0 {
      TryAddAllKeeps(next, entries[1..], entries[0].0);
    } else {
      TryAddAllFirstWins(next, entries[1..], i - 1);
    }
  }
}
