/**
 * A table built by filing a list of values under keys computed from them,
 * in list order, a later value replacing an earlier one with the same key.
 * The key function is a parameter so that these facts hold whatever the
 * keys are.
 */
module Tables {

  /** The table after inserting `vs` in order, each under `key(v)`. */
  function Build<K, V>(vs: seq<V>, key: V -> K): map<K, V>
  {
    if vs == [] then map[]
    else Build(vs[..|vs| - 1], key)[key(vs[|vs| - 1]) := vs[|vs| - 1]]
  }

  /** The keys of all the values. */
  ghost function Keys<K, V>(vs: seq<V>, key: V -> K): set<K>
  {
    set v | v in vs :: key(v)
  }

  /** Value `j` is the last one in `vs` filed under `k`. */
  ghost predicate LastWithKey<K, V>(vs: seq<V>, key: V -> K, j: int, k: K)
  {
    && 0 <= j < |vs|
    && key(vs[j]) == k
    && forall j' :: j < j' < |vs| ==> key(vs[j']) != k
  }

  lemma KeysSnoc<K, V>(vs: seq<V>, key: V -> K)
    requires vs != []
    ensures Keys(vs, key) == Keys(vs[..|vs| - 1], key) + {key(vs[|vs| - 1])}
  {
    var init, last := vs[..|vs| - 1], vs[|vs| - 1];
    assert vs == init + [last];
    assert forall v :: v in vs <==> v in init || v == last;
  }

  /** The table has one key per value's key, and no other. */
  lemma {:induction false} BuildKeys<K, V>(vs: seq<V>, key: V -> K)
    ensures Build(vs, key).Keys == Keys(vs, key)
  {
    if vs != [] {
      BuildKeys(vs[..|vs| - 1], key);
      KeysSnoc(vs, key);
    }
  }

  /** The table has as many entries as there are distinct keys, never more
      than there are values. */
  lemma {:induction false} BuildSize<K, V>(vs: seq<V>, key: V -> K)
    ensures |Build(vs, key)| == |Keys(vs, key)| <= |vs|
  {
    BuildKeys(vs, key);
    if vs != [] {
      BuildSize(vs[..|vs| - 1], key);
      KeysSnoc(vs, key);
    }
  }

  /** The last value filed under a key is the one the table holds. */
  lemma {:induction false} BuildLastWins<K, V>(vs: seq<V>, key: V -> K, j: int)
    requires 0 <= j < |vs| && LastWithKey(vs, key, j, key(vs[j]))
    ensures key(vs[j]) in Build(vs, key)
    ensures Build(vs, key)[key(vs[j])] == vs[j]
  {
    if j < |vs| - 1 {
      var init := vs[..|vs| - 1];
      assert init[j] == vs[j];
      assert forall j' :: j < j' < |init| ==> init[j'] == vs[j'];
      BuildLastWins(init, key, j);
    }
  }

  /** Every entry of the table is one of the values, filed under its own
      key, and the last value with that key. */
  lemma {:induction false} BuildFromInput<K, V>(vs: seq<V>, key: V -> K, k: K)
    requires k in Build(vs, key)
    ensures exists j :: LastWithKey(vs, key, j, k) && Build(vs, key)[k] == vs[j]
  {
    var n := |vs| - 1;
    if key(vs[n]) == k {
      assert LastWithKey(vs, key, n, k);
    } else {
      var init := vs[..n];
      BuildFromInput(init, key, k);
      var j :| LastWithKey(init, key, j, k) && Build(init, key)[k] == init[j];
      assert forall j' :: 0 <= j' < n ==> init[j'] == vs[j'];
      assert LastWithKey(vs, key, j, k);
    }
  }
}
