// Grouping a list by a key into a dict of lists, the way the service does
// it with `d.setdefault`-style loops (`if k not in d: d[k] = []; d[k].append(x)`):
// keys in order of first appearance, each list in input order.

module Grouping {

  /** Appends `v` under key `k`, opening a new group at the end for a new key. */
  function AddToGroup<K(==), V>(groups: seq<(K, seq<V>)>, k: K, v: V): seq<(K, seq<V>)>
  {
    if groups == [] then [(k, [v])]
    else if groups[0].0 == k then [(k, groups[0].1 + [v])] + groups[1..]
    else [groups[0]] + AddToGroup(groups[1..], k, v)
  }

  function GroupBy<K(==), V>(vs: seq<V>, key: V -> K): seq<(K, seq<V>)>
  {
    if vs == [] then [] else AddToGroup(GroupBy(vs[..|vs| - 1], key), key(vs[|vs| - 1]), vs[|vs| - 1])
  }

  /** The elements with key `k`, in input order. */
  function WithKey<K(==), V>(vs: seq<V>, key: V -> K, k: K): (r: seq<V>)
    ensures |r| <= |vs|
    ensures forall i :: 0 <= i < |r| ==> key(r[i]) == k
  {
    if vs == [] then []
    else
      var init := WithKey(vs[..|vs| - 1], key, k);
      if key(vs[|vs| - 1]) == k then init + [vs[|vs| - 1]] else init
  }

  function KeysOf<K(==), V>(vs: seq<V>, key: V -> K): set<K>
  {
    if vs == [] then {} else KeysOf(vs[..|vs| - 1], key) + {key(vs[|vs| - 1])}
  }

  function GroupKeys<K(==), V>(groups: seq<(K, seq<V>)>): set<K>
  {
    if groups == [] then {} else {groups[0].0} + GroupKeys(groups[1..])
  }

  predicate DistinctKeys<K(==), V>(groups: seq<(K, seq<V>)>)
  {
    groups == [] || (groups[0].0 !in GroupKeys(groups[1..]) && DistinctKeys(groups[1..]))
  }

  /** The list under key `k`, or [] when there is no such group. */
  function GroupOf<K(==), V>(groups: seq<(K, seq<V>)>, k: K): seq<V>
  {
    if groups == [] then [] else if groups[0].0 == k then groups[0].1 else GroupOf(groups[1..], k)
  }

  /** Adding opens a group only for a new key and keeps the keys distinct. */
  lemma {:induction false} AddToGroupKeys<K, V>(groups: seq<(K, seq<V>)>, k: K, v: V)
    requires DistinctKeys(groups)
    ensures DistinctKeys(AddToGroup(groups, k, v))
    ensures GroupKeys(AddToGroup(groups, k, v)) == GroupKeys(groups) + {k}
  {
    if groups != [] && groups[0].0 != k {
      AddToGroupKeys(groups[1..], k, v);
    }
  }

  /** Adding appends to the group of its own key and to no other. */
  lemma {:induction false} AddToGroupOf<K, V>(groups: seq<(K, seq<V>)>, k: K, v: V, j: K)
    ensures GroupOf(AddToGroup(groups, k, v), j) == GroupOf(groups, j) + (if j == k then [v] else [])
  {
    if groups != [] && groups[0].0 != k {
      AddToGroupOf(groups[1..], k, v, j);
    }
  }

  /**
   * One group per distinct key, and the group of each key holds exactly the
   * elements with that key, in input order.
   */
  lemma {:induction false} GroupBySpec<K, V>(vs: seq<V>, key: V -> K)
    ensures DistinctKeys(GroupBy(vs, key))
    ensures GroupKeys(GroupBy(vs, key)) == KeysOf(vs, key)
    ensures forall k :: GroupOf(GroupBy(vs, key), k) == WithKey(vs, key, k)
  {
    if vs != [] {
      var init := vs[..|vs| - 1];
      var v := vs[|vs| - 1];
      GroupBySpec(init, key);
      AddToGroupKeys(GroupBy(init, key), key(v), v);
      forall k ensures GroupOf(GroupBy(vs, key), k) == WithKey(vs, key, k)
      {
        AddToGroupOf(GroupBy(init, key), key(v), v, k);
      }
    }
  }

  lemma {:induction false} GroupKeysHas<K, V>(groups: seq<(K, seq<V>)>, i: nat)
    requires i < |groups|
    ensures groups[i].0 in GroupKeys(groups)
  {
    if i > 0 {
      GroupKeysHas(groups[1..], i - 1);
    }
  }

  lemma {:induction false} GroupOfAt<K, V>(groups: seq<(K, seq<V>)>, i: nat)
    requires DistinctKeys(groups) && i < |groups|
    ensures GroupOf(groups, groups[i].0) == groups[i].1
  {
    if i > 0 {
      GroupKeysHas(groups[1..], i - 1);
      GroupOfAt(groups[1..], i - 1);
    }
  }

  /** The keys of two different groups differ. */
  lemma {:induction false} DistinctKeysAt<K, V>(groups: seq<(K, seq<V>)>, i: nat, j: nat)
    requires DistinctKeys(groups) && i < j < |groups|
    ensures groups[i].0 != groups[j].0
  {
    if i == 0 {
      GroupKeysHas(groups[1..], j - 1);
    } else {
      DistinctKeysAt(groups[1..], i - 1, j - 1);
    }
  }

  /** Each group of `GroupBy` is exactly the elements with its key, and its key occurs in the input. */
  lemma GroupAt<K, V>(vs: seq<V>, key: V -> K, i: nat)
    requires i < |GroupBy(vs, key)|
    ensures GroupBy(vs, key)[i].1 == WithKey(vs, key, GroupBy(vs, key)[i].0)
    ensures GroupBy(vs, key)[i].0 in KeysOf(vs, key)
  {
    var groups := GroupBy(vs, key);
    GroupBySpec(vs, key);
    GroupOfAt(groups, i);
    assert GroupOf(groups, groups[i].0) == WithKey(vs, key, groups[i].0);
    GroupKeysHas(groups, i);
  }

  /** A key that occurs has at least one element, and one that does not has none. */
  lemma {:induction false} WithKeyEmpty<K, V>(vs: seq<V>, key: V -> K, k: K)
    ensures WithKey(vs, key, k) == [] <==> k !in KeysOf(vs, key)
  {
    if vs != [] {
      WithKeyEmpty(vs[..|vs| - 1], key, k);
    }
  }

  /** The `by_type` loop: grouping element by element. */
  method GroupElements<K(==), V>(vs: seq<V>, key: V -> K) returns (groups: seq<(K, seq<V>)>)
    ensures groups == GroupBy(vs, key)
  {
    groups := [];
    for i := 0 to |vs|
      invariant groups == GroupBy(vs[..i], key)
    {
      assert vs[..i + 1][..i] == vs[..i];
      groups := AddToGroup(groups, key(vs[i]), vs[i]);
    }
    assert vs[..|vs|] == vs;
  }
}
