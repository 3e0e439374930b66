/** The own properties of a JavaScript object literal, in insertion order:
    `Object.keys`, `Object.values` and the indexing `obj[key]` of a plain
    record whose keys are never integer-like. */
module Entries {
  import opened Wrappers
  import opened Seqs

  type Table<V> = seq<(string, V)>

  function Keys<V>(t: Table<V>): (ks: seq<string>)
    ensures |ks| == |t| && forall i :: 0 <= i < |t| ==> ks[i] == t[i].0
  {
    seq(|t|, i requires 0 <= i < |t| => t[i].0)
  }

  function Values<V>(t: Table<V>): (vs: seq<V>)
    ensures |vs| == |t| && forall i :: 0 <= i < |t| ==> vs[i] == t[i].1
  {
    seq(|t|, i requires 0 <= i < |t| => t[i].1)
  }

  predicate DistinctKeys<V>(t: Table<V>) {
    forall i, j :: 0 <= i < j < |t| ==> t[i].0 != t[j].0
  }

  /** A table has distinct keys when its key list has no duplicates. */
  lemma DistinctKeysOfNoDup<V>(t: Table<V>, keys: seq<string>)
    requires Keys(t) == keys && NoDup(keys)
    ensures DistinctKeys(t)
  {
    forall i, j | 0 <= i < j < |t|
      ensures t[i].0 != t[j].0
    {
      assert Keys(t)[i] != Keys(t)[j];
    }
  }

  /** `obj[key]` for an own key; `None` is `undefined`. */
  function Lookup<V>(t: Table<V>, key: string): (r: Option<V>)
    ensures r.Some? <==> key in Keys(t)
    ensures r.Some? ==> exists i :: 0 <= i < |t| && t[i] == (key, r.value)
  {
    if t == [] then None
    else if t[0].0 == key then Some(t[0].1)
    else
      assert Keys(t) == [t[0].0] + Keys(t[1..]);
      var r := Lookup(t[1..], key);
      assert r.Some? ==> exists i :: 0 <= i < |t[1..]| && t[1..][i] == (key, r.value);
      assert r.Some? ==> exists i :: 1 <= i < |t| && t[i] == (key, r.value);
      r
  }

  /** With distinct keys, looking up the key of an entry finds that entry. */
  lemma {:induction false} LookupAt<V>(t: Table<V>, i: nat)
    requires DistinctKeys(t) && i < |t|
    ensures Lookup(t, t[i].0) == Some(t[i].1)
  {
    if i > 0 {
      assert t[1..][i - 1] == t[i];
      LookupAt(t[1..], i - 1);
    }
  }

  /** The assignment `obj[key] = v`: an existing key keeps its place and takes
      the new value; a new key is appended at the end. */
  function Assign<V>(t: Table<V>, key: string, v: V): (r: Table<V>)
    ensures Keys(r) == if key in Keys(t) then Keys(t) else Keys(t) + [key]
  {
    if key in Keys(t) then
      seq(|t|, i requires 0 <= i < |t| => if t[i].0 == key then (key, v) else t[i])
    else
      t + [(key, v)]
  }

  lemma AssignDistinct<V>(t: Table<V>, key: string, v: V)
    requires DistinctKeys(t)
    ensures DistinctKeys(Assign(t, key, v))
  {
    var r := Assign(t, key, v);
    forall i, j | 0 <= i < j < |r|
      ensures r[i].0 != r[j].0
    {
      assert Keys(r)[i] == r[i].0 && Keys(r)[j] == r[j].0;
    }
  }

  /** After `obj[key] = v`, reading `key` gives `v` and every other key reads
      as before. */
  lemma AssignLookup<V>(t: Table<V>, key: string, v: V, k: string)
    requires DistinctKeys(t)
    ensures Lookup(Assign(t, key, v), k) == if k == key then Some(v) else Lookup(t, k)
  {
    var r := Assign(t, key, v);
    AssignDistinct(t, key, v);
    if k in Keys(r) {
      var i :| 0 <= i < |r| && Keys(r)[i] == k;
      LookupAt(r, i);
      if i < |t| {
        LookupAt(t, i);
      } else {
        assert k == key;
      }
    } else {
      assert k != key;
    }
  }
}
