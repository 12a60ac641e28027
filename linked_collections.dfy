/**
 * Java's insertion-ordered collections: a LinkedHashSet is a duplicate-free
 * sequence, a LinkedHashMap a duplicate-free key sequence beside a map.
 */
module LinkedCollections {
  import opened Wrappers

  /** No element occurs twice. */
  ghost predicate Distinct<T>(s: seq<T>) {
    forall i, j :: 0 <= i < j < |s| ==> s[i] != s[j]
  }

  /** The index of the first occurrence of `x` in `s`. */
  function FirstIndex<T(==)>(s: seq<T>, x: T): (k: nat)
    requires x in s
    ensures k < |s| && s[k] == x
    ensures forall i :: 0 <= i < k ==> s[i] != x
  {
    if s[0] == x then 0 else 1 + FirstIndex(s[1..], x)
  }

  /** `LinkedHashSet.add`: a new element goes to the end, a present one stays where it is. */
  function Add<T(==)>(s: seq<T>, x: T): (r: seq<T>)
    requires Distinct(s)
    ensures Distinct(r)
    ensures x in r && (forall i :: 0 <= i < |r| ==> r[i] in s || r[i] == x)
    ensures |s| <= |r| <= |s| + 1 && r[..|s|] == s
  {
    if x in s then s else s + [x]
  }

  /** `add` of every element of `xs`, in order. */
  function AddAll<T(==)>(s: seq<T>, xs: seq<T>): (r: seq<T>)
    requires Distinct(s)
    ensures Distinct(r)
  {
    if xs == [] then s else Add(AddAll(s, xs[..|xs| - 1]), xs[|xs| - 1])
  }

  /** The duplicate-free sequence a LinkedHashSet holds after adding `xs` to an empty set. */
  function Dedup<T(==)>(xs: seq<T>): (r: seq<T>)
    ensures Distinct(r)
  {
    AddAll([], xs)
  }

  /** The set holds exactly the elements added, each once. */
  lemma {:induction false} AddAllElements<T>(s: seq<T>, xs: seq<T>)
    requires Distinct(s)
    ensures forall y :: y in AddAll(s, xs) <==> y in s || y in xs
  {
    if xs != [] {
      var init := xs[..|xs| - 1];
      AddAllElements(s, init);
      assert xs == init + [xs[|xs| - 1]];
    }
  }

  /** Adding never moves what is already there: the old contents are a prefix. */
  lemma {:induction false} AddAllKeepsPrefix<T>(s: seq<T>, xs: seq<T>)
    requires Distinct(s)
    ensures |s| <= |AddAll(s, xs)| && AddAll(s, xs)[..|s|] == s
  {
    if xs != [] {
      AddAllKeepsPrefix(s, xs[..|xs| - 1]);
    }
  }

  /**
   * First-appearance order: in `Dedup(xs)`, an element comes before another
   * exactly when its first occurrence in `xs` does.
   */
  lemma {:induction false} DedupOrder<T>(xs: seq<T>)
    ensures forall y :: y in Dedup(xs) <==> y in xs
    ensures forall i, j :: 0 <= i < j < |Dedup(xs)| ==>
              FirstIndex(xs, Dedup(xs)[i]) < FirstIndex(xs, Dedup(xs)[j])
  {
    AddAllElements([], xs);
    if xs != [] {
      var init := xs[..|xs| - 1];
      DedupOrder(init);
      assert xs == init + [xs[|xs| - 1]];
      DedupOrderStep(init, xs[|xs| - 1]);
    }
  }

  /** Adding one more element keeps first-appearance order. */
  lemma DedupOrderStep<T>(init: seq<T>, x: T)
    requires forall y :: y in Dedup(init) <==> y in init
    requires forall i, j :: 0 <= i < j < |Dedup(init)| ==>
               FirstIndex(init, Dedup(init)[i]) < FirstIndex(init, Dedup(init)[j])
    ensures forall i, j :: 0 <= i < j < |Dedup(init + [x])| ==>
              FirstIndex(init + [x], Dedup(init + [x])[i]) < FirstIndex(init + [x], Dedup(init + [x])[j])
  {
    var xs := init + [x];
    assert xs[..|xs| - 1] == init;
    var d, r := Dedup(init), Dedup(xs);
    assert r == Add(d, x);
    forall i, j | 0 <= i < j < |r| ensures FirstIndex(xs, r[i]) < FirstIndex(xs, r[j]) {
      OrderPair(init, x, d, r, i, j);
    }
  }

  /** One pair of `Add(d, x)`, where `d` holds exactly the elements of `init` in first-appearance order. */
  lemma OrderPair<T>(init: seq<T>, x: T, d: seq<T>, r: seq<T>, i: nat, j: nat)
    requires Distinct(d) && r == Add(d, x) && i < j < |r|
    requires forall y :: y in d <==> y in init
    requires j < |d| ==> FirstIndex(init, d[i]) < FirstIndex(init, d[j])
    ensures FirstIndex(init + [x], r[i]) < FirstIndex(init + [x], r[j])
  {
    assert r[i] == d[i] && d[i] in init;
    FirstIndexOfPrefix(init, x, r[i]);
    if j < |d| {
      assert r[j] == d[j] && d[j] in init;
      FirstIndexOfPrefix(init, x, r[j]);
    } else {
      assert r == d + [x] && x !in init;
      assert FirstIndex(init + [x], x) == |init|;
    }
  }

  lemma FirstIndexOfPrefix<T>(s: seq<T>, x: T, y: T)
    requires y in s
    ensures FirstIndex(s + [x], y) == FirstIndex(s, y)
  {
    if s[0] != y {
      assert (s + [x])[1..] == s[1..] + [x];
      FirstIndexOfPrefix(s[1..], x, y);
    }
  }

  /**
   * A LinkedHashMap: `keys` in insertion order, `entries` the stored values.
   */
  datatype LinkedMap<K, V> = LinkedMap(keys: seq<K>, entries: map<K, V>) {

    ghost predicate Valid() {
      Distinct(keys) && (forall k :: k in entries ==> k in keys) && (forall i :: 0 <= i < |keys| ==> keys[i] in entries)
    }

    /** The values in key order, as `values()` iterates them. */
    function Values(): (vs: seq<V>)
      requires Valid()
      ensures |vs| == |keys|
      ensures forall i :: 0 <= i < |keys| ==> vs[i] == entries[keys[i]]
    {
      seq(|keys|, i requires 0 <= i < |keys| => entries[keys[i]])
    }

    /** `get`: the stored value, or null. */
    function Get(k: K): (r: Option<V>)
      ensures r.Some? <==> k in entries
      ensures r.Some? ==> r.value == entries[k]
    {
      if k in entries then Some(entries[k]) else None
    }

    /** `put`: replaces the stored value but keeps the key's position; a new key goes last. */
    function Put(k: K, v: V): (m: LinkedMap<K, V>)
      requires Valid()
      ensures m.Valid()
      ensures m.keys == Add(keys, k) && m.entries == entries[k := v]
    {
      LinkedMap(Add(keys, k), entries[k := v])
    }
  }

  function EmptyMap<K, V>(): (m: LinkedMap<K, V>)
    ensures m.Valid() && m.keys == []
  {
    LinkedMap([], map[])
  }

  /** `put(key(x), val(x))` for every `x` of `xs`, in order. */
  function PutAll<T, K, V>(m: LinkedMap<K, V>, xs: seq<T>, key: T -> K, val: T -> V): (r: LinkedMap<K, V>)
    requires m.Valid()
    ensures r.Valid()
  {
    if xs == [] then m
    else
      var last := xs[|xs| - 1];
      PutAll(m, xs[..|xs| - 1], key, val).Put(key(last), val(last))
  }

  /** The map afterwards still holds the keys it held before. */
  lemma {:induction false} PutAllKeepsDomain<T, K, V>(m: LinkedMap<K, V>, xs: seq<T>, key: T -> K, val: T -> V)
    requires m.Valid()
    ensures forall k :: k in m.entries ==> k in PutAll(m, xs, key, val).entries
  {
    if xs != [] {
      PutAllKeepsDomain(m, xs[..|xs| - 1], key, val);
    }
  }

  /** The map afterwards holds the old keys and every key put. */
  lemma {:induction false} PutAllDomain<T, K, V>(m: LinkedMap<K, V>, xs: seq<T>, key: T -> K, val: T -> V)
    requires m.Valid()
    ensures forall k :: k in m.entries ==> k in PutAll(m, xs, key, val).entries
    ensures forall i :: 0 <= i < |xs| ==> key(xs[i]) in PutAll(m, xs, key, val).entries
  {
    PutAllKeepsDomain(m, xs, key, val);
    forall i | 0 <= i < |xs|
      ensures key(xs[i]) in PutAll(m, xs, key, val).entries
    {
      PutAllHasKey(m, xs, key, val, i);
    }
  }

  lemma PutAllHasKey<T, K, V>(m: LinkedMap<K, V>, xs: seq<T>, key: T -> K, val: T -> V, i: nat)
    requires m.Valid() && i < |xs|
    ensures key(xs[i]) in PutAll(m, xs, key, val).entries
  {
    PutAllKeysHaveKey(m, xs, key, val, i);
    KeyHasEntry(PutAll(m, xs, key, val), key(xs[i]));
  }

  lemma PutAllKeysHaveKey<T, K, V>(m: LinkedMap<K, V>, xs: seq<T>, key: T -> K, val: T -> V, i: nat)
    requires m.Valid() && i < |xs|
    ensures key(xs[i]) in PutAll(m, xs, key, val).keys
  {
    var ks := KeysOf(xs, key);
    assert ks[i] in ks;
    assert ks[i] in AddAll(m.keys, ks) by {
      AddAllElements(m.keys, ks);
    }
    PutAllKeys(m, xs, key, val);
  }

  lemma KeyHasEntry<K, V>(r: LinkedMap<K, V>, k: K)
    requires r.Valid() && k in r.keys
    ensures k in r.entries
  {
    var j :| 0 <= j < |r.keys| && r.keys[j] == k;
  }

  /** The keys of `key` applied to each element, in order. */
  function KeysOf<T, K>(xs: seq<T>, key: T -> K): (ks: seq<K>)
    ensures |ks| == |xs| && forall i :: 0 <= i < |xs| ==> ks[i] == key(xs[i])
  {
    seq(|xs|, i requires 0 <= i < |xs| => key(xs[i]))
  }

  /** Every key is put once, in first-appearance order. */
  lemma {:induction false} PutAllKeys<T, K, V>(m: LinkedMap<K, V>, xs: seq<T>, key: T -> K, val: T -> V)
    requires m.Valid()
    ensures PutAll(m, xs, key, val).keys == AddAll(m.keys, KeysOf(xs, key))
  {
    if xs != [] {
      var init := xs[..|xs| - 1];
      PutAllKeys(m, init, key, val);
      assert KeysOf(xs, key)[..|xs| - 1] == KeysOf(init, key);
    }
  }

  /** On a repeated key the value put last is the one kept. */
  lemma {:induction false} PutAllLastWins<T, K, V>(m: LinkedMap<K, V>, xs: seq<T>, key: T -> K, val: T -> V, i: nat)
    requires m.Valid()
    requires i < |xs| && forall j :: i < j < |xs| ==> key(xs[j]) != key(xs[i])
    ensures key(xs[i]) in PutAll(m, xs, key, val).entries
    ensures PutAll(m, xs, key, val).entries[key(xs[i])] == val(xs[i])
  {
    PutAllDomain(m, xs, key, val);
    if i < |xs| - 1 {
      PutAllLastWins(m, xs[..|xs| - 1], key, val, i);
    }
  }

  /** A key no element carries keeps its old value. */
  lemma {:induction false} PutAllUntouched<T, K, V>(m: LinkedMap<K, V>, xs: seq<T>, key: T -> K, val: T -> V, k: K)
    requires m.Valid() && k in m.entries
    requires forall j :: 0 <= j < |xs| ==> key(xs[j]) != k
    ensures k in PutAll(m, xs, key, val).entries
    ensures PutAll(m, xs, key, val).entries[k] == m.entries[k]
  {
    PutAllDomain(m, xs, key, val);
    if xs != [] {
      PutAllUntouched(m, xs[..|xs| - 1], key, val, k);
    }
  }

  /**
   * When every element with the same key carries the same value, the map
   * holds, for each element, exactly that element's value.
   */
  lemma {:induction false} PutAllConsistent<T, K, V>(m: LinkedMap<K, V>, xs: seq<T>, key: T -> K, val: T -> V)
    requires m.Valid()
    requires forall i, j :: 0 <= i < |xs| && 0 <= j < |xs| && key(xs[i]) == key(xs[j]) ==> val(xs[i]) == val(xs[j])
    ensures forall x :: x in xs ==>
              key(x) in PutAll(m, xs, key, val).entries && PutAll(m, xs, key, val).entries[key(x)] == val(x)
  {
    if xs != [] {
      var init, last := xs[..|xs| - 1], xs[|xs| - 1];
      PutAllConsistent(m, init, key, val);
      var r0 := PutAll(m, init, key, val);
      forall x | x in xs
        ensures key(x) in PutAll(m, xs, key, val).entries && PutAll(m, xs, key, val).entries[key(x)] == val(x)
      {
        if x != last {
          var i :| 0 <= i < |xs| && xs[i] == x;
          assert i < |init| && init[i] == x;
          assert r0.entries[key(x)] == val(x);
        }
      }
    }
  }

  /** Every value of a map filled from empty is the value of some element. */
  lemma PutAllValuesFrom<T, K, V>(xs: seq<T>, key: T -> K, val: T -> V)
    requires forall i, j :: 0 <= i < |xs| && 0 <= j < |xs| && key(xs[i]) == key(xs[j]) ==> val(xs[i]) == val(xs[j])
    ensures forall v :: v in PutAll(EmptyMap(), xs, key, val).Values() ==> exists x :: x in xs && val(x) == v
  {
    var m := PutAll(EmptyMap(), xs, key, val);
    var vs := m.Values();
    forall v | v in vs
      ensures exists x :: x in xs && val(x) == v
    {
      var j :| 0 <= j < |vs| && vs[j] == v;
      var k := m.keys[j];
      assert k in KeysOf(xs, key) by {
        PutAllKeys(EmptyMap(), xs, key, val);
        AddAllElements([], KeysOf(xs, key));
        assert k in m.keys;
      }
      var i :| 0 <= i < |xs| && KeysOf(xs, key)[i] == k;
      assert m.entries[key(xs[i])] == val(xs[i]) by {
        PutAllConsistent(EmptyMap(), xs, key, val);
        assert xs[i] in xs;
      }
      assert xs[i] in xs;
    }
  }

  /** The value of every element is a value of the map filled from empty. */
  lemma PutAllValuesCover<T, K, V>(xs: seq<T>, key: T -> K, val: T -> V)
    requires forall i, j :: 0 <= i < |xs| && 0 <= j < |xs| && key(xs[i]) == key(xs[j]) ==> val(xs[i]) == val(xs[j])
    ensures forall x :: x in xs ==> val(x) in PutAll(EmptyMap(), xs, key, val).Values()
  {
    var m := PutAll(EmptyMap(), xs, key, val);
    var vs := m.Values();
    PutAllConsistent(EmptyMap(), xs, key, val);
    forall x | x in xs
      ensures val(x) in vs
    {
      assert key(x) in m.keys;
      var j :| 0 <= j < |m.keys| && m.keys[j] == key(x);
      assert vs[j] == val(x);
    }
  }

  /** Adding one more element is one more `add`. */
  lemma AddAllSnoc<T>(s: seq<T>, xs: seq<T>, x: T)
    requires Distinct(s)
    ensures AddAll(s, xs + [x]) == Add(AddAll(s, xs), x)
  {
    assert (xs + [x])[..|xs|] == xs;
  }

  /** Putting one more element is one more `put`. */
  lemma PutAllSnoc<T, K, V>(m: LinkedMap<K, V>, xs: seq<T>, x: T, key: T -> K, val: T -> V)
    requires m.Valid()
    ensures PutAll(m, xs + [x], key, val) == PutAll(m, xs, key, val).Put(key(x), val(x))
  {
    assert (xs + [x])[..|xs|] == xs;
  }

  lemma KeysOfSnoc<T, K>(xs: seq<T>, x: T, key: T -> K)
    ensures KeysOf(xs + [x], key) == KeysOf(xs, key) + [key(x)]
  {
  }

  /**
   * Putting `xs` into an empty LinkedHashMap: each key once, in order of first
   * appearance, holding the value put last under it.
   */
  lemma PutAllFromEmpty<T, K, V>(xs: seq<T>, key: T -> K, val: T -> V)
    ensures var r, ks := PutAll(EmptyMap(), xs, key, val), KeysOf(xs, key);
      && Distinct(r.keys)
      && (forall k :: k in r.keys <==> k in ks)
      && (forall i, j :: 0 <= i < j < |r.keys| ==> FirstIndex(ks, r.keys[i]) < FirstIndex(ks, r.keys[j]))
      && (forall i :: 0 <= i < |xs| && (forall j :: i < j < |xs| ==> key(xs[j]) != key(xs[i])) ==>
            key(xs[i]) in r.entries && r.entries[key(xs[i])] == val(xs[i]))
  {
    var r, ks := PutAll(EmptyMap(), xs, key, val), KeysOf(xs, key);
    assert r.keys == Dedup(ks) by {
      PutAllKeys(EmptyMap(), xs, key, val);
    }
    DedupOrder(ks);
    assert forall i :: 0 <= i < |xs| && (forall j :: i < j < |xs| ==> key(xs[j]) != key(xs[i])) ==>
            key(xs[i]) in r.entries && r.entries[key(xs[i])] == val(xs[i])
    by {
      forall i | 0 <= i < |xs| && (forall j :: i < j < |xs| ==> key(xs[j]) != key(xs[i]))
        ensures key(xs[i]) in r.entries && r.entries[key(xs[i])] == val(xs[i])
      {
        PutAllLastWins(EmptyMap(), xs, key, val, i);
      }
    }
  }

  /** Concatenated keys are the keys of each part. */
  lemma KeysOfAppend<T, K>(xs: seq<T>, ys: seq<T>, key: T -> K)
    ensures KeysOf(xs + ys, key) == KeysOf(xs, key) + KeysOf(ys, key)
  {
  }

  /** In a concatenation, an element of the first part is first found there, any other one after it. */
  lemma {:induction false} FirstIndexAppend<T>(a: seq<T>, b: seq<T>, x: T)
    requires x in a + b
    ensures x in a ==> FirstIndex(a + b, x) == FirstIndex(a, x) < |a|
    ensures x !in a ==> FirstIndex(a + b, x) >= |a|
  {
    if a != [] && a[0] != x {
      assert (a + b)[1..] == a[1..] + b;
      FirstIndexAppend(a[1..], b, x);
    } else if a == [] {
      assert a + b == b;
    }
  }
}
