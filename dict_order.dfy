/** The key order of a Python dict: keys iterate in insertion order, assigning to an existing
    key keeps its place, and `pop` removes the key from the order. A dict is modelled as a
    `map` together with such a key sequence. */
module DictOrder {

  predicate NoDup<K(==)>(order: seq<K>) {
    forall i, j | 0 <= i < j < |order| :: order[i] != order[j]
  }

  /** The key sequence lists exactly the keys of the map, each once. */
  predicate Tracks<K(==), V>(order: seq<K>, m: map<K, V>) {
    NoDup(order) && (forall k | k in order :: k in m) && (forall k | k in m :: k in order)
  }

  /** The order after `d[k] = v`: a new key goes to the end, an existing one keeps its place. */
  function Put<K(==)>(order: seq<K>, k: K): (r: seq<K>)
    ensures k in r && (forall x | x in order :: x in r) && (forall x | x in r :: x in order || x == k)
    ensures |order| <= |r| && r[..|order|] == order
    ensures k in order ==> |r| == |order|
    ensures NoDup(order) ==> NoDup(r)
  {
    if k in order then order else order + [k]
  }

  /** The order after `d.pop(k)`: every other key keeps its relative order. */
  function Drop<K(==)>(order: seq<K>, k: K): (r: seq<K>)
    ensures k !in r && (forall x | x in r :: x in order) && (forall x | x in order && x != k :: x in r)
    ensures |r| <= |order|
    ensures k !in order ==> r == order
    ensures NoDup(order) ==> NoDup(r)
  {
    if order == [] then []
    else if order[0] == k then Drop(order[1..], k)
    else
      var rest := Drop(order[1..], k);
      assert NoDup(order) ==> order[0] !in order[1..] && NoDup(order[1..]);
      [order[0]] + rest
  }

  /** Assigning a key and keeping the order tracked go together. */
  lemma PutTracks<K, V>(order: seq<K>, m: map<K, V>, k: K, v: V)
    requires Tracks(order, m)
    ensures Tracks(Put(order, k), m[k := v])
  {
  }

  lemma DropTracks<K, V>(order: seq<K>, m: map<K, V>, k: K)
    requires Tracks(order, m)
    ensures Tracks(Drop(order, k), m - {k})
  {
  }

  /** Removing a key that was just added restores the previous order. */
  lemma {:induction false} DropUndoesPut<K>(order: seq<K>, k: K)
    requires k !in order
    ensures Drop(Put(order, k), k) == order
  {
    if order != [] {
      assert Put(order, k)[1..] == Put(order[1..], k);
      DropUndoesPut(order[1..], k);
    }
  }

  /** Removing a key from two joined orders removes it from each part: no key crosses the
      join. */
  lemma {:induction false} DropDistributes<K>(a: seq<K>, b: seq<K>, k: K)
    ensures Drop(a + b, k) == Drop(a, k) + Drop(b, k)
  {
    if a != [] {
      assert (a + b)[1..] == a[1..] + b;
      DropDistributes(a[1..], b, k);
    } else {
      assert a + b == b;
    }
  }

  /** `pop` takes the key out of its place and leaves the keys before it and after it where
      they were. */
  lemma {:induction false} DropKeepsRelativeOrder<K>(a: seq<K>, k: K, b: seq<K>)
    requires k !in a && k !in b
    ensures Drop(a + [k] + b, k) == a + b
  {
    var ak := a + [k];
    DropDistributes(ak, b, k);
    DropDistributes(a, [k], k);
    assert [k][1..] == [];
    assert Drop([k], k) == [];
    assert Drop(ak, k) == a;
  }

  /** Re-inserting a key after removing it moves it to the end. */
  lemma {:induction false} PutAfterDropMovesToEnd<K>(order: seq<K>, k: K)
    ensures Put(Drop(order, k), k) == Drop(order, k) + [k]
  {
  }
}
