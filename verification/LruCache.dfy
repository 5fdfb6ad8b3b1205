/** The LRU cache as it is stored: a list of nodes and a map from keys to list
    iterators. A node's `id` plays the iterator: it stays valid while other
    nodes are inserted, erased or spliced. */
module LruCache {
  import opened Status
  import Spec = LruSpec

  datatype Node<K, V> = Node(id: nat, entry: Spec.Entry<K, V>)

  ghost function Entries<K, V>(l: seq<Node<K, V>>): seq<Spec.Entry<K, V>> {
    seq(|l|, i requires 0 <= i < |l| => l[i].entry)
  }

  /** List and iterator map agree: every node is the target of its key's
      iterator, no two nodes share an iterator, every mapped key is listed. */
  ghost predicate Agree<K, V>(l: seq<Node<K, V>>, m: map<K, nat>, nextId: nat) {
    && (forall i :: 0 <= i < |l| ==> l[i].id < nextId && l[i].entry.key in m && m[l[i].entry.key] == l[i].id)
    && (forall i, j :: 0 <= i < j < |l| ==> l[i].id != l[j].id)
    && (forall k :: k in m ==> exists i :: 0 <= i < |l| && l[i].entry.key == k)
  }

  function Erase<T>(l: seq<T>, i: nat): (r: seq<T>)
    requires i < |l|
    ensures |r| == |l| - 1
    ensures forall j :: 0 <= j < |r| ==> r[j] == if j < i then l[j] else l[j + 1]
  {
    l[..i] + l[i + 1..]
  }

  /** The position of the node an iterator points to. */
  function Position<K(!new), V(!new)>(l: seq<Node<K, V>>, id: nat): (i: nat)
    requires exists j :: 0 <= j < |l| && l[j].id == id
    ensures i < |l| && l[i].id == id
  {
    if l[0].id == id then 0 else
      assert exists j :: 0 <= j < |l[1..]| && l[1..][j].id == id by {
        var j :| 0 <= j < |l| && l[j].id == id;
        assert l[1..][j - 1].id == id;
      }
      1 + Position(l[1..], id)
  }

  /** The iterator map holds exactly the listed keys, once each. */
  lemma AgreeMeansSameKeys<K(!new), V(!new)>(l: seq<Node<K, V>>, m: map<K, nat>, nextId: nat, k: K)
    requires Agree(l, m, nextId)
    ensures Spec.Distinct(Entries(l))
    ensures k in m <==> k in Spec.Keys(Entries(l))
    ensures k in m ==> exists i :: 0 <= i < |l| && l[i].id == m[k]
    ensures forall i :: 0 <= i < |l| && k in m && l[i].id == m[k] ==> l[i].entry == Spec.Find(Entries(l), k)
  {
    AgreeMeansDistinct(l, m, nextId);
    if k in m {
      var i :| 0 <= i < |l| && l[i].entry.key == k;
      ListedIsFound(l, i);
      assert forall j :: 0 <= j < |l| && l[j].id == m[k] ==> j == i;
    }
  }

  lemma AgreeMeansDistinct<K(!new), V(!new)>(l: seq<Node<K, V>>, m: map<K, nat>, nextId: nat)
    requires Agree(l, m, nextId)
    ensures Spec.Distinct(Entries(l))
    ensures forall k :: k in Spec.Keys(Entries(l)) ==> k in m
  {
    var s := Entries(l);
    assert forall i :: 0 <= i < |s| ==> s[i] == l[i].entry;
  }

  lemma ListedIsFound<K(!new), V(!new)>(l: seq<Node<K, V>>, i: nat)
    requires Spec.Distinct(Entries(l)) && i < |l|
    ensures l[i].entry.key in Spec.Keys(Entries(l)) && Spec.Find(Entries(l), l[i].entry.key) == l[i].entry
  {
    var s := Entries(l);
    assert s[i] in s;
    Spec.FindIn(s, s[i]);
  }

  lemma EraseEntries<K(!new), V(!new)>(l: seq<Node<K, V>>, i: nat)
    requires i < |l| && Spec.Distinct(Entries(l))
    ensures Entries(Erase(l, i)) == Spec.Without(Entries(l), l[i].entry.key)
  {
    Spec.WithoutAt(Entries(l), i);
    EntriesErase(l, i);
  }

  lemma EntriesErase<K(!new), V(!new)>(l: seq<Node<K, V>>, i: nat)
    requires i < |l|
    ensures Entries(Erase(l, i)) == Erase(Entries(l), i)
  {
  }

  lemma EraseNodes<K(!new), V(!new)>(l: seq<Node<K, V>>, m: map<K, nat>, nextId: nat, i: nat)
    requires Agree(l, m, nextId) && i < |l|
    ensures forall j :: 0 <= j < |l| - 1 ==>
              var n := Erase(l, i)[j];
              n in l && n.id != l[i].id && n.entry.key != l[i].entry.key
  {
    var r := Erase(l, i);
    forall j | 0 <= j < |r| ensures r[j] in l && r[j].id != l[i].id && r[j].entry.key != l[i].entry.key {
      var j' := if j < i then j else j + 1;
      assert r[j] == l[j'] && l[j'].id != l[i].id;
    }
  }

  lemma EraseIds<K(!new), V(!new)>(l: seq<Node<K, V>>, i: nat)
    requires i < |l| && forall p, q :: 0 <= p < q < |l| ==> l[p].id != l[q].id
    ensures forall p, q :: 0 <= p < q < |l| - 1 ==> Erase(l, i)[p].id != Erase(l, i)[q].id
  {
    var r := Erase(l, i);
    forall p, q | 0 <= p < q < |r| ensures r[p].id != r[q].id {
      var p', q' := if p < i then p else p + 1, if q < i then q else q + 1;
      assert r[p] == l[p'] && r[q] == l[q'] && p' < q';
    }
  }

  lemma EraseKeys<K(!new), V(!new)>(l: seq<Node<K, V>>, i: nat, j: nat)
    requires i < |l| && j < |l| && i != j
    ensures l[j] in Erase(l, i)
  {
    assert Erase(l, i)[if j < i then j else j - 1] == l[j];
  }

  lemma EraseAgree<K(!new), V(!new)>(l: seq<Node<K, V>>, m: map<K, nat>, nextId: nat, i: nat)
    requires Agree(l, m, nextId) && i < |l|
    ensures Agree(Erase(l, i), m - {l[i].entry.key}, nextId)
  {
    var r, x := Erase(l, i), l[i].entry.key;
    EraseNodes(l, m, nextId, i);
    EraseIds(l, i);
    forall k | k in m && k != x ensures exists j :: 0 <= j < |r| && r[j].entry.key == k {
      var j :| 0 <= j < |l| && l[j].entry.key == k;
      EraseKeys(l, i, j);
    }
    assert forall j :: 0 <= j < |r| ==> r[j] in l && r[j].entry.key in m - {x};
  }

  lemma FrontAgree<K(!new), V(!new)>(n: Node<K, V>, l: seq<Node<K, V>>, m: map<K, nat>, nextId: nat)
    requires Agree(l, m, nextId) && n.entry.key !in m && n.id < nextId
    requires forall i :: 0 <= i < |l| ==> l[i].id != n.id
    ensures Agree([n] + l, m[n.entry.key := n.id], nextId)
  {
    var r, m' := [n] + l, m[n.entry.key := n.id];
    assert r[0].entry.key == n.entry.key;
    forall k | k in m' ensures exists i :: 0 <= i < |r| && r[i].entry.key == k {
      if k != n.entry.key {
        var i :| 0 <= i < |l| && l[i].entry.key == k;
        assert r[i + 1].entry.key == k;
      }
    }
  }

  lemma FrontEntries<K, V>(n: Node<K, V>, l: seq<Node<K, V>>)
    ensures Entries([n] + l) == [n.entry] + Entries(l)
  {}

  lemma MoveToFrontAgree<K(!new), V(!new)>(n: Node<K, V>, l: seq<Node<K, V>>, m: map<K, nat>, nextId: nat, i: nat)
    requires Agree(l, m, nextId) && i < |l| && n.entry.key == l[i].entry.key
    requires n.id == l[i].id || n.id == nextId
    ensures Agree([n] + Erase(l, i), m[n.entry.key := n.id], if n.id == nextId then nextId + 1 else nextId)
  {
    var k, r, next := n.entry.key, Erase(l, i), if n.id == nextId then nextId + 1 else nextId;
    EraseAgree(l, m, nextId, i);
    EraseNodes(l, m, nextId, i);
    assert Agree(r, m - {k}, next);
    FrontAgree(n, r, m - {k}, next);
    assert (m - {k})[k := n.id] == m[k := n.id];
  }

  /** Erasing a node and putting it, or a newer one, in front is the abstract
      move to the front. */
  lemma MoveToFront<K(!new), V(!new)>(n: Node<K, V>, l: seq<Node<K, V>>, m: map<K, nat>, nextId: nat, i: nat)
    requires Agree(l, m, nextId) && i < |l| && n.entry.key == l[i].entry.key
    requires n.id == l[i].id || n.id == nextId
    ensures Agree([n] + Erase(l, i), m[n.entry.key := n.id], if n.id == nextId then nextId + 1 else nextId)
    ensures Entries([n] + Erase(l, i)) == [n.entry] + Spec.Without(Entries(l), n.entry.key)
  {
    MoveToFrontAgree(n, l, m, nextId, i);
    AgreeMeansSameKeys(l, m, nextId, n.entry.key);
    EraseEntries(l, i);
    FrontEntries(n, Erase(l, i));
  }

  class LRUCache<K(==, !new), V(!new)> {
    var entryList: seq<Node<K, V>>
    var entryMap: map<K, nat>
    var nextId: nat
    const maxEntries: nat

    ghost predicate Valid()
      reads this
    {
      0 < maxEntries && Agree(entryList, entryMap, nextId) && |entryList| <= maxEntries
    }

    /** The abstract value: entries, most recently used first. */
    ghost function Contents(): seq<Spec.Entry<K, V>>
      reads this
    {
      Entries(entryList)
    }

    constructor (maxEntries: nat)
      requires 0 < maxEntries
      ensures Valid() && Contents() == [] && this.maxEntries == maxEntries
    {
      entryList, entryMap, nextId := [], map[], 0;
      this.maxEntries := maxEntries;
    }

    method Insert(key: K, value: V)
      requires Valid()
      modifies this
      ensures Valid()
      ensures Contents() == Spec.Apply(old(Contents()), Spec.Insert(key, value), maxEntries)
    {
      AgreeMeansSameKeys(entryList, entryMap, nextId, key);
      ghost var grown := [Spec.Entry(key, value)] + Spec.Without(Contents(), key);
      var node := Node(nextId, Spec.Entry(key, value));
      if key in entryMap {
        var i := Position(entryList, entryMap[key]);
        MoveToFront(node, entryList, entryMap, nextId, i);
        entryList := [node] + Erase(entryList, i);
      } else {
        FrontAgree(node, entryList, entryMap, nextId + 1);
        FrontEntries(node, entryList);
        entryList := [node] + entryList;
      }
      entryMap := entryMap[key := node.id];
      nextId := nextId + 1;
      assert Contents() == grown;
      if |entryList| > maxEntries {
        EvictLast();
      }
    }

    /** Drops the entry at the back of the list. */
    method EvictLast()
      requires Agree(entryList, entryMap, nextId) && 0 < maxEntries && |entryList| == maxEntries + 1
      modifies this`entryList, this`entryMap
      ensures Valid() && Contents() == old(Contents())[..maxEntries]
    {
      var n := |entryList| - 1;
      EraseAgree(entryList, entryMap, nextId, n);
      assert Erase(entryList, n) == entryList[..n];
      entryMap := entryMap - {entryList[n].entry.key};
      entryList := entryList[..n];
    }

    method Lookup(key: K) returns (value: Option<V>)
      requires Valid()
      modifies this`entryList
      ensures Valid()
      ensures Contents() == Spec.Apply(old(Contents()), Spec.Op<K, V>.Lookup(key), maxEntries)
      ensures value.Some? <==> key in Spec.Keys(old(Contents()))
      ensures value.Some? ==> value.value == Spec.Find(old(Contents()), key).value
    {
      AgreeMeansSameKeys(entryList, entryMap, nextId, key);
      if key !in entryMap {
        return None;
      }
      var i := Position(entryList, entryMap[key]);
      var node := entryList[i];
      MoveToFront(node, entryList, entryMap, nextId, i);
      assert entryMap[key := node.id] == entryMap;
      entryList := [node] + Erase(entryList, i);
      return Some(node.entry.value);
    }

    method Remove(key: K)
      requires Valid()
      modifies this`entryList, this`entryMap
      ensures Valid()
      ensures Contents() == Spec.Apply(old(Contents()), Spec.Op<K, V>.Remove(key), maxEntries)
    {
      AgreeMeansSameKeys(entryList, entryMap, nextId, key);
      if key in entryMap {
        var i := Position(entryList, entryMap[key]);
        EraseAgree(entryList, entryMap, nextId, i);
        EraseEntries(entryList, i);
        entryList := Erase(entryList, i);
        entryMap := entryMap - {key};
      }
    }

    method Clear()
      requires Valid()
      modifies this`entryList, this`entryMap
      ensures Valid() && Contents() == []
    {
      entryMap, entryList := map[], [];
    }
  }
}
