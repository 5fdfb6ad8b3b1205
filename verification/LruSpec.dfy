/** A plain most-recent-first sequence: what the LRU cache is meant to be. */
module LruSpec {
  import C = Collections

  datatype Entry<K, V> = Entry(key: K, value: V)

  datatype Op<K, V> =
    | Insert(key: K, value: V)
    | Lookup(key: K)
    | Remove(key: K)
    | Clear

  ghost function Keys<K(!new), V(!new)>(s: seq<Entry<K, V>>): set<K> {
    set e | e in s :: e.key
  }

  ghost predicate Distinct<K(!new), V(!new)>(s: seq<Entry<K, V>>) {
    forall i, j :: 0 <= i < j < |s| ==> s[i].key != s[j].key
  }

  /** The entries of `s` whose key satisfies membership in `ks`, in order. */
  ghost function Restrict<K(!new), V(!new)>(s: seq<Entry<K, V>>, ks: set<K>): (r: seq<Entry<K, V>>)
    ensures forall e :: e in r <==> e in s && e.key in ks
    ensures |r| <= |s|
  {
    if s == [] then []
    else if s[0].key in ks then [s[0]] + Restrict(s[1..], ks)
    else Restrict(s[1..], ks)
  }

  /** `s` without the entry for `k`. */
  ghost function Without<K(!new), V(!new)>(s: seq<Entry<K, V>>, k: K): (r: seq<Entry<K, V>>)
    ensures forall e :: e in r <==> e in s && e.key != k
    ensures |r| <= |s|
    ensures k !in Keys(s) ==> r == s
  {
    if s == [] then []
    else if s[0].key == k then Without(s[1..], k)
    else
      assert k !in Keys(s) ==> k !in Keys(s[1..]);
      [s[0]] + Without(s[1..], k)
  }

  ghost function Find<K(!new), V(!new)>(s: seq<Entry<K, V>>, k: K): (e: Entry<K, V>)
    requires k in Keys(s)
    ensures e in s && e.key == k
  {
    if s[0].key == k then s[0] else
      assert k in Keys(s[1..]);
      Find(s[1..], k)
  }

  /** Keep at most `max` entries, giving up the least recently used one. */
  ghost function Trim<K(!new), V(!new)>(s: seq<Entry<K, V>>, max: nat): seq<Entry<K, V>> {
    if |s| > max then s[..|s| - 1] else s
  }

  ghost function Apply<K(!new), V(!new)>(s: seq<Entry<K, V>>, op: Op<K, V>, max: nat): seq<Entry<K, V>> {
    match op
    case Insert(k, v) => Trim([Entry(k, v)] + Without(s, k), max)
    case Lookup(k) => if k in Keys(s) then [Find(s, k)] + Without(s, k) else s
    case Remove(k) => Without(s, k)
    case Clear => []
  }

  ghost function Run<K(!new), V(!new)>(s: seq<Entry<K, V>>, ops: seq<Op<K, V>>, max: nat): seq<Entry<K, V>> {
    if ops == [] then s else Apply(Run(s, ops[..|ops| - 1], max), ops[|ops| - 1], max)
  }

  // ---- Small facts about the sequence functions ----

  lemma {:induction false} DistinctTail<K(!new), V(!new)>(s: seq<Entry<K, V>>)
    requires Distinct(s) && s != []
    ensures Distinct(s[1..]) && s[0].key !in Keys(s[1..])
  {
    forall e | e in s[1..] ensures e.key != s[0].key {
      var i :| 0 <= i < |s[1..]| && s[1..][i] == e;
    }
  }

  lemma {:induction false} WithoutDistinct<K(!new), V(!new)>(s: seq<Entry<K, V>>, k: K)
    requires Distinct(s)
    ensures Distinct(Without(s, k))
    ensures |Without(s, k)| == |s| - (if k in Keys(s) then 1 else 0)
    ensures Keys(Without(s, k)) == Keys(s) - {k}
  {
    if s != [] {
      DistinctTail(s);
      WithoutDistinct(s[1..], k);
      if s[0].key != k {
        var r := Without(s[1..], k);
        assert Without(s, k) == [s[0]] + r;
        forall j | 0 <= j < |r| ensures r[j].key != s[0].key {
          assert r[j] in s[1..];
        }
        assert k in Keys(s) <==> k in Keys(s[1..]);
      } else {
        assert Without(s, k) == s[1..];
      }
    }
  }

  lemma {:induction false} WithoutAppend<K(!new), V(!new)>(a: seq<Entry<K, V>>, b: seq<Entry<K, V>>, k: K)
    ensures Without(a + b, k) == Without(a, k) + Without(b, k)
  {
    if a == [] {
      assert a + b == b;
    } else {
      assert (a + b)[1..] == a[1..] + b;
      WithoutAppend(a[1..], b, k);
    }
  }

  lemma SplitAt<T>(s: seq<T>, i: nat)
    requires i < |s|
    ensures s == s[..i] + ([s[i]] + s[i + 1..])
  {}

  lemma WithoutAt<K(!new), V(!new)>(s: seq<Entry<K, V>>, i: nat)
    requires Distinct(s) && i < |s|
    ensures Without(s, s[i].key) == s[..i] + s[i + 1..]
  {
    var a, b, k := s[..i], s[i + 1..], s[i].key;
    assert forall e :: e in a ==> e.key != k;
    assert forall e :: e in b ==> e.key != k;
    SplitAt(s, i);
    WithoutAppend(a, [s[i]] + b, k);
    assert ([s[i]] + b)[1..] == b;
  }

  lemma {:induction false} RestrictAppend<K(!new), V(!new)>(a: seq<Entry<K, V>>, b: seq<Entry<K, V>>, ks: set<K>)
    ensures Restrict(a + b, ks) == Restrict(a, ks) + Restrict(b, ks)
  {
    if a == [] {
      assert a + b == b;
    } else {
      assert (a + b)[1..] == a[1..] + b;
      RestrictAppend(a[1..], b, ks);
    }
  }

  lemma {:induction false} RestrictWithout<K(!new), V(!new)>(s: seq<Entry<K, V>>, ks: set<K>, k: K)
    ensures Without(Restrict(s, ks), k) == Restrict(s, ks - {k})
    ensures Restrict(Without(s, k), ks + {k}) == Restrict(s, ks - {k})
    ensures Restrict(Without(s, k), ks) == Restrict(s, ks - {k})
  {
    if s != [] {
      RestrictWithout(s[1..], ks, k);
      var r := Restrict(s[1..], ks);
      if s[0].key in ks {
        assert ([s[0]] + r)[1..] == r;
      }
      var w := Without(s[1..], k);
      if s[0].key != k {
        assert ([s[0]] + w)[1..] == w;
      }
    }
  }

  lemma {:induction false} RestrictKeys<K(!new), V(!new)>(s: seq<Entry<K, V>>, a: set<K>, b: set<K>)
    requires forall k :: k in Keys(s) ==> (k in a <==> k in b)
    ensures Restrict(s, a) == Restrict(s, b)
  {
    if s != [] {
      assert s[0].key in Keys(s);
      forall k | k in Keys(s[1..]) ensures k in a <==> k in b {
        assert k in Keys(s);
      }
      RestrictKeys(s[1..], a, b);
    }
  }

  lemma FindIn<K(!new), V(!new)>(s: seq<Entry<K, V>>, e: Entry<K, V>)
    requires Distinct(s) && e in s
    ensures e.key in Keys(s) && Find(s, e.key) == e
  {
    var f := Find(s, e.key);
    var i :| 0 <= i < |s| && s[i] == e;
    var j :| 0 <= j < |s| && s[j] == f;
  }

  /** Every operation keeps keys distinct and the size within the capacity. */
  lemma ApplyKeeps<K(!new), V(!new)>(s: seq<Entry<K, V>>, op: Op<K, V>, max: nat)
    requires Distinct(s) && |s| <= max && 0 < max
    ensures Distinct(Apply(s, op, max)) && |Apply(s, op, max)| <= max
  {
    match op
    case Insert(k, v) =>
      WithoutDistinct(s, k);
      FrontDistinct(Entry(k, v), Without(s, k));
    case Lookup(k) =>
      WithoutDistinct(s, k);
      if k in Keys(s) {
        FrontDistinct(Find(s, k), Without(s, k));
      }
    case Remove(k) =>
      WithoutDistinct(s, k);
    case Clear =>
  }

  lemma FrontDistinct<K(!new), V(!new)>(e: Entry<K, V>, s: seq<Entry<K, V>>)
    requires Distinct(s) && e.key !in Keys(s)
    ensures Distinct([e] + s)
    ensures Keys([e] + s) == Keys(s) + {e.key}
  {
    var t := [e] + s;
    assert e in t;
    forall i, j | 0 <= i < j < |t| ensures t[i].key != t[j].key {
      assert t[j] in s;
    }
  }

  // ---- Inclusion: a smaller cache is a subsequence of a larger one ----

  /** `small` is `large` with some entries left out, at most `slack` of them. */
  ghost predicate Included<K(!new), V(!new)>(small: seq<Entry<K, V>>, large: seq<Entry<K, V>>, slack: nat) {
    && small == Restrict(large, Keys(small))
    && |large| <= |small| + slack
  }

  lemma IncludedWithout<K(!new), V(!new)>(small: seq<Entry<K, V>>, large: seq<Entry<K, V>>, k: K)
    requires Distinct(small) && Distinct(large) && small == Restrict(large, Keys(small))
    ensures Without(small, k) == Restrict(Without(large, k), Keys(Without(small, k)))
  {
    WithoutDistinct(small, k);
    RestrictWithout(large, Keys(small), k);
    RestrictWithout(large, Keys(small) - {k}, k);
    assert Keys(small) - {k} - {k} == Keys(small) - {k};
  }

  lemma IncludedFront<K(!new), V(!new)>(e: Entry<K, V>, small: seq<Entry<K, V>>, large: seq<Entry<K, V>>)
    requires small == Restrict(large, Keys(small)) && e.key !in Keys(large)
    ensures [e] + small == Restrict([e] + large, Keys([e] + small))
  {
    var ks := Keys([e] + small);
    assert e in [e] + small;
    assert e.key in ks;
    assert ([e] + large)[1..] == large;
    forall k | k in Keys(large) ensures k in ks <==> k in Keys(small) {
      if k in Keys(small) {
        var f :| f in small && f.key == k;
        assert f in [e] + small;
      }
    }
    RestrictKeys(large, ks, Keys(small));
  }

  /** Dropping the last entry of the smaller cache keeps it a subsequence. */
  lemma IncludedDropSmall<K(!new), V(!new)>(small: seq<Entry<K, V>>, large: seq<Entry<K, V>>)
    requires Distinct(small) && Distinct(large) && small == Restrict(large, Keys(small)) && small != []
    ensures small[..|small| - 1] == Restrict(large, Keys(small[..|small| - 1]))
  {
    var n := |small| - 1;
    var init, last := small[..n], small[n];
    DropLastIsWithout(small);
    WithoutDistinct(small, last.key);
    RestrictWithout(large, Keys(small), last.key);
  }

  lemma DropLastIsWithout<K(!new), V(!new)>(s: seq<Entry<K, V>>)
    requires Distinct(s) && s != []
    ensures s[..|s| - 1] == Without(s, s[|s| - 1].key)
  {
    WithoutAt(s, |s| - 1);
  }

  /** Dropping the last entry of the larger cache: either the smaller one never
      had it, or it is the smaller one's last entry too. */
  lemma DropLarge<K(!new), V(!new)>(small: seq<Entry<K, V>>, large: seq<Entry<K, V>>)
    requires small == Restrict(large, Keys(small)) && large != []
    ensures var n := |large| - 1;
            if large[n].key in Keys(small)
            then small != [] && small[|small| - 1] == large[n]
                 && small[..|small| - 1] == Restrict(large[..n], Keys(small))
            else small == Restrict(large[..n], Keys(small))
  {
    RestrictLast(large, Keys(small));
    Snoc(Restrict(large[..|large| - 1], Keys(small)), large[|large| - 1]);
  }

  lemma Snoc<T>(a: seq<T>, x: T)
    ensures var s := a + [x]; s[|s| - 1] == x && s[..|s| - 1] == a
  {
  }

  lemma RestrictLast<K(!new), V(!new)>(s: seq<Entry<K, V>>, ks: set<K>)
    requires s != []
    ensures var n := |s| - 1; Restrict(s, ks) == Restrict(s[..n], ks) + if s[n].key in ks then [s[n]] else []
  {
    var n := |s| - 1;
    SplitLast(s);
    RestrictAppend(s[..n], [s[n]], ks);
    RestrictOne(s[n], ks);
  }

  lemma SplitLast<T>(s: seq<T>)
    requires s != []
    ensures s == s[..|s| - 1] + [s[|s| - 1]]
  {
  }

  lemma RestrictOne<K(!new), V(!new)>(e: Entry<K, V>, ks: set<K>)
    ensures Restrict([e], ks) == if e.key in ks then [e] else []
  {
    assert [e][1..] == [];
  }

  lemma KeysOfPrefix<K(!new), V(!new)>(s: seq<Entry<K, V>>, x: K)
    requires Distinct(s) && s != []
    ensures var n := |s| - 1; x in Keys(s[..n]) <==> x in Keys(s) && x != s[n].key
  {
    DropLastIsWithout(s);
    WithoutDistinct(s, s[|s| - 1].key);
  }

  /** Both caches give up their last entry when they overflow. */
  lemma IncludedTrim<K(!new), V(!new)>(s: seq<Entry<K, V>>, l: seq<Entry<K, V>>, n: nat, m: nat)
    requires n <= m && Distinct(s) && Distinct(l) && |s| <= n + 1 && |l| <= m + 1
    requires Included(s, l, m - n)
    ensures Included(Trim(s, n), Trim(l, m), m - n)
  {
    if |l| > m {
      assert |s| > n;
      var s', l' := s[..|s| - 1], l[..|l| - 1];
      DropLarge(s, l);
      if l[|l| - 1].key in Keys(s) {
        forall x | x in Keys(l') ensures x in Keys(s) <==> x in Keys(s') {
          KeysOfPrefix(l, x);
          KeysOfPrefix(s, x);
        }
        RestrictKeys(l', Keys(s), Keys(s'));
      } else {
        assert Distinct(l');
        IncludedDropSmall(s, l');
      }
    } else if |s| > n {
      IncludedDropSmall(s, l);
    }
  }

  lemma IncludedInsert<K(!new), V(!new)>(small: seq<Entry<K, V>>, large: seq<Entry<K, V>>,
                                         k: K, v: V, n: nat, m: nat)
    requires 0 < n <= m && Distinct(small) && Distinct(large) && |small| <= n && |large| <= m
    requires Included(small, large, m - n)
    ensures Included(Apply(small, Insert(k, v), n), Apply(large, Insert(k, v), m), m - n)
  {
    var e := Entry(k, v);
    WithoutDistinct(small, k);
    WithoutDistinct(large, k);
    IncludedWithout(small, large, k);
    FrontDistinct(e, Without(small, k));
    FrontDistinct(e, Without(large, k));
    IncludedFront(e, Without(small, k), Without(large, k));
    if k in Keys(small) {
      assert Find(small, k) in large;
    }
    IncludedTrim([e] + Without(small, k), [e] + Without(large, k), n, m);
  }

  lemma IncludedLookup<K(!new), V(!new)>(small: seq<Entry<K, V>>, large: seq<Entry<K, V>>, k: K, n: nat, m: nat,
                         slack: nat)
    requires Distinct(small) && Distinct(large) && Included(small, large, slack)
    ensures k in Keys(small) ==> k in Keys(large) && Find(small, k) == Find(large, k)
    ensures Included(Apply(small, Op<K, V>.Lookup(k), n), Apply(large, Op<K, V>.Lookup(k), m), slack)
  {
    WithoutDistinct(small, k);
    WithoutDistinct(large, k);
    if k in Keys(small) {
      var e := Find(small, k);
      assert e in large;
      FindIn(large, e);
      IncludedWithout(small, large, k);
      IncludedFront(e, Without(small, k), Without(large, k));
    } else if k in Keys(large) {
      var e := Find(large, k);
      IncludedWithout(small, large, k);
      assert ([e] + Without(large, k))[1..] == Without(large, k);
    }
  }

  /** LRU inclusion over every run of operations on two caches. */
  lemma {:induction false} InclusionOverRuns<K(!new), V(!new)>(ops: seq<Op<K, V>>, n: nat, m: nat)
    requires 0 < n <= m
    ensures Included(Run([], ops, n), Run([], ops, m), m - n)
    ensures Distinct(Run([], ops, n)) && |Run([], ops, n)| <= n
    ensures Distinct(Run([], ops, m)) && |Run([], ops, m)| <= m
  {
    if ops != [] {
      var before, op := ops[..|ops| - 1], ops[|ops| - 1];
      InclusionOverRuns(before, n, m);
      var s, l := Run<K, V>([], before, n), Run<K, V>([], before, m);
      ApplyKeeps(s, op, n);
      ApplyKeeps(l, op, m);
      match op
      case Insert(k, v) => IncludedInsert(s, l, k, v, n, m);
      case Lookup(k) => IncludedLookup(s, l, k, n, m, m - n);
      case Remove(k) =>
        IncludedWithout(s, l, k);
        WithoutDistinct(s, k);
        WithoutDistinct(l, k);
        if k in Keys(s) {
          assert Find(s, k) in l;
        }
      case Clear =>
    }
  }

  /** A hit in the smaller cache is a hit with the same value in the larger one. */
  lemma SmallHitIsLargeHit<K(!new), V(!new)>(ops: seq<Op<K, V>>, n: nat, m: nat, k: K)
    requires 0 < n <= m && k in Keys(Run([], ops, n))
    ensures k in Keys(Run([], ops, m)) && Find(Run([], ops, m), k) == Find(Run([], ops, n), k)
  {
    InclusionOverRuns(ops, n, m);
    IncludedLookup(Run([], ops, n), Run([], ops, m), k, n, m, m - n);
  }

  // ---- Values and retention ----

  ghost predicate Inserts<K(!new), V(!new)>(op: Op<K, V>, k: K) { op.Insert? && op.key == k }

  /** A cached value is the one of the key's last insertion. */
  lemma {:induction false} HitIsLastInserted<K(!new), V(!new)>(ops: seq<Op<K, V>>, max: nat, e: Entry<K, V>)
    requires 0 < max && e in Run([], ops, max)
    ensures exists i :: 0 <= i < |ops| && ops[i] == Insert(e.key, e.value)
                        && forall j :: i < j < |ops| ==> !Inserts(ops[j], e.key) && !Discards(ops[j], e.key)
  {
    var n := |ops| - 1;
    var before, op := ops[..n], ops[n];
    InclusionOverRuns(before, max, max);
    ComesFrom(Run([], before, max), op, max, e);
    if op != Insert(e.key, e.value) {
      HitIsLastInserted(before, max, e);
      LastInsertStays(ops, e);
    }
  }

  /** An entry is in the cache because the operation put it there, or it was there. */
  lemma ComesFrom<K(!new), V(!new)>(c: seq<Entry<K, V>>, op: Op<K, V>, max: nat, e: Entry<K, V>)
    requires Distinct(c) && e in Apply(c, op, max)
    ensures op == Insert(e.key, e.value) || (e in c && !Inserts(op, e.key) && !Discards(op, e.key))
  {
    if op.Insert? {
      assert e in [Entry(op.key, op.value)] + Without(c, op.key);
    }
  }

  lemma LastInsertStays<K(!new), V(!new)>(ops: seq<Op<K, V>>, e: Entry<K, V>)
    requires ops != [] && !Inserts(ops[|ops| - 1], e.key) && !Discards(ops[|ops| - 1], e.key)
    requires var before := ops[..|ops| - 1];
             exists i :: 0 <= i < |before| && before[i] == Insert(e.key, e.value)
                         && forall j :: i < j < |before| ==> !Inserts(before[j], e.key) && !Discards(before[j], e.key)
    ensures exists i :: 0 <= i < |ops| && ops[i] == Insert(e.key, e.value)
                        && forall j :: i < j < |ops| ==> !Inserts(ops[j], e.key) && !Discards(ops[j], e.key)
  {
    var n := |ops| - 1;
    var before := ops[..n];
    var i :| 0 <= i < |before| && before[i] == Insert(e.key, e.value)
             && forall j :: i < j < |before| ==> !Inserts(before[j], e.key) && !Discards(before[j], e.key);
    assert ops[i] == Insert(e.key, e.value);
    forall j | i < j < |ops| ensures !Inserts(ops[j], e.key) && !Discards(ops[j], e.key) {
      assert j < n ==> ops[j] == before[j];
    }
  }

  /** The keys moved to the front while `ops` run from `s`. */
  ghost function Touched<K(!new), V(!new)>(s: seq<Entry<K, V>>, ops: seq<Op<K, V>>, max: nat): set<K> {
    if ops == [] then {} else
      var before, op := ops[..|ops| - 1], ops[|ops| - 1];
      Touched(s, before, max) +
      match op
      case Insert(k, _) => {k}
      case Lookup(k) => if k in Keys(Run(s, before, max)) then {k} else {}
      case _ => {}
  }

  ghost predicate Discards<K(!new), V(!new)>(op: Op<K, V>, k: K) { op.Clear? || (op.Remove? && op.key == k) }

  /** The keys more recent than `k`. */
  ghost function Ahead<K(!new), V(!new)>(s: seq<Entry<K, V>>, k: K): set<K>
    requires k in Keys(s)
  {
    if s[0].key == k then {} else
      assert k in Keys(s[1..]);
      {s[0].key} + Ahead(s[1..], k)
  }

  lemma {:induction false} AheadBounds<K(!new), V(!new)>(s: seq<Entry<K, V>>, k: K)
    requires Distinct(s) && k in Keys(s)
    ensures Ahead(s, k) <= Keys(s) && k !in Ahead(s, k)
    ensures |Ahead(s, k)| < |s|
    ensures s[|s| - 1].key == k <==> |Ahead(s, k)| == |s| - 1
  {
    if s[0].key == k {
    } else {
      DistinctTail(s);
      var t := s[1..];
      assert k in Keys(t);
      AheadBounds(t, k);
      assert s[0].key !in Ahead(t, k);
      assert t[|t| - 1] == s[|s| - 1];
      assert forall x :: x in Keys(t) ==> x in Keys(s);
      assert s[0] in s;
    }
  }

  lemma {:induction false} AheadWithout<K(!new), V(!new)>(s: seq<Entry<K, V>>, k: K, x: K)
    requires Distinct(s) && k in Keys(s) && x != k
    ensures k in Keys(Without(s, x)) && Ahead(Without(s, x), k) == Ahead(s, k) - {x}
  {
    var t := s[1..];
    if s[0].key == k {
      assert Without(s, x) == [s[0]] + Without(t, x);
      assert Without(s, x)[0] in Without(s, x);
    } else {
      DistinctTail(s);
      assert k in Keys(t);
      AheadWithout(t, k, x);
      if s[0].key == x {
        assert Without(s, x) == Without(t, x);
      } else {
        assert Without(s, x) == [s[0]] + Without(t, x);
        AheadFront(s[0], Without(t, x), k);
      }
    }
  }

  lemma {:induction false} AheadPrefix<K(!new), V(!new)>(s: seq<Entry<K, V>>, k: K)
    requires Distinct(s) && k in Keys(s) && s[|s| - 1].key != k
    ensures k in Keys(s[..|s| - 1]) && Ahead(s[..|s| - 1], k) == Ahead(s, k)
  {
    var n := |s| - 1;
    if s[0].key == k {
      assert s[0] in s[..n];
    } else {
      DistinctTail(s);
      assert k in Keys(s[1..]);
      AheadPrefix(s[1..], k);
      assert s[1..][..n - 1] == s[1..n] == s[..n][1..];
      var e :| e in s[1..n] && e.key == k;
      assert e in s[..n];
    }
  }

  lemma AheadFront<K(!new), V(!new)>(e: Entry<K, V>, s: seq<Entry<K, V>>, k: K)
    requires k in Keys(s) && e.key != k
    ensures k in Keys([e] + s) && Ahead([e] + s, k) == {e.key} + Ahead(s, k)
  {
    var f :| f in s && f.key == k;
    assert f in [e] + s;
    assert ([e] + s)[1..] == s;
  }

  /** Moving another key to the front puts exactly that key ahead of `k`. */
  lemma AheadTouch<K(!new), V(!new)>(c: seq<Entry<K, V>>, e: Entry<K, V>, k: K)
    requires Distinct(c) && k in Keys(c) && e.key != k
    ensures var d := [e] + Without(c, e.key);
            Distinct(d) && |d| <= |c| + 1 && k in Keys(d) && Ahead(d, k) == Ahead(c, k) + {e.key}
  {
    WithoutDistinct(c, e.key);
    AheadWithout(c, k, e.key);
    FrontDistinct(e, Without(c, e.key));
    AheadFront(e, Without(c, e.key), k);
  }

  /** Overflow gives up `k` exactly when `max` keys are ahead of it. */
  lemma AheadTrim<K(!new), V(!new)>(d: seq<Entry<K, V>>, k: K, max: nat)
    requires 0 < max && Distinct(d) && |d| <= max + 1 && k in Keys(d)
    ensures k in Keys(Trim(d, max)) <==> |Ahead(d, k)| < max
    ensures k in Keys(Trim(d, max)) ==> Ahead(Trim(d, max), k) == Ahead(d, k)
  {
    AheadBounds(d, k);
    if |d| > max {
      KeysOfPrefix(d, k);
      if d[|d| - 1].key != k {
        AheadPrefix(d, k);
      }
    }
  }

  /** How one operation on another key changes what is ahead of `k`. */
  lemma AheadStep<K(!new), V(!new)>(c: seq<Entry<K, V>>, op: Op<K, V>, k: K, max: nat)
    requires 0 < max && Distinct(c) && |c| <= max && k in Keys(c)
    requires op.Insert? || (op.Lookup? && op.key in Keys(c))
    requires op.key != k
    ensures k in Keys(Apply(c, op, max)) <==> |Ahead(c, k) + {op.key}| < max
    ensures k in Keys(Apply(c, op, max)) ==> Ahead(Apply(c, op, max), k) == Ahead(c, k) + {op.key}
  {
    var e := if op.Insert? then Entry(op.key, op.value) else Find(c, op.key);
    var d := [e] + Without(c, op.key);
    AheadTouch(c, e, k);
    if op.Insert? {
      AheadTrim(d, k, max);
    } else {
      WithoutDistinct(c, op.key);
      AheadBounds(d, k);
    }
  }

  /** Retention, step by step: while fewer than `max` other keys are touched, a
      key that is not discarded stays, and only touched keys get ahead of it. */
  lemma {:induction false} AheadAreTouched<K(!new), V(!new)>(s: seq<Entry<K, V>>, ops: seq<Op<K, V>>, max: nat, k: K)
    requires 0 < max && Distinct(s) && 0 < |s| <= max && s[0].key == k
    requires forall op :: op in ops ==> !Discards(op, k)
    requires |Touched(s, ops, max) - {k}| < max
    ensures Distinct(Run(s, ops, max)) && |Run(s, ops, max)| <= max
    ensures k in Keys(Run(s, ops, max)) && Ahead(Run(s, ops, max), k) <= Touched(s, ops, max) - {k}
  {
    if ops == [] {
      assert s[0] in s;
    } else {
      var before, op := ops[..|ops| - 1], ops[|ops| - 1];
      var t, t' := Touched(s, before, max) - {k}, Touched(s, ops, max) - {k};
      C.SubsetSize(t, t');
      AheadAreTouched(s, before, max, k);
      var c := Run(s, before, max);
      ApplyKeeps(c, op, max);
      assert op in ops;
      AheadBounds(c, k);
      if (op.Insert? || op.Lookup?) && op.key == k {
        var c' := Apply(c, op, max);
        assert c'[0] in c';
      } else if op.Insert? || (op.Lookup? && op.key in Keys(c)) {
        C.SubsetSize(Ahead(c, k) + {op.key}, t');
        AheadStep(c, op, k, max);
      } else if op.Remove? {
        AheadWithout(c, k, op.key);
      }
    }
  }

  /** Retention: a key is still cached after any run that touches fewer than
      `max` other distinct keys and neither removes nor clears it. */
  lemma RecentKeyIsRetained<K(!new), V(!new)>(s: seq<Entry<K, V>>, ops: seq<Op<K, V>>, max: nat, k: K)
    requires 0 < max && Distinct(s) && 0 < |s| <= max && s[0].key == k
    requires forall op :: op in ops ==> !Discards(op, k)
    requires |Touched(s, ops, max) - {k}| < max
    ensures k in Keys(Run(s, ops, max))
  {
    AheadAreTouched(s, ops, max, k);
  }

  ghost predicate Quiet<K(!new), V(!new)>(op: Op<K, V>, k: K) {
    (op.Insert? || op.Lookup?) && op.key != k
  }

  /** The bound is exact: with no removal and no new touch of the key itself,
      the key is cached if and only if fewer than `max` others were touched. */
  lemma {:induction false} RetentionIsExact<K(!new), V(!new)>(s: seq<Entry<K, V>>, ops: seq<Op<K, V>>, max: nat, k: K)
    requires 0 < max && Distinct(s) && 0 < |s| <= max && s[0].key == k
    requires forall op :: op in ops ==> Quiet(op, k)
    ensures Distinct(Run(s, ops, max)) && |Run(s, ops, max)| <= max
    ensures k in Keys(Run(s, ops, max)) <==> |Touched(s, ops, max)| < max
    ensures k in Keys(Run(s, ops, max)) ==> Ahead(Run(s, ops, max), k) == Touched(s, ops, max)
  {
    if ops == [] {
      assert s[0] in s;
    } else {
      var before, op := ops[..|ops| - 1], ops[|ops| - 1];
      assert op in ops;
      var t, t' := Touched(s, before, max), Touched(s, ops, max);
      C.SubsetSize(t, t');
      RetentionIsExact(s, before, max, k);
      var c := Run(s, before, max);
      var c' := Apply(c, op, max);
      ApplyKeeps(c, op, max);
      if k !in Keys(c) {
        forall e | e in c' ensures e.key != k {
          assert e in c || e.key == op.key;
        }
      } else if op.Insert? || op.key in Keys(c) {
        AheadStep(c, op, k, max);
      }
    }
  }
}
