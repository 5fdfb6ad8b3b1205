/** The per-connection cache of open file handles, oldest first, and the
    server's table of handles open on that connection. */
module HandleCache {
  import opened Status
  import opened Attempts
  import C = ChunkedIo
  import L = LruCache
  import Spec = LruSpec

  type Path = string
  type Handles = seq<Spec.Entry<Path, Fnum>>

  ghost function Fnums(s: Handles): (f: seq<Fnum>)
    ensures |f| == |s| && forall i :: 0 <= i < |s| ==> f[i] == s[i].value
  {
    seq(|s|, i requires 0 <= i < |s| => s[i].value)
  }

  // ---- Abstract operations ----

  /** The handles given up when at most `max` may stay: the oldest ones. */
  ghost function Overflow(s: Handles, max: nat): nat { if |s| > max then |s| - max else 0 }

  ghost function Touch(s: Handles, p: Path, f: Fnum): Handles {
    Spec.Without(s, p) + [Spec.Entry(p, f)]
  }

  ghost function Update(s: Handles, p: Path, f: Fnum, max: nat): Handles {
    Touch(s, p, f)[Overflow(Touch(s, p, f), max)..]
  }

  ghost function Reverse<T>(s: seq<T>): (r: seq<T>)
    ensures |r| == |s| && forall i :: 0 <= i < |s| ==> r[i] == s[|s| - 1 - i]
  {
    seq(|s|, i requires 0 <= i < |s| => s[|s| - 1 - i])
  }

  lemma FnumsConcat(a: Handles, b: Handles)
    ensures Fnums(a + b) == Fnums(a) + Fnums(b)
  {}

  lemma FnumsNext(s: Handles, n: nat)
    requires n < |s|
    ensures Fnums(s[..n + 1]) == Fnums(s[..n]) + [s[n].value]
  {}

  lemma ReversePush<T>(s: seq<T>, e: T)
    ensures Reverse(s + [e]) == [e] + Reverse(s)
  {}

  lemma ReverseTail<T>(s: seq<T>)
    requires s != []
    ensures Reverse(s[1..]) == Reverse(s)[..|s| - 1]
  {}

  lemma ReverseErase(s: Handles, i: nat)
    requires i < |s|
    ensures Reverse(s[..i] + s[i + 1..]) == Reverse(s)[..|s| - 1 - i] + Reverse(s)[|s| - i..]
  {
  }

  lemma ReverseWithout(s: Handles, p: Path)
    requires Spec.Distinct(s)
    ensures Spec.Distinct(Reverse(s))
    ensures Reverse(Spec.Without(s, p)) == Spec.Without(Reverse(s), p)
  {
    var r := Reverse(s);
    if i :| 0 <= i < |s| && s[i].key == p {
      Spec.WithoutAt(s, i);
      Spec.WithoutAt(r, |s| - 1 - i);
      ReverseErase(s, i);
    } else {
      assert forall e :: e in r ==> e.key != p;
      assert forall e :: e in s ==> e.key != p;
    }
  }

  /** Updating a handle is the insertion of the generic LRU cache, so eviction
      is least recently used first and the results on that cache carry over. */
  lemma UpdateIsLruInsert(s: Handles, p: Path, f: Fnum, max: nat)
    requires 0 < max && Spec.Distinct(s) && |s| <= max
    ensures Reverse(Update(s, p, f, max)) == Spec.Apply(Reverse(s), Spec.Insert(p, f), max)
  {
    var e, w := Spec.Entry(p, f), Spec.Without(s, p);
    ReverseWithout(s, p);
    ReversePush(w, e);
    if |w + [e]| > max {
      assert |w + [e]| == max + 1;
      ReverseTail(w + [e]);
    } else {
      assert (w + [e])[0..] == w + [e];
    }
  }

  // ---- The connection object ----

  class SmbConnection {
    var fhList: seq<L.Node<Path, Fnum>>
    var fhMap: map<Path, nat>
    var nextId: nat
    var closed: seq<Fnum>   // every close sent to the server, in order
    ghost var open: set<Fnum>   // the server's table of open handles
    ghost var everOpened: multiset<Fnum>

    ghost predicate Valid()
      reads this
    {
      L.Agree(fhList, fhMap, nextId)
    }

    ghost function Cached(): Handles
      reads this
    {
      L.Entries(fhList)
    }

    /** The connection as the runs below see it. */
    ghost function Abstract(): Conn
      reads this
    {
      Conn(Cached(), open, everOpened, multiset(closed))
    }

    constructor ()
      ensures Valid() && Abstract() == FRESH
    {
      fhList, fhMap, nextId, closed, open, everOpened := [], map[], 0, [], {}, multiset{};
    }

    /** One read of a chunk with its use of the handle cache. */
    method Read(path: Path, max: nat, file: seq<C.byte>, offset: nat, size: uint32, buf: seq<C.byte>, at: nat,
                oracle: nat -> C.ReadOutcome, opens: nat -> Option<Fnum>, clock: nat, maxRetries: nat)
      returns (count: uint32, error: Error, buf': seq<C.byte>, clock': nat, ghost longest: nat,
               ghost trail: seq<Attempt>)
      requires Valid() && at <= |buf|
      modifies this
      ensures Valid() && IsTrail(trail, maxRetries)
      ensures C.IsReadTrail(trail, oracle, opens, clock, size, C.Available(file, offset))
      ensures count as int <= longest <= size as int && longest <= C.Available(file, offset)
      ensures buf' == C.Replace(buf, at, C.Range(file, offset, longest)) && (error.Ok() ==> count == size)
      ensures clock < clock' && C.ReadTold(oracle(clock' - 1), size, C.Available(file, offset), count, error)
      ensures Abstract() == Serve(old(Abstract()), Use(path, trail), max)
      ensures 0 < max ==> NewestAfterUse(old(Cached()), Cached(), path, trail)
    {
      var cached := Find(path);
      var kept;
      count, error, buf', kept, clock', longest, trail := C.ReadBytesFromOffset(
        file, offset, size, buf, at, oracle, opens, clock, maxRetries, cached);
      Settle(path, max, cached, kept, trail);
      UseMakesNewest(old(Abstract()), path, trail, max);
    }

    /** One write of a chunk with its use of the handle cache. */
    method Write(path: Path, max: nat, file: seq<C.byte>, offset: nat, size: uint32, data: seq<C.byte>,
                 oracle: nat -> C.WriteOutcome, opens: nat -> Option<Fnum>, clock: nat, maxRetries: nat)
      returns (count: uint32, error: Error, file': seq<C.byte>, clock': nat, ghost landed: nat,
               ghost trail: seq<Attempt>)
      requires Valid() && 0 < size as int <= |data|
      modifies this
      ensures Valid() && IsTrail(trail, maxRetries)
      ensures C.IsWriteTrail(trail, oracle, opens, clock, size)
      ensures count as int <= landed <= size as int && C.IsWritten(file, file', offset, data, landed)
      ensures C.WriteReported(oracle, clock, clock', size, error)
      ensures Abstract() == Serve(old(Abstract()), Use(path, trail), max)
      ensures 0 < max ==> NewestAfterUse(old(Cached()), Cached(), path, trail)
    {
      var cached := Find(path);
      var kept;
      count, error, file', kept, clock', landed, trail := C.WriteBytesToOffset(
        file, offset, size, data, oracle, opens, clock, maxRetries, cached);
      Settle(path, max, cached, kept, trail);
      UseMakesNewest(old(Abstract()), path, trail, max);
    }

    /** The handle cached for a path. */
    method Find(path: Path) returns (fnum: Option<Fnum>)
      requires Valid()
      ensures fnum == CachedFor(Cached(), path)
    {
      L.AgreeMeansSameKeys(fhList, fhMap, nextId, path);
      if path !in fhMap {
        return None;
      }
      return Some(fhList[L.Position(fhList, fhMap[path])].entry.value);
    }

    /** The end of a read or write: the handle goes to the cache, unless the retry
        loop was left early. */
    method Settle(path: Path, max: nat, ghost cached: Option<Fnum>, kept: Option<Fnum>, ghost trail: seq<Attempt>)
      requires Valid() && cached == CachedFor(Cached(), path)
      requires kept == if Aborted(trail) then None else HandleAfter(cached, trail)
      modifies this
      ensures Valid() && Abstract() == Serve(old(Abstract()), Use(path, trail), max)
    {
      ghost var h := HandleAfter(cached, trail);
      if cached.None? && h.Some? {
        open, everOpened := open + {h.value}, everOpened + multiset{h.value};
      }
      if kept.Some? {
        ghost var t := Touch(Cached(), path, kept.value);
        ghost var fs := Fnums(t[..Overflow(t, max)]);
        UpdateFileHandle(path, kept.value, max);
        open := open - (set f | f in fs);
      }
    }

    method UpdateFileHandle(path: Path, fnum: Fnum, max: nat)
      requires Valid()
      modifies this`fhList, this`fhMap, this`nextId, this`closed
      ensures Valid() && |Cached()| <= max
      ensures Cached() == Update(old(Cached()), path, fnum, max)
      ensures closed == old(closed)
                        + Fnums(Touch(old(Cached()), path, fnum)[..Overflow(Touch(old(Cached()), path, fnum), max)])
    {
      Unlink(path);
      Append(path, fnum);
      EvictOldest(max);
    }

    /** Closes and removes the oldest handles until at most `max` are left. */
    method EvictOldest(max: nat)
      requires Valid()
      modifies this`fhList, this`fhMap, this`closed
      ensures Valid() && |Cached()| <= max
      ensures Cached() == old(Cached())[Overflow(old(Cached()), max)..]
      ensures closed == old(closed) + Fnums(old(Cached())[..Overflow(old(Cached()), max)])
    {
      ghost var s, n := Cached(), 0;
      while |fhList| > max
        invariant Valid() && n <= Overflow(s, max) && |fhList| == |s| - n
        invariant Cached() == s[n..] && closed == old(closed) + Fnums(s[..n])
        decreases |fhList|
      {
        CloseFirst();
        FnumsNext(s, n);
        assert s[n..][1..] == s[n + 1..];
        n := n + 1;
      }
    }

    /** Removes the list node and the map entry of a path, if any. */
    method Unlink(path: Path)
      requires Valid()
      modifies this`fhList, this`fhMap
      ensures Valid() && path !in fhMap
      ensures Cached() == Spec.Without(old(Cached()), path) && path !in Spec.Keys(Cached())
    {
      L.AgreeMeansSameKeys(fhList, fhMap, nextId, path);
      Spec.WithoutDistinct(Cached(), path);
      if path in fhMap {
        var i := L.Position(fhList, fhMap[path]);
        L.EraseAgree(fhList, fhMap, nextId, i);
        L.EraseEntries(fhList, i);
        fhList, fhMap := L.Erase(fhList, i), fhMap - {path};
      }
    }

    method Append(path: Path, fnum: Fnum)
      requires Valid() && path !in fhMap
      modifies this`fhList, this`fhMap, this`nextId
      ensures Valid() && Cached() == old(Cached()) + [Spec.Entry(path, fnum)]
    {
      var node := L.Node(nextId, Spec.Entry(path, fnum));
      BackAgree(node, fhList, fhMap, nextId + 1);
      fhList, fhMap, nextId := fhList + [node], fhMap[path := node.id], nextId + 1;
    }

    method CloseFirst()
      requires Valid() && fhList != []
      modifies this`fhList, this`fhMap, this`closed
      ensures Valid() && Cached() == old(Cached())[1..]
      ensures closed == old(closed) + [old(Cached())[0].value]
    {
      DropFirst(fhList, fhMap, nextId);
      closed := closed + [fhList[0].entry.value];
      fhMap := fhMap - {fhList[0].entry.key};
      fhList := fhList[1..];
    }

    /** The part of PurgeFileHandle that treats one connection. */
    method Purge(path: Path)
      requires Valid()
      modifies this
      ensures Valid() && Abstract() == Serve(old(Abstract()), Request.Purge(path), 0)
      ensures path !in Spec.Keys(Cached())
    {
      var cached := Find(path);
      if cached.Some? {
        Unlink(path);
        CloseHandle(cached.value);
      }
    }

    method CloseHandle(fnum: Fnum)
      requires Valid()
      modifies this`closed, this`open
      ensures Valid() && Abstract() == CloseSome(old(Abstract()), [fnum])
    {
      closed := closed + [fnum];
      open := open - (set x | x in [fnum]);
    }

    /** The part of ShutdownSmbConnection that treats the cached handles: each is
        closed once, in list order. */
    method CloseAll()
      requires Valid()
      modifies this
      ensures Valid() && Abstract() == Serve(old(Abstract()), Shutdown, 0)
      ensures closed == old(closed) + Fnums(old(Cached()))
    {
      ghost var fs := Fnums(Cached());
      SendCloses();
      fhList, fhMap, open := [], map[], open - (set f | f in fs);
    }

    method SendCloses()
      modifies this`closed
      ensures closed == old(closed) + Fnums(Cached())
    {
      ghost var s := Cached();
      for i := 0 to |fhList|
        invariant closed == old(closed) + Fnums(s[..i])
      {
        closed := closed + [fhList[i].entry.value];
        FnumsNext(s, i);
      }
      assert s[..|fhList|] == s;
    }
  }

  /** `c` is what purging `path` makes of a connection that was `before`. */
  ghost predicate Purged(c: SmbConnection, before: Conn, path: Path)
    reads c
  {
    c.Valid() && path !in Spec.Keys(c.Cached()) && c.Abstract() == Serve(before, Request.Purge(path), 0)
  }

  /** PurgeFileHandle on all connections of a task, active and inactive. */
  method PurgeFileHandle(conns: seq<SmbConnection>, path: Path)
    requires forall i, j :: 0 <= i < j < |conns| ==> conns[i] != conns[j]
    requires forall i :: 0 <= i < |conns| ==> conns[i].Valid()
    modifies conns
    ensures forall i :: 0 <= i < |conns| ==> Purged(conns[i], old(conns[i].Abstract()), path)
  {
    for n := 0 to |conns|
      invariant forall i :: 0 <= i < n ==> Purged(conns[i], old(conns[i].Abstract()), path)
      invariant forall i :: n <= i < |conns| ==> conns[i].Valid() && conns[i].Abstract() == old(conns[i].Abstract())
    {
      PurgeOne(conns[n], path);
    }
  }

  method PurgeOne(c: SmbConnection, path: Path)
    requires c.Valid()
    modifies c
    ensures Purged(c, old(c.Abstract()), path)
  {
    c.Purge(path);
  }

  lemma DropFirst(l: seq<L.Node<Path, Fnum>>, m: map<Path, nat>, nextId: nat)
    requires L.Agree(l, m, nextId) && l != []
    ensures L.Agree(l[1..], m - {l[0].entry.key}, nextId)
    ensures L.Entries(l[1..]) == L.Entries(l)[1..] && L.Entries(l)[0] == l[0].entry
  {
    L.EraseAgree(l, m, nextId, 0);
    EraseFirst(l);
  }

  lemma EraseFirst(l: seq<L.Node<Path, Fnum>>)
    requires l != []
    ensures L.Erase(l, 0) == l[1..] && L.Entries(l[1..]) == L.Entries(l)[1..]
  {}

  lemma BackAgree(n: L.Node<Path, Fnum>, l: seq<L.Node<Path, Fnum>>, m: map<Path, nat>, nextId: nat)
    requires nextId > 0 && L.Agree(l, m, nextId - 1) && n.entry.key !in m && n.id == nextId - 1
    ensures L.Agree(l + [n], m[n.entry.key := n.id], nextId)
    ensures L.Entries(l + [n]) == L.Entries(l) + [n.entry]
  {
    var r := l + [n];
    assert r[|l|] == n;
    var m' := m[n.entry.key := n.id];
    forall k | k in m' ensures exists i :: 0 <= i < |r| && r[i].entry.key == k {
      if k != n.entry.key {
        var i :| 0 <= i < |l| && l[i].entry.key == k;
        assert r[i].entry.key == k;
      }
    }
  }

  // ---- Whole runs of one connection ----

  /** What a connection is asked to do. A use is one read or write of a chunk with
      the attempts that its retry loop makes. */
  datatype Request = Use(path: Path, trail: seq<Attempt>) | Purge(path: Path) | Shutdown

  /** Cache, handles open at the server, and the logs of opened and closed ones. */
  datatype Conn = Conn(cache: Handles, open: set<Fnum>, everOpened: multiset<Fnum>, closed: multiset<Fnum>)

  const FRESH := Conn([], {}, multiset{}, multiset{})

  /** The handles that are open but not cached: nothing will ever close them. */
  ghost function Forgotten(c: Conn): set<Fnum> {
    c.open - (set f | f in Fnums(c.cache))
  }

  ghost function CachedFor(cache: Handles, p: Path): Option<Fnum> {
    if p in Spec.Keys(cache) then Some(Spec.Find(cache, p).value) else None
  }

  ghost function CloseSome(c: Conn, fs: seq<Fnum>): Conn {
    c.(open := c.open - (set f | f in fs), closed := c.closed + multiset(fs))
  }

  /** The server has opened `f`. */
  ghost function OpenedOne(c: Conn, f: Fnum): Conn {
    c.(open := c.open + {f}, everOpened := c.everOpened + multiset{f})
  }

  /** The handle is handed to the cache. */
  ghost function Keep(c: Conn, p: Path, f: Fnum, max: nat): Conn {
    var t := Touch(c.cache, p, f);
    CloseSome(c.(cache := t[Overflow(t, max)..]), Fnums(t[..Overflow(t, max)]))
  }

  ghost function Serve(c: Conn, r: Request, max: nat): Conn {
    match r
    case Use(p, trail) =>
      var before := CachedFor(c.cache, p);
      var h := HandleAfter(before, trail);
      var d := if before.None? && h.Some? then OpenedOne(c, h.value) else c;
      if h.None? || Aborted(trail) then d else Keep(d, p, h.value, max)
    case Purge(p) =>
      if p !in Spec.Keys(c.cache) then c else
        CloseSome(c.(cache := Spec.Without(c.cache, p)), [Spec.Find(c.cache, p).value])
    case Shutdown => CloseSome(c.(cache := []), Fnums(c.cache))
  }

  /** A use that was not left early and had a handle makes that handle the newest in the
      cache: the one that was cached, or else the first that an attempt opened. Any
      other use leaves the cache alone. */
  ghost predicate NewestAfterUse(cache: Handles, cache': Handles, p: Path, trail: seq<Attempt>) {
    if !Aborted(trail) && (p in Spec.Keys(cache) || Opens(trail)) then
      && cache' != [] && cache'[|cache'| - 1].key == p
      && var h := cache'[|cache'| - 1].value;
      if p in Spec.Keys(cache) then h == Spec.Find(cache, p).value else FirstOpened(trail, h)
    else cache' == cache
  }

  lemma UseMakesNewest(c: Conn, p: Path, trail: seq<Attempt>, max: nat)
    ensures 0 < max ==> NewestAfterUse(c.cache, Serve(c, Use(p, trail), max).cache, p, trail)
  {
    if p in Spec.Keys(c.cache) {
      HandleKept(CachedFor(c.cache, p), trail);
    } else {
      HandleIffOpened(trail);
      if Opens(trail) {
        HandleIsFirstOpened(trail);
      }
    }
  }

  /** The server only hands out numbers that are not open. */
  ghost predicate Allowed(c: Conn, r: Request) {
    r.Use? && r.path !in Spec.Keys(c.cache) ==>
      var h := HandleAfter(None, r.trail); h.Some? ==> h.value !in c.open
  }

  ghost predicate IsRun(tr: seq<Conn>, rs: seq<Request>, max: nat) {
    && |tr| == |rs| + 1 && tr[0] == FRESH
    && forall i :: 0 <= i < |rs| ==> Allowed(tr[i], rs[i]) && tr[i + 1] == Serve(tr[i], rs[i], max)
  }

  /** Every handle ever opened is still open or has been closed exactly once, and
      the cached ones are among the open ones, once each, so nothing is closed
      while it is cached. */
  ghost predicate Accounted(c: Conn, max: nat) {
    && Spec.Distinct(c.cache) && |c.cache| <= max
    && c.everOpened == c.closed + multiset(c.open)
    && multiset(c.open) == multiset(Fnums(c.cache)) + multiset(Forgotten(c))
  }

  lemma TouchCounts(s: Handles, p: Path, f: Fnum)
    requires Spec.Distinct(s) && (p in Spec.Keys(s) ==> Spec.Find(s, p).value == f)
    ensures Spec.Distinct(Touch(s, p, f))
    ensures multiset(Fnums(Touch(s, p, f)))
         == multiset(Fnums(s)) + if p in Spec.Keys(s) then multiset{} else multiset{f}
  {
    var e := Spec.Entry(p, f);
    Spec.WithoutDistinct(s, p);
    var w := Spec.Without(s, p);
    assert forall i :: 0 <= i < |w| ==> w[i] in w;
    FnumsConcat(w, [e]);
    assert Fnums([e]) == [f];
    WithoutCounts(s, p);
  }

  lemma WithoutCounts(s: Handles, p: Path)
    requires Spec.Distinct(s)
    ensures multiset(Fnums(s)) == multiset(Fnums(Spec.Without(s, p)))
         + if p in Spec.Keys(s) then multiset{Spec.Find(s, p).value} else multiset{}
  {
    if p in Spec.Keys(s) {
      var i :| 0 <= i < |s| && s[i] == Spec.Find(s, p);
      Spec.WithoutAt(s, i);
      Spec.SplitAt(s, i);
      MiddleCounts(s[..i], s[i], s[i + 1..]);
    }
  }

  lemma MiddleCounts(a: Handles, e: Spec.Entry<Path, Fnum>, b: Handles)
    ensures multiset(Fnums(a + ([e] + b))) == multiset(Fnums(a + b)) + multiset{e.value}
  {
    FnumsConcat(a, b);
    FnumsConcat(a, [e] + b);
    FnumsConcat([e], b);
    assert Fnums([e]) == [e.value];
  }

  lemma CutCounts(t: Handles, n: nat)
    requires n <= |t|
    ensures multiset(Fnums(t)) == multiset(Fnums(t[..n])) + multiset(Fnums(t[n..]))
  {
    assert t == t[..n] + t[n..];
    FnumsConcat(t[..n], t[n..]);
  }

  /** Closing handles that are counted once in the table of open ones. */
  lemma CloseCounts(open: set<Fnum>, fs: seq<Fnum>, rest: multiset<Fnum>)
    requires multiset(open) == multiset(fs) + rest
    ensures multiset(open - (set f | f in fs)) == rest
  {
    var left := open - (set f | f in fs);
    forall f: Fnum ensures multiset(left)[f] == rest[f] {
      assert f in fs <==> f in multiset(fs);
      assert multiset(open)[f] == multiset(fs)[f] + rest[f];
    }
  }

  lemma OpenOne(open: set<Fnum>, f: Fnum)
    requires f !in open
    ensures multiset(open + {f}) == multiset(open) + multiset{f}
  {}

  /** The forgotten handles are what the cached ones leave of the open ones. */
  lemma ForgottenIs(c: Conn, rest: set<Fnum>)
    requires multiset(c.open) == multiset(Fnums(c.cache)) + multiset(rest)
    ensures Forgotten(c) == rest
  {
    forall f: Fnum ensures f in Forgotten(c) <==> f in rest {
      assert multiset(c.open)[f] == multiset(Fnums(c.cache))[f] + multiset(rest)[f];
      assert f in Fnums(c.cache) <==> f in multiset(Fnums(c.cache));
    }
  }

  /** Closing some handles: what was open is closed or still open. */
  lemma CloseKeepsLog(c: Conn, fs: seq<Fnum>, rest: multiset<Fnum>)
    requires c.everOpened == c.closed + multiset(c.open) && multiset(c.open) == multiset(fs) + rest
    ensures var d := CloseSome(c, fs); multiset(d.open) == rest && d.everOpened == d.closed + multiset(d.open)
  {
    CloseCounts(c.open, fs, rest);
    assert c.closed + (multiset(fs) + rest) == (c.closed + multiset(fs)) + rest;
  }

  /** A handle in use, cached or just opened, is handed to the cache. */
  lemma KeepAccounts(c: Conn, p: Path, f: Fnum, max: nat, rest: set<Fnum>)
    requires Spec.Distinct(c.cache) && c.everOpened == c.closed + multiset(c.open)
    requires p in Spec.Keys(c.cache) ==> Spec.Find(c.cache, p).value == f
    requires multiset(c.open) == multiset(Fnums(Touch(c.cache, p, f))) + multiset(rest)
    ensures Accounted(Keep(c, p, f, max), max) && Forgotten(Keep(c, p, f, max)) == rest
  {
    var t := Touch(c.cache, p, f);
    var n := Overflow(t, max);
    TouchCounts(c.cache, p, f);
    CutAccounts(c.(cache := t), n, rest);
    ForgottenIs(Keep(c, p, f, max), rest);
  }

  /** Giving up the first `n` cached handles. */
  lemma CutAccounts(c: Conn, n: nat, rest: set<Fnum>)
    requires Spec.Distinct(c.cache) && n <= |c.cache| && c.everOpened == c.closed + multiset(c.open)
    requires multiset(c.open) == multiset(Fnums(c.cache)) + multiset(rest)
    ensures var d := CloseSome(c.(cache := c.cache[n..]), Fnums(c.cache[..n]));
            && Spec.Distinct(d.cache) && d.everOpened == d.closed + multiset(d.open)
            && multiset(d.open) == multiset(Fnums(d.cache)) + multiset(rest)
  {
    var a, b := Fnums(c.cache[..n]), multiset(Fnums(c.cache[n..])) + multiset(rest);
    CutCounts(c.cache, n);
    assert multiset(c.open) == multiset(a) + b;
    CloseKeepsLog(c.(cache := c.cache[n..]), a, b);
  }

  lemma OpenAccounts(c: Conn, f: Fnum, max: nat)
    requires Accounted(c, max) && f !in c.open
    ensures Accounted(OpenedOne(c, f), max) && Forgotten(OpenedOne(c, f)) == Forgotten(c) + {f}
    ensures f !in Forgotten(c)
  {
    var d := OpenedOne(c, f);
    OpenOne(c.open, f);
    OpenOne(Forgotten(c), f);
    assert multiset(d.open) == multiset(Fnums(c.cache)) + (multiset(Forgotten(c)) + multiset{f});
    ForgottenIs(d, Forgotten(c) + {f});
    assert c.closed + multiset(c.open) + multiset{f} == c.closed + (multiset(c.open) + multiset{f});
  }

  /** Which handle a use forgets: the one that its attempts opened for an uncached
      path, if they ended by an early return. */
  ghost function Loses(c: Conn, r: Request): set<Fnum> {
    if r.Use? && r.path !in Spec.Keys(c.cache) && Aborted(r.trail) && HandleAfter(None, r.trail).Some?
    then {HandleAfter(None, r.trail).value} else {}
  }

  lemma UseCached(c: Conn, p: Path, trail: seq<Attempt>, max: nat)
    requires Accounted(c, max) && p in Spec.Keys(c.cache)
    ensures var d := Serve(c, Use(p, trail), max); Accounted(d, max) && Forgotten(d) == Forgotten(c)
  {
    var before := CachedFor(c.cache, p);
    HandleKept(before, trail);
    if !Aborted(trail) {
      TouchCounts(c.cache, p, before.value);
      KeepAccounts(c, p, before.value, max, Forgotten(c));
    }
  }

  lemma NewHandleKept(c: Conn, p: Path, f: Fnum, max: nat)
    requires Accounted(c, max) && p !in Spec.Keys(c.cache) && f !in c.open
    ensures var d := Keep(OpenedOne(c, f), p, f, max); Accounted(d, max) && Forgotten(d) == Forgotten(c)
  {
    var d, rest := OpenedOne(c, f), Forgotten(c);
    OpenAccounts(c, f, max);
    TouchCounts(c.cache, p, f);
    OpenOne(c.open, f);
    assert multiset(d.open) == multiset(Fnums(c.cache)) + multiset{f} + multiset(rest);
    KeepAccounts(d, p, f, max, rest);
  }

  /** What is left of a use of an uncached path. */
  lemma ServeUncached(c: Conn, p: Path, trail: seq<Attempt>, max: nat)
    requires p !in Spec.Keys(c.cache)
    ensures var h, d := HandleAfter(None, trail), Serve(c, Use(p, trail), max);
            if h.None? then d == c && Loses(c, Use(p, trail)) == {}
            else if Aborted(trail) then d == OpenedOne(c, h.value) && Loses(c, Use(p, trail)) == {h.value}
            else d == Keep(OpenedOne(c, h.value), p, h.value, max) && Loses(c, Use(p, trail)) == {}
  {
  }

  lemma UseUncached(c: Conn, p: Path, trail: seq<Attempt>, max: nat)
    requires Accounted(c, max) && p !in Spec.Keys(c.cache) && Allowed(c, Use(p, trail))
    ensures var d := Serve(c, Use(p, trail), max);
            Accounted(d, max) && Forgotten(d) == Forgotten(c) + Loses(c, Use(p, trail))
  {
    var h := HandleAfter(None, trail);
    ServeUncached(c, p, trail, max);
    if h.Some? {
      if Aborted(trail) {
        OpenAccounts(c, h.value, max);
      } else {
        NewHandleKept(c, p, h.value, max);
      }
    }
  }

  lemma PurgeAccounts(c: Conn, p: Path, max: nat)
    requires Accounted(c, max) && p in Spec.Keys(c.cache)
    ensures var d := Serve(c, Request.Purge(p), max); Accounted(d, max) && Forgotten(d) == Forgotten(c)
  {
    var w, f, rest := Spec.Without(c.cache, p), Spec.Find(c.cache, p).value, Forgotten(c);
    Spec.WithoutDistinct(c.cache, p);
    WithoutCounts(c.cache, p);
    assert multiset([f]) == multiset{f};
    assert multiset(c.open) == multiset([f]) + (multiset(Fnums(w)) + multiset(rest));
    CloseKeepsLog(c.(cache := w), [f], multiset(Fnums(w)) + multiset(rest));
    ForgottenIs(Serve(c, Request.Purge(p), max), rest);
  }

  lemma ShutdownAccounts(c: Conn, max: nat)
    requires Accounted(c, max)
    ensures var d := Serve(c, Shutdown, max);
            Accounted(d, max) && Forgotten(d) == Forgotten(c) && d.cache == [] && d.open == Forgotten(c)
  {
    var d, rest := Serve(c, Shutdown, max), Forgotten(c);
    assert Fnums([]) == [];
    CloseKeepsLog(c.(cache := []), Fnums(c.cache), multiset(rest));
    assert multiset(Fnums([])) + multiset(rest) == multiset(rest);
    ForgottenIs(d, rest);
  }

  lemma ServeAccounts(c: Conn, r: Request, max: nat)
    requires Accounted(c, max) && Allowed(c, r)
    ensures Accounted(Serve(c, r, max), max)
    ensures Forgotten(Serve(c, r, max)) == Forgotten(c) + Loses(c, r)
    ensures r.Shutdown? ==> Serve(c, r, max).cache == [] && Serve(c, r, max).open == Forgotten(c)
  {
    match r
    case Use(p, trail) =>
      if p in Spec.Keys(c.cache) {
        UseCached(c, p, trail, max);
      } else {
        UseUncached(c, p, trail, max);
      }
    case Purge(p) =>
      if p in Spec.Keys(c.cache) {
        PurgeAccounts(c, p, max);
      }
    case Shutdown => ShutdownAccounts(c, max);
  }

  /** Handles are conserved in every run; after a shutdown only forgotten handles
      are open; and without forgetting requests none are. */
  lemma {:induction false} HandlesAreConserved(tr: seq<Conn>, rs: seq<Request>, max: nat, i: nat)
    requires IsRun(tr, rs, max) && i < |tr|
    ensures Accounted(tr[i], max)
    ensures i > 0 && rs[i - 1].Shutdown? ==> tr[i].cache == [] && tr[i].open == Forgotten(tr[i])
    ensures (forall j :: 0 <= j < i ==> Loses(tr[j], rs[j]) == {}) ==> Forgotten(tr[i]) == {}
  {
    if i == 0 {
      FreshAccounts(max);
    } else {
      HandlesAreConserved(tr, rs, max, i - 1);
      assert tr[i - 1 + 1] == Serve(tr[i - 1], rs[i - 1], max);
      ServeAccounts(tr[i - 1], rs[i - 1], max);
    }
  }

  lemma FreshAccounts(max: nat)
    ensures Accounted(FRESH, max) && Forgotten(FRESH) == {}
  {
    assert Fnums([]) == [];
  }

  /** A request forgets a handle if and only if it uses a path that is not cached,
      some attempt of its retry loop opens a handle, and the loop is left early:
      no memory context, an unusable connection, a missing file or a permission
      error. */
  lemma ForgetsIff(c: Conn, r: Request, max: nat)
    requires Accounted(c, max) && Allowed(c, r)
    ensures Forgotten(Serve(c, r, max)) != Forgotten(c) <==>
            r.Use? && r.path !in Spec.Keys(c.cache) && Opens(r.trail) && Aborted(r.trail)
  {
    ServeAccounts(c, r, max);
    if r.Use? {
      HandleIffOpened(r.trail);
      if r.path !in Spec.Keys(c.cache) && HandleAfter(None, r.trail).Some? {
        assert HandleAfter(None, r.trail).value !in Forgotten(c);
      }
    }
  }

  const UNSUCCESSFUL: uint32 := 0xC000_0001

  /** Two attempts of a read that forget a handle: the first opens it and fails
      in a way that is tried again, the second finds the connection reset. */
  lemma TwoAttemptsForgetAHandle(size: uint32, available: nat, max: nat, path: Path)
    ensures var trail := [C.ReadAttempt(C.ReadFailed(UNSUCCESSFUL), Some(5), size, available),
                          C.ReadAttempt(C.ReadFailed(CONNECTION_RESET), None, size, available)];
            && IsTrail(trail, 1 + max)
            && Forgotten(Serve(FRESH, Use(path, trail), max)) == {5}
  {
    var trail := [C.ReadAttempt(C.ReadFailed(UNSUCCESSFUL), Some(5), size, available),
                  C.ReadAttempt(C.ReadFailed(CONNECTION_RESET), None, size, available)];
    assert trail[..1] == [trail[0]] && trail[..1][..0] == [];
    assert HandleAfter(None, trail[..1]) == Some(5);
    assert Fnums([]) == [];
    assert Spec.Keys(FRESH.cache) == {};
  }
}
