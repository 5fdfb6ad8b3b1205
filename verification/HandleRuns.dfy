/** The handle cache of a connection over whole runs is an LRU cache: what LruSpec says
    of keys holds of the paths whose handles are cached. */
module HandleRuns {
  import opened Status
  import opened Attempts
  import opened HandleCache
  import Spec = LruSpec

  /** The path whose handle the request makes the newest, if any. */
  ghost predicate Renews(c: Conn, r: Request, p: Path) {
    r.Use? && r.path == p && !Aborted(r.trail) && (p in Spec.Keys(c.cache) || Opens(r.trail))
  }

  ghost predicate Loosens(r: Request, p: Path) { r.Shutdown? || r == Request.Purge(p) }

  /** The request as operations of an LRU cache. */
  ghost function OpsOf(c: Conn, r: Request): seq<Spec.Op<Path, Fnum>> {
    match r
    case Use(p, trail) => if Renews(c, r, p) then [Spec.Insert(p, HandleOf(c, p, trail))] else []
    case Purge(p) => [Spec.Remove(p)]
    case Shutdown => [Spec.Clear]
  }

  ghost function HandleOf(c: Conn, p: Path, trail: seq<Attempt>): Fnum {
    HandleAfter(CachedFor(c.cache, p), trail).UnwrapOr(0)
  }

  /** All operations of the requests from `m` up to `n`. */
  ghost function OpsBetween(tr: seq<Conn>, rs: seq<Request>, m: nat, n: nat): seq<Spec.Op<Path, Fnum>>
    requires m <= n <= |rs| && |tr| == |rs| + 1
  {
    if n == m then [] else OpsBetween(tr, rs, m, n - 1) + OpsOf(tr[n - 1], rs[n - 1])
  }

  lemma RunOne(s: Handles, op: Spec.Op<Path, Fnum>, max: nat)
    ensures Spec.Run(s, [op], max) == Spec.Apply(s, op, max)
  {
    assert [op][..0] == [];
    assert Spec.Run(s, [], max) == s;
  }

  lemma RunConcat(s: Handles, ops: seq<Spec.Op<Path, Fnum>>, more: seq<Spec.Op<Path, Fnum>>, max: nat)
    requires |more| <= 1
    ensures Spec.Run(s, ops + more, max) == Spec.Run(Spec.Run(s, ops, max), more, max)
  {
    if more == [] {
      assert ops + more == ops;
    } else {
      assert (ops + more)[..|ops|] == ops && more[..0] == [];
    }
  }

  lemma UseIsLru(c: Conn, p: Path, trail: seq<Attempt>, max: nat)
    requires 0 < max && Spec.Distinct(c.cache) && |c.cache| <= max
    ensures Reverse(Serve(c, Use(p, trail), max).cache)
         == if Renews(c, Use(p, trail), p) then Spec.Apply(Reverse(c.cache), Spec.Insert(p, HandleOf(c, p, trail)), max)
            else Reverse(c.cache)
  {
    UseHasHandle(c, p, trail);
    UseUpdates(c, p, trail, max);
    if Renews(c, Use(p, trail), p) {
      UpdateIsLruInsert(c.cache, p, HandleOf(c, p, trail), max);
    }
  }

  lemma UseUpdates(c: Conn, p: Path, trail: seq<Attempt>, max: nat)
    ensures var h, d := HandleAfter(CachedFor(c.cache, p), trail), Serve(c, Use(p, trail), max);
            d.cache == if h.None? || Aborted(trail) then c.cache else Update(c.cache, p, h.value, max)
  {
  }

  /** One request on the reversed cache. */
  lemma ServeIsLru(c: Conn, r: Request, max: nat)
    requires 0 < max && Spec.Distinct(c.cache) && |c.cache| <= max
    ensures Reverse(Serve(c, r, max).cache) == Spec.Run(Reverse(c.cache), OpsOf(c, r), max)
  {
    match r
    case Use(p, trail) =>
      UseIsLru(c, p, trail, max);
      RunOne(Reverse(c.cache), Spec.Insert(p, HandleOf(c, p, trail)), max);
    case Purge(p) =>
      ReverseWithout(c.cache, p);
      RunOne(Reverse(c.cache), Spec.Remove(p), max);
    case Shutdown =>
      RunOne(Reverse(c.cache), Spec.Clear, max);
  }

  lemma UseHasHandle(c: Conn, p: Path, trail: seq<Attempt>)
    ensures HandleAfter(CachedFor(c.cache, p), trail).Some? <==> p in Spec.Keys(c.cache) || Opens(trail)
  {
    if p in Spec.Keys(c.cache) {
      HandleKept(CachedFor(c.cache, p), trail);
    } else {
      HandleIffOpened(trail);
    }
  }

  /** From any moment of a run to any later one, the reversed cache is what the LRU cache
      of the repository makes of the insertions and removals in between. */
  lemma {:induction false} RunIsLru(tr: seq<Conn>, rs: seq<Request>, max: nat, m: nat, n: nat)
    requires 0 < max && IsRun(tr, rs, max) && m <= n < |tr|
    ensures Reverse(tr[n].cache) == Spec.Run(Reverse(tr[m].cache), OpsBetween(tr, rs, m, n), max)
    ensures Spec.Distinct(tr[m].cache) && |tr[m].cache| <= max
  {
    HandlesAreConserved(tr, rs, max, m);
    if m < n {
      RunIsLru(tr, rs, max, m, n - 1);
      RunGoesOn(tr, rs, max, m, n - 1);
    }
  }

  lemma RunGoesOn(tr: seq<Conn>, rs: seq<Request>, max: nat, m: nat, n: nat)
    requires 0 < max && IsRun(tr, rs, max) && m <= n < |rs|
    requires Reverse(tr[n].cache) == Spec.Run(Reverse(tr[m].cache), OpsBetween(tr, rs, m, n), max)
    ensures Reverse(tr[n + 1].cache) == Spec.Run(Reverse(tr[m].cache), OpsBetween(tr, rs, m, n + 1), max)
  {
    RunStep(tr, rs, max, n);
    RunConcat(Reverse(tr[m].cache), OpsBetween(tr, rs, m, n), OpsOf(tr[n], rs[n]), max);
  }

  lemma RunStep(tr: seq<Conn>, rs: seq<Request>, max: nat, i: nat)
    requires 0 < max && IsRun(tr, rs, max) && i < |rs|
    ensures Reverse(tr[i + 1].cache) == Spec.Run(Reverse(tr[i].cache), OpsOf(tr[i], rs[i]), max)
  {
    HandlesAreConserved(tr, rs, max, i);
    ServeIsLru(tr[i], rs[i], max);
  }

  // ---- Which handles are evicted ----

  /** The paths whose handles were made the newest by the requests from `m` up to `n`. */
  ghost function Renewed(tr: seq<Conn>, rs: seq<Request>, m: nat, n: nat): set<Path>
    requires m <= n <= |rs| && |tr| == |rs| + 1
  {
    if n == m then {} else Renewed(tr, rs, m, n - 1) + RenewedBy(tr[n - 1], rs[n - 1])
  }

  /** The paths that one request makes the newest. */
  ghost function RenewedBy(c: Conn, r: Request): set<Path> {
    if r.Use? && Renews(c, r, r.path) then {r.path} else {}
  }

  lemma OpsRenew(c: Conn, r: Request)
    ensures var ops := OpsOf(c, r);
            && |ops| <= 1 && (ops == [] || !ops[0].Lookup?)
            && RenewedBy(c, r) == if ops != [] && ops[0].Insert? then {ops[0].key} else {}
  {
  }

  ghost predicate IsTouched(tr: seq<Conn>, rs: seq<Request>, s: Handles, max: nat, m: nat, n: nat)
    requires m <= n <= |rs| && |tr| == |rs| + 1
  {
    Spec.Touched(s, OpsBetween(tr, rs, m, n), max) == Renewed(tr, rs, m, n)
  }

  lemma {:induction false} RenewedAreTouched(tr: seq<Conn>, rs: seq<Request>, s: Handles, max: nat, m: nat, n: nat)
    requires m <= n <= |rs| && |tr| == |rs| + 1
    ensures IsTouched(tr, rs, s, max, m, n)
    decreases n
  {
    if m < n {
      RenewedAreTouched(tr, rs, s, max, m, n - 1);
      TouchedStep(tr, rs, s, max, m, n);
    } else {
      NoneTouched(tr, rs, s, max, m, n);
    }
  }

  lemma NoneTouched(tr: seq<Conn>, rs: seq<Request>, s: Handles, max: nat, m: nat, n: nat)
    requires m == n <= |rs| && |tr| == |rs| + 1
    ensures IsTouched(tr, rs, s, max, m, n)
  {
  }

  lemma TouchedStep(tr: seq<Conn>, rs: seq<Request>, s: Handles, max: nat, m: nat, n: nat)
    requires m < n <= |rs| && |tr| == |rs| + 1 && IsTouched(tr, rs, s, max, m, n - 1)
    ensures IsTouched(tr, rs, s, max, m, n)
  {
    OpsRenew(tr[n - 1], rs[n - 1]);
    TouchedConcat(s, OpsBetween(tr, rs, m, n - 1), OpsOf(tr[n - 1], rs[n - 1]), max);
  }

  lemma TouchedConcat(s: Handles, ops: seq<Spec.Op<Path, Fnum>>, more: seq<Spec.Op<Path, Fnum>>, max: nat)
    requires |more| <= 1 && (more == [] || !more[0].Lookup?)
    ensures Spec.Touched(s, ops + more, max)
         == Spec.Touched(s, ops, max) + if more != [] && more[0].Insert? then {more[0].key} else {}
  {
    if more == [] {
      assert ops + more == ops;
    } else {
      assert (ops + more)[..|ops|] == ops;
    }
  }

  lemma {:induction false} OpsComeFrom(tr: seq<Conn>, rs: seq<Request>, m: nat, n: nat, p: Path)
    requires m <= n <= |rs| && |tr| == |rs| + 1
    requires forall i :: m <= i < n ==> !Loosens(rs[i], p)
    ensures forall op :: op in OpsBetween(tr, rs, m, n) ==> !Spec.Discards(op, p)
  {
    if m < n {
      OpsComeFrom(tr, rs, m, n - 1, p);
    }
  }

  /** The handle that a request made the newest is at the front of the reversed cache. */
  lemma RenewedIsFront(tr: seq<Conn>, rs: seq<Request>, max: nat, m: nat, p: Path)
    requires 0 < max && IsRun(tr, rs, max) && m < |rs| && Renews(tr[m], rs[m], p)
    ensures var s := Reverse(tr[m + 1].cache);
            Spec.Distinct(s) && 0 < |s| <= max && s[0].key == p
  {
    HandlesAreConserved(tr, rs, max, m + 1);
    UseMakesNewest(tr[m], p, rs[m].trail, max);
    ReverseWithout(tr[m + 1].cache, p);
  }

  lemma SameKeys(s: Handles)
    ensures Spec.Keys(Reverse(s)) == Spec.Keys(s)
  {
    forall e | e in s ensures e in Reverse(s) {
      var i :| 0 <= i < |s| && s[i] == e;
      assert Reverse(s)[|s| - 1 - i] == e;
    }
  }

  /** In every run, the handle that a read or write used stays cached while its path is
      not purged, the connection is not shut down, and fewer than `max` other handles
      are used. */
  lemma UsedHandleStays(tr: seq<Conn>, rs: seq<Request>, max: nat, m: nat, n: nat, p: Path)
    requires 0 < max && IsRun(tr, rs, max) && m < n < |tr| && Renews(tr[m], rs[m], p)
    requires forall i :: m < i < n ==> !Loosens(rs[i], p)
    requires |Renewed(tr, rs, m + 1, n) - {p}| < max
    ensures p in Spec.Keys(tr[n].cache)
  {
    var s, ops := Reverse(tr[m + 1].cache), OpsBetween(tr, rs, m + 1, n);
    RenewedIsFront(tr, rs, max, m, p);
    RunIsLru(tr, rs, max, m + 1, n);
    OpsComeFrom(tr, rs, m + 1, n, p);
    RenewedAreTouched(tr, rs, s, max, m + 1, n);
    Spec.RecentKeyIsRetained(s, ops, max, p);
    SameKeys(tr[n].cache);
  }

  /** The bound is exact: if nothing is purged or shut down and the path itself is not
      used, its handle is still cached if and only if fewer than `max` others were
      used. */
  lemma UsedHandleStaysIff(tr: seq<Conn>, rs: seq<Request>, max: nat, m: nat, n: nat, p: Path)
    requires 0 < max && IsRun(tr, rs, max) && m < n < |tr| && Renews(tr[m], rs[m], p)
    requires forall i :: m < i < n ==> rs[i].Use? && rs[i].path != p
    ensures p in Spec.Keys(tr[n].cache) <==> |Renewed(tr, rs, m + 1, n)| < max
  {
    var s, ops := Reverse(tr[m + 1].cache), OpsBetween(tr, rs, m + 1, n);
    RenewedIsFront(tr, rs, max, m, p);
    RunIsLru(tr, rs, max, m + 1, n);
    QuietOps(tr, rs, m + 1, n, p);
    RenewedAreTouched(tr, rs, s, max, m + 1, n);
    Spec.RetentionIsExact(s, ops, max, p);
    SameKeys(tr[n].cache);
  }

  lemma {:induction false} QuietOps(tr: seq<Conn>, rs: seq<Request>, m: nat, n: nat, p: Path)
    requires m <= n <= |rs| && |tr| == |rs| + 1
    requires forall i :: m <= i < n ==> rs[i].Use? && rs[i].path != p
    ensures forall op :: op in OpsBetween(tr, rs, m, n) ==> Spec.Quiet(op, p)
  {
    if m < n {
      QuietOps(tr, rs, m, n - 1, p);
    }
  }
}
