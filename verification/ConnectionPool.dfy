/** The connections of one task. An active connection is found under its creation
    time; inactive ones wait in a list to be reused. Connections are shared
    objects in the program: here they have identities and live in `conns`. */
module ConnectionPool {
  import opened Status
  import opened Collections

  type ConnId = nat

  /** An open directory handle: how far the server has read the listing of `path`. */
  datatype Cursor = Cursor(path: string, position: nat)

  datatype Conn = Conn(created: int, access: int, dir: Option<Cursor>, fetched: int, cached: set<string>, shut: bool)

  datatype Pool = Pool(active: map<int, ConnId>, inactive: seq<ConnId>, conns: map<ConnId, Conn>) {
    ghost predicate Valid() {
      && (forall k :: k in active ==> active[k] in conns)
      && (forall i :: 0 <= i < |inactive| ==> inactive[i] in conns)
    }
  }

  const NO_COOKIE: int := -1

  // ---- What each operation does to the pool ----

  function Shutdown(p: Pool, id: ConnId): Pool
    requires id in p.conns
  {
    p.(conns := p.conns[id := p.conns[id].(cached := {}, shut := true)])
  }

  function Reset(p: Pool, id: ConnId): Pool
    requires id in p.conns
  {
    p.(conns := p.conns[id := p.conns[id].(dir := None, fetched := 0)])
  }

  /** Out of the active map, and into the inactive list if it is to be reused. */
  function Retire(p: Pool, id: ConnId, reuse: bool, now: int): Pool
    requires id in p.conns
  {
    var q := p.(active := p.active - {p.conns[id].created});
    if reuse then q.(inactive := q.inactive + [id], conns := q.conns[id := q.conns[id].(access := now)]) else q
  }

  function Release(p: Pool, id: ConnId, reuse: bool, now: int): Pool
    requires id in p.conns
  {
    Retire(Reset(p, id), id, reuse, now)
  }

  /** std::unordered_map::emplace keeps an entry that is already there. */
  function Emplace(active: map<int, ConnId>, key: int, id: ConnId): map<int, ConnId> {
    if key in active then active else active[key := id]
  }

  function Touch(p: Pool, id: ConnId, now: int): Pool
    requires id in p.conns
  {
    p.(conns := p.conns[id := p.conns[id].(access := now)])
  }

  function Activate(p: Pool, i: nat, now: int): Pool
    requires p.Valid() && i < |p.inactive|
  {
    var id := p.inactive[i];
    Touch(p.(inactive := p.inactive[..i] + p.inactive[i + 1..],
             active := Emplace(p.active, p.conns[id].created, id)), id, now)
  }

  function Add(p: Pool, id: ConnId, now: int): Pool {
    p.(conns := p.conns[id := Conn(now, now, None, 0, {}, false)], active := Emplace(p.active, now, id))
  }

  ghost predicate Caches(p: Pool, i: nat, path: string)
    requires p.Valid() && i < |p.inactive|
  {
    path in p.conns[p.inactive[i]].cached
  }

  /** The inactive connection to reuse: the first that caches the path, or else
      the first of all. */
  ghost predicate IsPick(p: Pool, path: string, i: nat)
    requires p.Valid() && i < |p.inactive|
  {
    || (path != "" && Caches(p, i, path) && forall j :: 0 <= j < i ==> !Caches(p, j, path))
    || (i == 0 && (path == "" || forall j :: 0 <= j < |p.inactive| ==> !Caches(p, j, path)))
  }

  /** A new connection's creation time differs from all earlier ones. */
  ghost predicate UnusedTime(conns: map<ConnId, Conn>, now: int) {
    forall id :: id in conns ==> conns[id].created != now
  }

  /** A request without a cookie: the outcome `id`, or None if no connection
      could be made. */
  ghost predicate Obtained(p: Pool, q: Pool, path: string, now: int, newId: ConnId, id: Option<ConnId>)
    requires p.Valid()
  {
    if p.inactive != [] then
      exists i :: 0 <= i < |p.inactive| && IsPick(p, path, i) && id == Some(p.inactive[i]) && q == Activate(p, i, now)
    else
      (id == Some(newId) && q == Add(p, newId, now)) || (id == None && q == p)
  }

  /** A request with a cookie. A connection whose counter differs has sent pages
      that the client did not receive: it is shut down. */
  function Resume(p: Pool, created: int, fetched: int, now: int): (Pool, Option<ConnId>)
    requires p.Valid()
  {
    if created !in p.active then (p, None)
    else
      var id := p.active[created];
      if p.conns[id].fetched != fetched then (Shutdown(p, id).(active := p.active - {created}), None)
      else (Touch(p, id, now), Some(id))
  }

  /** A cookie finds the connection active under its time if the counts agree, and
      then only the time of its last use changes. If they do not, the connection is
      shut and no longer active. */
  ghost predicate CookieAnswered(p: Pool, q: Pool, created: int, fetched: int, now: int, id: Option<ConnId>)
    requires p.Valid()
  {
    if created !in p.active then id == None && q == p
    else
      var c := p.active[created];
      && q.inactive == p.inactive && OnlyDiffers(p.conns, q.conns, c)
      && (if p.conns[c].fetched == fetched
          then id == Some(c) && q.active == p.active && q.conns[c] == p.conns[c].(access := now)
          else id == None && q.active == p.active - {created}
               && q.conns[c] == p.conns[c].(cached := {}, shut := true))
  }

  ghost predicate OnlyDiffers(conns: map<ConnId, Conn>, conns': map<ConnId, Conn>, id: ConnId) {
    conns'.Keys == conns.Keys + {id} && forall x :: x in conns && x != id ==> conns'[x] == conns[x]
  }

  /** Connection `id` moves from the list to the active map: the first in the list, or
      if some connections there cache the path, the first of those. */
  ghost predicate Reused(p: Pool, q: Pool, path: string, now: int, id: ConnId)
    requires p.Valid()
  {
    exists i :: 0 <= i < |p.inactive| && id == p.inactive[i]
      && q.inactive == p.inactive[..i] + p.inactive[i + 1..]
      && OnlyDiffers(p.conns, q.conns, id) && q.conns[id] == p.conns[id].(access := now)
      && (var k := p.conns[id].created; q.active == if k in p.active then p.active else p.active[k := id])
      && (path == "" ==> i == 0)
      && (path != "" && path in p.conns[id].cached ==>
            forall j :: 0 <= j < i ==> path !in p.conns[p.inactive[j]].cached)
      && (path != "" && path !in p.conns[id].cached ==>
            i == 0 && forall x :: x in p.inactive ==> path !in p.conns[x].cached)
  }

  /** A connection without handles, made and used at `now`, is active. */
  ghost predicate Made(p: Pool, q: Pool, now: int, id: ConnId) {
    && q.inactive == p.inactive && OnlyDiffers(p.conns, q.conns, id)
    && q.conns[id] == Conn(now, now, None, 0, {}, false)
    && q.active == if now in p.active then p.active else p.active[now := id]
  }

  lemma CookieAnswers(p: Pool, created: int, fetched: int, now: int)
    requires p.Valid()
    ensures var (q, id) := Resume(p, created, fetched, now); CookieAnswered(p, q, created, fetched, now, id)
  {
  }

  lemma ObtainedIsReused(p: Pool, q: Pool, path: string, now: int, newId: ConnId, id: Option<ConnId>)
    requires p.Valid() && Obtained(p, q, path, now, newId, id)
    ensures p.inactive != [] ==> id.Some? && Reused(p, q, path, now, id.value)
    ensures p.inactive == [] ==> if id.None? then q == p else id == Some(newId) && Made(p, q, now, newId)
  {
    if p.inactive != [] {
      var i :| 0 <= i < |p.inactive| && IsPick(p, path, i) && id == Some(p.inactive[i]) && q == Activate(p, i, now);
      forall x | x in p.inactive && path != "" && path !in p.conns[id.value].cached ensures path !in p.conns[x].cached {
        var j :| 0 <= j < |p.inactive| && x == p.inactive[j];
        assert !Caches(p, j, path);
      }
      forall j | 0 <= j < i && path in p.conns[id.value].cached ensures path !in p.conns[p.inactive[j]].cached {
        assert !Caches(p, j, path);
      }
    }
  }

  /** Taking a connection without a cookie and giving it back leaves the pool as it
      was, but for that connection, which is now clean and the last to be reused. */
  lemma ReleaseUndoesObtain(p: Pool, q: Pool, path: string, now: int, newId: ConnId, id: ConnId, later: int)
    requires p.Valid() && newId !in p.conns && now !in p.active
    requires forall i :: 0 <= i < |p.inactive| ==> p.conns[p.inactive[i]].created !in p.active
    requires Obtained(p, q, path, now, newId, Some(id))
    ensures id in q.conns && GivenBack(p, Release(q, id, true, later), id, later)
  {
    if p.inactive != [] {
      var i :| 0 <= i < |p.inactive| && id == p.inactive[i] && q == Activate(p, i, now);
      ReuseRoundTrip(p, i, now, later);
    } else {
      NewRoundTrip(p, newId, now, later);
    }
  }

  /** `r` is `p` with connection `id`, new or not, waiting at the end of the list. */
  ghost predicate GivenBack(p: Pool, r: Pool, id: ConnId, later: int) {
    && r.active == p.active
    && r.inactive != [] && r.inactive[|r.inactive| - 1] == id
    && multiset(r.inactive) == (if id in p.conns then multiset(p.inactive) else multiset(p.inactive) + multiset{id})
    && (forall x :: x in p.conns && x != id ==> x in r.conns && r.conns[x] == p.conns[x])
    && id in r.conns && r.conns[id].dir == None && r.conns[id].fetched == 0 && r.conns[id].access == later
  }

  lemma MovedToEnd(ids: seq<ConnId>, i: nat)
    requires i < |ids|
    ensures var r := ids[..i] + ids[i + 1..] + [ids[i]]; multiset(r) == multiset(ids) && r[|r| - 1] == ids[i]
  {
    assert ids == ids[..i] + [ids[i]] + ids[i + 1..];
  }

  lemma EmplaceUndone(active: map<int, ConnId>, key: int, id: ConnId)
    requires key !in active
    ensures Emplace(active, key, id) - {key} == active
  {
  }

  lemma ReuseRoundTrip(p: Pool, i: nat, now: int, later: int)
    requires p.Valid() && i < |p.inactive| && p.conns[p.inactive[i]].created !in p.active
    ensures var id := p.inactive[i]; GivenBack(p, Release(Activate(p, i, now), id, true, later), id, later)
  {
    var id := p.inactive[i];
    var r := Release(Activate(p, i, now), id, true, later);
    MovedToEnd(p.inactive, i);
    EmplaceUndone(p.active, p.conns[id].created, id);
    assert r.inactive == p.inactive[..i] + p.inactive[i + 1..] + [id];
  }

  lemma NewRoundTrip(p: Pool, id: ConnId, now: int, later: int)
    requires p.inactive == [] && id !in p.conns && now !in p.active
    ensures GivenBack(p, Release(Add(p, id, now), id, true, later), id, later)
  {
    var r := Release(Add(p, id, now), id, true, later);
    assert r.active == p.active && r.inactive == [id];
  }

  /** Shutting a connection down and dropping it takes it out of the pool for good
      and changes nothing else. */
  lemma ShutdownTakesOut(p: Pool, id: ConnId, now: int)
    requires id in p.conns && p.conns[id].created in p.active && id !in p.inactive
    requires forall k :: k in p.active && p.active[k] == id ==> k == p.conns[id].created
    ensures var r := Release(Shutdown(p, id), id, false, now);
            && id !in r.inactive && (forall k :: k in r.active ==> r.active[k] != id)
            && r.conns[id].shut && r.conns[id].cached == {} && r.conns[id].dir == None
            && r.inactive == p.inactive
            && (forall k :: k in p.active && k != p.conns[id].created ==> k in r.active && r.active[k] == p.active[k])
            && (forall x :: x in p.conns && x != id ==> x in r.conns && r.conns[x] == p.conns[x])
  {
  }

  predicate Idle(c: Conn, now: int, limit: int) { now - c.access > limit }

  function WithoutIdle(p: Pool, ids: seq<ConnId>, now: int, limit: int): seq<ConnId>
    requires forall id :: id in ids ==> id in p.conns
  {
    if ids == [] then []
    else
      var rest := WithoutIdle(p, ids[1..], now, limit);
      if Idle(p.conns[ids[0]], now, limit) then rest else [ids[0]] + rest
  }

  function ShutAll(conns: map<ConnId, Conn>, ids: set<ConnId>): map<ConnId, Conn> {
    map id | id in conns :: if id in ids then conns[id].(cached := {}, shut := true) else conns[id]
  }

  ghost function PurgeIdle(p: Pool, now: int, limit: int): Pool
    requires p.Valid()
  {
    p.(inactive := WithoutIdle(p, p.inactive, now, limit),
       conns := ShutAll(p.conns, IdleOf(p, p.inactive, now, limit)))
  }

  ghost function IdleOf(p: Pool, ids: seq<ConnId>, now: int, limit: int): set<ConnId>
    requires forall id :: id in ids ==> id in p.conns
  {
    set id | id in ids && Idle(p.conns[id], now, limit)
  }

  /** Connections that have not been used for more than `limit` are shut and leave the
      list; the others stay as they are, in their order. */
  ghost predicate IdlePurged(p: Pool, q: Pool, now: int, limit: int)
    requires p.Valid()
  {
    && q.active == p.active && q.conns.Keys == p.conns.Keys
    && (forall id :: id in p.conns ==>
          q.conns[id] == if id in p.inactive && now - p.conns[id].access > limit
                         then p.conns[id].(cached := {}, shut := true) else p.conns[id])
    && (forall id :: id in p.inactive ==>
          multiset(q.inactive)[id] == if now - p.conns[id].access > limit then 0 else multiset(p.inactive)[id])
    && IsSubsequence(q.inactive, p.inactive)
  }

  lemma {:induction false} WithoutIdleKeeps(p: Pool, ids: seq<ConnId>, now: int, limit: int)
    requires forall id :: id in ids ==> id in p.conns
    ensures var w := WithoutIdle(p, ids, now, limit);
            && IsSubsequence(w, ids)
            && forall id :: id in ids ==>
                 multiset(w)[id] == if now - p.conns[id].access > limit then 0 else multiset(ids)[id]
  {
    if ids != [] {
      var rest := WithoutIdle(p, ids[1..], now, limit);
      WithoutIdleKeeps(p, ids[1..], now, limit);
      assert ids == [ids[0]] + ids[1..];
      WithoutIdleIn(p, ids[1..], now, limit);
    }
  }

  lemma {:induction false} WithoutIdleIn(p: Pool, ids: seq<ConnId>, now: int, limit: int)
    requires forall id :: id in ids ==> id in p.conns
    ensures forall id :: id in WithoutIdle(p, ids, now, limit) ==> id in ids
  {
    if ids != [] {
      WithoutIdleIn(p, ids[1..], now, limit);
    }
  }

  lemma PurgeIdleIsExact(p: Pool, now: int, limit: int)
    requires p.Valid()
    ensures IdlePurged(p, PurgeIdle(p, now, limit), now, limit)
  {
    WithoutIdleKeeps(p, p.inactive, now, limit);
  }

  lemma IdlePush(p: Pool, ids: seq<ConnId>, id: ConnId, now: int, limit: int)
    requires id in p.conns && forall x :: x in ids ==> x in p.conns
    ensures IdleOf(p, ids + [id], now, limit)
         == if Idle(p.conns[id], now, limit) then IdleOf(p, ids, now, limit) + {id} else IdleOf(p, ids, now, limit)
  {
  }

  lemma SplitAt(ids: seq<ConnId>, i: nat, done: seq<ConnId>)
    requires i < |ids|
    ensures done + ids[i..] == (done + [ids[i]]) + ids[i + 1..]
    ensures ids[..i + 1] == ids[..i] + [ids[i]]
    ensures (ids[..i] + ids[i + 1..])[..i] == ids[..i] && (ids[..i] + ids[i + 1..])[i..] == ids[i + 1..]
    ensures ids[i] in done + ids[i..]
  {
  }

  ghost function ActiveIds(active: map<int, ConnId>): set<ConnId> {
    set k | k in active :: active[k]
  }

  ghost function PurgeAll(p: Pool): Pool {
    Pool(map[], [], ShutAll(p.conns, ActiveIds(p.active) + (set id | id in p.inactive)))
  }

  ghost predicate Listed(p: Pool, id: ConnId) {
    id in p.inactive || exists k :: k in p.active && p.active[k] == id
  }

  /** No connection of the task is left, and all that were listed are shut. */
  ghost predicate AllPurged(p: Pool, q: Pool)
    requires p.Valid()
  {
    && q.active == map[] && q.inactive == [] && q.conns.Keys == p.conns.Keys
    && forall id :: id in p.conns ==>
         q.conns[id] == if Listed(p, id) then p.conns[id].(cached := {}, shut := true) else p.conns[id]
  }

  lemma PurgeAllIsExact(p: Pool)
    requires p.Valid()
    ensures AllPurged(p, PurgeAll(p))
  {
  }

  lemma ShutOneMore(conns: map<ConnId, Conn>, ids: set<ConnId>, id: ConnId)
    requires id in conns
    ensures var m := ShutAll(conns, ids); m[id := m[id].(cached := {}, shut := true)] == ShutAll(conns, ids + {id})
  {
  }

  lemma ShutNone(conns: map<ConnId, Conn>)
    ensures ShutAll(conns, {}) == conns
  {
  }

  lemma {:induction false} WithoutIdlePush(p: Pool, ids: seq<ConnId>, id: ConnId, now: int, limit: int)
    requires id in p.conns && forall x :: x in ids ==> x in p.conns
    ensures WithoutIdle(p, ids + [id], now, limit)
         == WithoutIdle(p, ids, now, limit) + if Idle(p.conns[id], now, limit) then [] else [id]
  {
    if ids != [] {
      assert (ids + [id])[1..] == ids[1..] + [id];
      WithoutIdlePush(p, ids[1..], id, now, limit);
    }
  }

  class TaskCacheEntry {
    var active: map<int, ConnId>
    var inactive: seq<ConnId>
    var conns: map<ConnId, Conn>

    ghost function State(): Pool
      reads this
    {
      Pool(active, inactive, conns)
    }

    /** `failure` tells whether a new connection could be made. */
    method GetOrCreateSmbConnection(path: string, created: int, fetched: int, now: int, failure: Option<uint32>,
                                    newId: ConnId)
      returns (id: Option<ConnId>, error: Error)
      requires State().Valid() && newId !in conns
      modifies this
      ensures id.Some? <==> error.Ok()
      ensures created != NO_COOKIE ==> (State(), id) == Resume(old(State()), created, fetched, now)
      ensures created != NO_COOKIE && id.None? ==> error == Retry
      ensures created == NO_COOKIE ==> Obtained(old(State()), State(), path, now, newId, id)
      ensures created == NO_COOKIE && id.None? ==> failure.Some? && error == FromSmbErrorMessage(failure.value)
      ensures created != NO_COOKIE ==> CookieAnswered(old(State()), State(), created, fetched, now, id)
      ensures created == NO_COOKIE && old(inactive) != [] ==>
                id.Some? && Reused(old(State()), State(), path, now, id.value)
      ensures created == NO_COOKIE && old(inactive) == [] ==>
                if failure.Some? then id == None && State() == old(State())
                else id == Some(newId) && Made(old(State()), State(), now, newId)
    {
      if created != NO_COOKIE {
        if created !in active {
          return None, Retry;
        }
        var found := active[created];
        if conns[found].fetched != fetched {
          ShutdownSmbConnection(found);
          active := active - {created};
          return None, Retry;
        }
        conns := conns[found := conns[found].(access := now)];
        CookieAnswers(old(State()), created, fetched, now);
        return Some(found), NoError;
      }
      if inactive != [] {
        var pick := 0;
        if path != "" {
          for i := 0 to |inactive|
            invariant pick == 0
            invariant forall j :: 0 <= j < i ==> !Caches(State(), j, path)
          {
            if path in conns[inactive[i]].cached {
              pick := i;
              break;
            }
          }
        }
        assert IsPick(State(), path, pick);
        var reused := inactive[pick];
        inactive := inactive[..pick] + inactive[pick + 1..];
        active := Emplace(active, conns[reused].created, reused);
        conns := conns[reused := conns[reused].(access := now)];
        ObtainedIsReused(old(State()), State(), path, now, newId, Some(reused));
        return Some(reused), NoError;
      }
      if failure.Some? {
        return None, FromSmbErrorMessage(failure.value);
      }
      conns := conns[newId := Conn(now, now, None, 0, {}, false)];
      active := Emplace(active, now, newId);
      return Some(newId), NoError;
    }

    method ReleaseSmbConnection(id: ConnId, reuse: bool, now: int)
      requires id in conns
      modifies this
      ensures State() == Release(old(State()), id, reuse, now)
    {
      conns := conns[id := conns[id].(dir := None, fetched := 0)];
      active := active - {conns[id].created};
      if reuse {
        conns := conns[id := conns[id].(access := now)];
        inactive := inactive + [id];
      }
    }

    /** Closes all handles; the directory handle is closed but not reset. */
    method ShutdownSmbConnection(id: ConnId)
      requires id in conns
      modifies this`conns
      ensures State() == Shutdown(old(State()), id)
    {
      conns := conns[id := conns[id].(cached := {}, shut := true)];
    }

    method MaybePurgeTaskIdleConnections(now: int, limit: int)
      requires State().Valid()
      modifies this
      ensures State() == PurgeIdle(old(State()), now, limit) && IdlePurged(old(State()), State(), now, limit)
    {
      ghost var p0, done: seq<ConnId> := State(), [];
      var i := 0;
      ShutNone(conns);
      while i < |inactive|
        invariant i <= |inactive| && active == p0.active
        invariant done + inactive[i..] == p0.inactive && forall id :: id in done ==> id in p0.conns
        invariant inactive[..i] == WithoutIdle(p0, done, now, limit)
        invariant conns == ShutAll(p0.conns, IdleOf(p0, done, now, limit))
        decreases |inactive| - i
      {
        var id := inactive[i];
        SplitAt(inactive, i, done);
        WithoutIdlePush(p0, done, id, now, limit);
        IdlePush(p0, done, id, now, limit);
        ShutOneMore(p0.conns, IdleOf(p0, done, now, limit), id);
        done := done + [id];
        if Idle(conns[id], now, limit) {
          ShutdownSmbConnection(id);
          inactive := inactive[..i] + inactive[i + 1..];
        } else {
          i := i + 1;
        }
      }
      assert done == p0.inactive && inactive[..i] == inactive;
      PurgeIdleIsExact(p0, now, limit);
    }

    method PurgeTaskAndAllConnections(force: bool) returns (error: Error)
      requires State().Valid()
      modifies this
      ensures !force && old(active) != map[] ==> error == Invalid && State() == old(State())
      ensures force || old(active) == map[] ==>
                error.Ok() && State() == PurgeAll(old(State())) && AllPurged(old(State()), State())
    {
      if !force && active != map[] {
        return Invalid;
      }
      ghost var p0 := State();
      ghost var gone: set<ConnId> := {};
      ShutNone(conns);
      var keys := active.Keys;
      while true
        invariant keys <= active.Keys && active == p0.active && inactive == p0.inactive
        invariant gone == set k | k in active && k !in keys :: active[k]
        invariant conns == ShutAll(p0.conns, gone)
        decreases keys
      {
        if k :| k in keys {
          ShutOneMore(p0.conns, gone, active[k]);
          gone := gone + {active[k]};
          ShutdownSmbConnection(active[k]);
          keys := keys - {k};
        } else {
          break;
        }
      }
      assert gone == ActiveIds(p0.active);
      active := map[];
      for i := 0 to |inactive|
        invariant active == map[] && inactive == p0.inactive
        invariant gone == ActiveIds(p0.active) + set id | id in inactive[..i]
        invariant conns == ShutAll(p0.conns, gone)
      {
        ShutOneMore(p0.conns, gone, inactive[i]);
        gone := gone + {inactive[i]};
        ShutdownSmbConnection(inactive[i]);
      }
      assert inactive[..|inactive|] == inactive;
      inactive := [];
      PurgeAllIsExact(p0);
      return NoError;
    }
  }
}
