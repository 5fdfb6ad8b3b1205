/** Runs of many requests over one task's connection pool, together with the
    purges of the alarm handler. Assumptions, as guards of the steps: creation
    times are distinct, a cookie is presented only while its listing is open and
    by one call at a time, all connections are purged by force only while no
    request is in flight, and a task is purged on request only when it has no
    active connection. */
module PoolRuns {
  import opened Status
  import opened ConnectionPool

  type RequestId = nat

  /** A request works on its connection, may shut it down, and gives it back in
      two steps: it resets the directory state, then moves the connection. */
  datatype Stage = Using | Closing | Leaving(reuse: bool)

  datatype Job = Job(conn: ConnId, stage: Stage)

  /** Auxiliary: where a connection is. */
  datatype Place = Busy(request: RequestId) | Open | Resting | Dead

  datatype State = State(pool: Pool, jobs: map<RequestId, Job>, place: map<ConnId, Place>)

  datatype Step =
    | StartFresh(r: RequestId, path: string, now: int, newId: ConnId, id: Option<ConnId>)
    | StartCookie(r: RequestId, created: int, fetched: int, now: int)
    | Work(r: RequestId, cached: set<string>, dir: Option<Cursor>)
    | ShutDown(r: RequestId)
    | BeginRelease(r: RequestId)
    | EndRelease(r: RequestId, now: int)
    | LeaveOpen(r: RequestId, cursor: Cursor, count: nat)
    | PurgeIdleOnes(now: int, limit: int)
    | PurgeTask

  function AllDead(place: map<ConnId, Place>): map<ConnId, Place> {
    map id | id in place :: Dead
  }

  ghost function DeadIn(place: map<ConnId, Place>, ids: set<ConnId>): map<ConnId, Place> {
    map id | id in place :: if id in ids then Dead else place[id]
  }

  ghost predicate Next(s: State, step: Step, t: State)
    requires s.pool.Valid()
  {
    match step
    case StartFresh(r, path, now, newId, id) =>
      && r !in s.jobs && newId !in s.pool.conns && (s.pool.inactive == [] ==> UnusedTime(s.pool.conns, now))
      && Obtained(s.pool, t.pool, path, now, newId, id)
      && (if id.Some? then Taken(s, r, id.value, t) else t.jobs == s.jobs && t.place == s.place)
    case StartCookie(r, created, fetched, now) =>
      && (created in s.pool.active && s.pool.active[created] in s.place ==> s.place[s.pool.active[created]] == Open)
      && CookieCall(s, r, created, fetched, now, t)
    case Work(r, cached, dir) =>
      && At(s, r, Using)
      && var id := s.jobs[r].conn;
      && t == s.(pool := s.pool.(conns := s.pool.conns[id := s.pool.conns[id].(cached := cached, dir := dir)]))
    case ShutDown(r) =>
      && At(s, r, Using)
      && var id := s.jobs[r].conn;
      && t == s.(pool := Shutdown(s.pool, id), jobs := s.jobs[r := Job(id, Closing)])
    case BeginRelease(r) =>
      && (At(s, r, Using) || At(s, r, Closing))
      && var id := s.jobs[r].conn;
      && t == s.(pool := Reset(s.pool, id), jobs := s.jobs[r := Job(id, Leaving(s.jobs[r].stage == Using))])
    case EndRelease(r, now) =>
      && (At(s, r, Leaving(true)) || At(s, r, Leaving(false)))
      && var id := s.jobs[r].conn;
      && var reuse := s.jobs[r].stage.reuse;
      && t.pool == Retire(s.pool, id, reuse, now)
      && t.jobs == s.jobs - {r}
      && t.place == s.place[id := if reuse then Resting else Dead]
    case LeaveOpen(r, cursor, count) =>
      && At(s, r, Using)
      && var id := s.jobs[r].conn;
      && var c := s.pool.conns[id];
      && t.pool == s.pool.(conns := s.pool.conns[id := c.(dir := Some(cursor), fetched := c.fetched + count)])
      && t.jobs == s.jobs - {r}
      && t.place == s.place[id := Open]
    case PurgeIdleOnes(now, limit) =>
      && t.pool == PurgeIdle(s.pool, now, limit)
      && t.jobs == s.jobs
      && t.place == DeadIn(s.place, IdleOf(s.pool, s.pool.inactive, now, limit))
    case PurgeTask =>
      && s.jobs == map[]
      && t == State(PurgeAll(s.pool), map[], AllDead(s.place))
  }

  /** A call with a cookie, whoever may be using the connection that it finds. */
  ghost predicate CookieEffect(s: State, r: RequestId, created: int, fetched: int, now: int, t: State)
    requires s.pool.Valid()
  {
    && r !in s.jobs
    && var (q, id) := Resume(s.pool, created, fetched, now);
    && t.pool == q
    && t.jobs == if id.Some? then s.jobs[r := Job(id.value, Using)] else s.jobs
  }

  ghost predicate CookieCall(s: State, r: RequestId, created: int, fetched: int, now: int, t: State)
    requires s.pool.Valid()
  {
    && CookieEffect(s, r, created, fetched, now, t)
    && t.place == (if created !in s.pool.active then s.place
                   else if s.pool.conns[s.pool.active[created]].fetched == fetched
                   then s.place[s.pool.active[created] := Busy(r)]
                   else s.place[s.pool.active[created] := Dead])
  }

  ghost predicate At(s: State, r: RequestId, stage: Stage) {
    r in s.jobs && s.jobs[r].stage == stage && s.jobs[r].conn in s.pool.conns
  }

  ghost predicate Taken(s: State, r: RequestId, id: ConnId, t: State) {
    t.jobs == s.jobs[r := Job(id, Using)] && t.place == s.place[id := Busy(r)]
  }

  // ---- The invariant ----

  ghost predicate IsActive(p: Pool, id: ConnId)
    requires id in p.conns
  {
    var k := p.conns[id].created;
    k in p.active && p.active[k] == id
  }

  ghost predicate PlaceOk(p: Pool, jobs: map<RequestId, Job>, place: map<ConnId, Place>, id: ConnId)
    requires id in p.conns && id in place
  {
    var c := p.conns[id];
    match place[id]
    case Busy(r) =>
      && IsActive(p, id) && r in jobs && jobs[r].conn == id
      && (c.shut <==> jobs[r].stage == Closing || jobs[r].stage == Leaving(false))
      && (jobs[r].stage.Leaving? ==> c.dir == None && c.fetched == 0)
    case Open => IsActive(p, id) && !c.shut && c.dir.Some?
    case Resting => !IsActive(p, id) && !c.shut && c.dir == None && c.fetched == 0
    case Dead => !IsActive(p, id) && c.shut
  }

  ghost predicate PlacesOk(p: Pool, jobs: map<RequestId, Job>, place: map<ConnId, Place>) {
    && place.Keys == p.conns.Keys
    && forall id :: id in p.conns ==> PlaceOk(p, jobs, place, id)
  }

  ghost predicate DistinctTimes(conns: map<ConnId, Conn>) {
    forall a, b :: a in conns && b in conns && a != b ==> conns[a].created != conns[b].created
  }

  /** The active map holds connections under their own creation time. */
  ghost predicate ActiveOk(p: Pool) {
    forall k :: k in p.active ==> p.active[k] in p.conns && p.conns[p.active[k]].created == k
  }

  /** The inactive list holds the resting connections, once each. */
  ghost predicate InactiveOk(inactive: seq<ConnId>, place: map<ConnId, Place>) {
    && (forall i, j :: 0 <= i < j < |inactive| ==> inactive[i] != inactive[j])
    && (forall id :: id in inactive <==> id in place && place[id] == Resting)
  }

  ghost predicate JobsOk(jobs: map<RequestId, Job>, place: map<ConnId, Place>) {
    forall r :: r in jobs ==> jobs[r].conn in place && place[jobs[r].conn] == Busy(r)
  }

  ghost predicate Inv(s: State) {
    && DistinctTimes(s.pool.conns)
    && ActiveOk(s.pool)
    && PlacesOk(s.pool, s.jobs, s.place)
    && InactiveOk(s.pool.inactive, s.place)
    && JobsOk(s.jobs, s.place)
  }

  /** The well-formedness that Next asks for is no restriction on runs. */
  lemma InvIsValid(s: State)
    requires Inv(s)
    ensures s.pool.Valid()
  {
    forall i | 0 <= i < |s.pool.inactive| ensures s.pool.inactive[i] in s.pool.conns {
      assert s.pool.inactive[i] in s.pool.inactive;
    }
  }

  // ---- Steps that move one connection ----

  /** Between the pools only connection `id` differs, and the active entry under
      its creation time. */
  ghost predicate OnlyConn(p: Pool, q: Pool, id: ConnId) {
    && id in q.conns
    && (forall x :: x != id ==> (x in p.conns <==> x in q.conns))
    && (forall x :: x != id && x in p.conns ==> q.conns[x] == p.conns[x])
    && (if id in p.conns then q.conns[id].created == p.conns[id].created else UnusedTime(p.conns, q.conns[id].created))
    && (forall k :: k != q.conns[id].created ==> (k in p.active <==> k in q.active))
    && (forall k :: k != q.conns[id].created && k in p.active ==> q.active[k] == p.active[k])
    && (q.conns[id].created in q.active ==> q.active[q.conns[id].created] == id)
  }

  ghost predicate OnlyPlace(place: map<ConnId, Place>, place': map<ConnId, Place>, id: ConnId) {
    && id in place'
    && (forall x :: x != id ==> (x in place <==> x in place'))
    && (forall x :: x != id && x in place ==> place'[x] == place[x])
  }

  /** Only the job of `r` differs, and it is about connection `id`. */
  ghost predicate OnlyJob(s: State, t: State, r: RequestId, id: ConnId) {
    && (forall q :: q != r ==> (q in s.jobs <==> q in t.jobs))
    && (forall q :: q != r && q in s.jobs ==> t.jobs[q] == s.jobs[q])
    && (r in s.jobs ==> s.jobs[r].conn == id)
    && (id in s.place && s.place[id].Busy? ==> s.place[id].request == r)
    && (r in t.jobs ==> id in t.place && t.place[id] == Busy(r) && t.jobs[r].conn == id)
  }

  lemma OnePlaceKept(s: State, t: State, id: ConnId, r: RequestId, x: ConnId)
    requires DistinctTimes(s.pool.conns) && PlacesOk(s.pool, s.jobs, s.place) && JobsOk(s.jobs, s.place)
    requires OnlyConn(s.pool, t.pool, id) && OnlyPlace(s.place, t.place, id) && OnlyJob(s, t, r, id)
    requires x != id && x in t.pool.conns
    ensures x in t.place && PlaceOk(t.pool, t.jobs, t.place, x)
  {
    assert PlaceOk(s.pool, s.jobs, s.place, x);
    assert t.pool.conns[x].created != t.pool.conns[id].created;
    assert IsActive(t.pool, x) == IsActive(s.pool, x);
  }

  lemma OneMoved(s: State, t: State, id: ConnId, r: RequestId)
    requires Inv(s)
    requires OnlyConn(s.pool, t.pool, id) && OnlyPlace(s.place, t.place, id) && OnlyJob(s, t, r, id)
    requires PlaceOk(t.pool, t.jobs, t.place, id)
    requires InactiveOk(t.pool.inactive, t.place)
    ensures Inv(t)
  {
    forall x | x in t.pool.conns ensures x in t.place && PlaceOk(t.pool, t.jobs, t.place, x) {
      if x != id {
        OnePlaceKept(s, t, id, r, x);
      }
    }
    OthersKept(s, t, id, r);
  }

  lemma OthersKept(s: State, t: State, id: ConnId, r: RequestId)
    requires Inv(s)
    requires OnlyConn(s.pool, t.pool, id) && OnlyPlace(s.place, t.place, id) && OnlyJob(s, t, r, id)
    ensures DistinctTimes(t.pool.conns) && ActiveOk(t.pool) && JobsOk(t.jobs, t.place)
    ensures t.place.Keys == t.pool.conns.Keys
  {
    forall q | q in t.jobs ensures t.jobs[q].conn in t.place && t.place[t.jobs[q].conn] == Busy(q) {
      if q != r {
        assert s.place[s.jobs[q].conn] == Busy(q);
      }
    }
    forall x | x in t.place ensures x in t.pool.conns {
      if x != id {
        assert x in s.place;
      }
    }
  }

  // ---- The inactive list ----

  lemma InactiveAppend(inactive: seq<ConnId>, place: map<ConnId, Place>, id: ConnId)
    requires InactiveOk(inactive, place) && id in place && place[id] != Resting
    ensures InactiveOk(inactive + [id], place[id := Resting])
  {
    assert id !in inactive;
  }

  lemma InactiveRemove(inactive: seq<ConnId>, place: map<ConnId, Place>, i: nat, to: Place)
    requires InactiveOk(inactive, place) && i < |inactive| && to != Resting
    ensures InactiveOk(inactive[..i] + inactive[i + 1..], place[inactive[i] := to])
  {
    var rest := inactive[..i] + inactive[i + 1..];
    forall id ensures id in rest <==> id in inactive && id != inactive[i] {
      if id in inactive && id != inactive[i] {
        var j :| 0 <= j < |inactive| && inactive[j] == id;
        assert rest[if j < i then j else j - 1] == id;
      }
      if id in rest {
        var j :| 0 <= j < |rest| && rest[j] == id;
        assert rest[j] == inactive[if j < i then j else j + 1];
      }
    }
  }

  lemma InactiveSame(inactive: seq<ConnId>, place: map<ConnId, Place>, id: ConnId, to: Place)
    requires InactiveOk(inactive, place) && to != Resting && (id in place ==> place[id] != Resting)
    ensures InactiveOk(inactive, place[id := to])
  {
  }

  // ---- What the steps change ----

  lemma PlaceSet(place: map<ConnId, Place>, id: ConnId, x: Place)
    ensures OnlyPlace(place, place[id := x], id)
  {
  }

  lemma JobTaken(s: State, t: State, r: RequestId, id: ConnId)
    requires r !in s.jobs && Taken(s, r, id, t) && (id in s.place ==> !s.place[id].Busy?)
    ensures OnlyJob(s, t, r, id)
  {
  }

  lemma JobGone(s: State, t: State, r: RequestId, id: ConnId)
    requires r in s.jobs && s.jobs[r].conn == id && id in s.place && s.place[id] == Busy(r) && t.jobs == s.jobs - {r}
    ensures OnlyJob(s, t, r, id)
  {
  }

  lemma RetireChanges(p: Pool, id: ConnId, reuse: bool, now: int)
    requires id in p.conns && IsActive(p, id)
    ensures OnlyConn(p, Retire(p, id, reuse, now), id) && !IsActive(Retire(p, id, reuse, now), id)
  {
  }

  lemma AddChanges(p: Pool, id: ConnId, now: int)
    requires id !in p.conns && UnusedTime(p.conns, now) && now !in p.active
    ensures OnlyConn(p, Add(p, id, now), id) && IsActive(Add(p, id, now), id)
  {
  }

  lemma ActivateChanges(p: Pool, i: nat, now: int)
    requires p.Valid() && i < |p.inactive| && p.conns[p.inactive[i]].created !in p.active
    ensures OnlyConn(p, Activate(p, i, now), p.inactive[i]) && IsActive(Activate(p, i, now), p.inactive[i])
  {
  }

  lemma NotActiveIsFree(s: State, id: ConnId)
    requires Inv(s) && id in s.pool.conns && !IsActive(s.pool, id)
    ensures s.pool.conns[id].created !in s.pool.active
  {
  }

  // ---- Each step keeps the invariant ----

  lemma ReuseKeeps(s: State, t: State, r: RequestId, i: nat, now: int)
    requires Inv(s) && s.pool.Valid() && r !in s.jobs && i < |s.pool.inactive|
    requires t.pool == Activate(s.pool, i, now) && Taken(s, r, s.pool.inactive[i], t)
    ensures Inv(t)
  {
    var id := s.pool.inactive[i];
    assert id in s.pool.inactive;
    assert PlaceOk(s.pool, s.jobs, s.place, id);
    NotActiveIsFree(s, id);
    ActivateChanges(s.pool, i, now);
    InactiveRemove(s.pool.inactive, s.place, i, Busy(r));
    PlaceSet(s.place, id, Busy(r));
    JobTaken(s, t, r, id);
    OneMoved(s, t, id, r);
  }

  lemma NewKeeps(s: State, t: State, r: RequestId, id: ConnId, now: int)
    requires Inv(s) && r !in s.jobs && id !in s.pool.conns && UnusedTime(s.pool.conns, now)
    requires t.pool == Add(s.pool, id, now) && Taken(s, r, id, t)
    ensures Inv(t)
  {
    assert id !in s.place && now !in s.pool.active;
    AddChanges(s.pool, id, now);
    InactiveSame(s.pool.inactive, s.place, id, Busy(r));
    PlaceSet(s.place, id, Busy(r));
    JobTaken(s, t, r, id);
    OneMoved(s, t, id, r);
  }

  lemma ResumeKeeps(s: State, t: State, r: RequestId, created: int, now: int)
    requires Inv(s) && s.pool.Valid() && r !in s.jobs && created in s.pool.active
    requires s.place[s.pool.active[created]] == Open
    requires t.pool == Touch(s.pool, s.pool.active[created], now) && Taken(s, r, s.pool.active[created], t)
    ensures Inv(t)
  {
    var id := s.pool.active[created];
    assert PlaceOk(s.pool, s.jobs, s.place, id);
    InactiveSame(s.pool.inactive, s.place, id, Busy(r));
    OneMoved(s, t, id, r);
  }

  lemma MismatchKeeps(s: State, t: State, r: RequestId, created: int)
    requires Inv(s) && s.pool.Valid() && r !in s.jobs && created in s.pool.active
    requires s.place[s.pool.active[created]] == Open
    requires t.pool == Shutdown(s.pool, s.pool.active[created]).(active := s.pool.active - {created})
    requires t.jobs == s.jobs && t.place == s.place[s.pool.active[created] := Dead]
    ensures Inv(t)
  {
    var id := s.pool.active[created];
    assert PlaceOk(s.pool, s.jobs, s.place, id);
    InactiveSame(s.pool.inactive, s.place, id, Dead);
    OneMoved(s, t, id, r);
  }

  /** Steps by which a request changes its own connection and stage. */
  lemma OwnStepKeeps(s: State, t: State, r: RequestId, c: Conn, stage: Stage)
    requires Inv(s) && r in s.jobs
    requires var id := s.jobs[r].conn; id in s.pool.conns && c.created == s.pool.conns[id].created
    requires c.shut <==> stage == Closing || stage == Leaving(false)
    requires stage.Leaving? ==> c.dir == None && c.fetched == 0
    requires t.pool == s.pool.(conns := s.pool.conns[s.jobs[r].conn := c])
    requires t.jobs == s.jobs[r := Job(s.jobs[r].conn, stage)] && t.place == s.place
    ensures Inv(t)
  {
    var id := s.jobs[r].conn;
    assert PlaceOk(s.pool, s.jobs, s.place, id);
    OneMoved(s, t, id, r);
  }

  lemma ReturnKeeps(s: State, t: State, r: RequestId, id: ConnId, now: int)
    requires Inv(s) && r in s.jobs && s.jobs[r] == Job(id, Leaving(true)) && id in s.pool.conns
    requires t == State(Retire(s.pool, id, true, now), s.jobs - {r}, s.place[id := Resting])
    ensures Inv(t)
  {
    OwnConn(s, r);
    RetireChanges(s.pool, id, true, now);
    InactiveAppend(s.pool.inactive, s.place, id);
    PlaceSet(s.place, id, Resting);
    JobGone(s, t, r, id);
    OneMoved(s, t, id, r);
  }

  lemma DropKeeps(s: State, t: State, r: RequestId, id: ConnId, now: int)
    requires Inv(s) && r in s.jobs && s.jobs[r] == Job(id, Leaving(false)) && id in s.pool.conns
    requires t == State(Retire(s.pool, id, false, now), s.jobs - {r}, s.place[id := Dead])
    ensures Inv(t)
  {
    OwnConn(s, r);
    RetireChanges(s.pool, id, false, now);
    InactiveSame(s.pool.inactive, s.place, id, Dead);
    PlaceSet(s.place, id, Dead);
    JobGone(s, t, r, id);
    OneMoved(s, t, id, r);
  }

  lemma EndReleaseKeeps(s: State, t: State, r: RequestId, now: int)
    requires Inv(s) && s.pool.Valid() && Next(s, EndRelease(r, now), t)
    ensures Inv(t)
  {
    if s.jobs[r].stage.reuse {
      ReturnKeeps(s, t, r, s.jobs[r].conn, now);
    } else {
      DropKeeps(s, t, r, s.jobs[r].conn, now);
    }
  }

  lemma LeaveOpenKeeps(s: State, t: State, r: RequestId, cursor: Cursor, count: nat)
    requires Inv(s) && s.pool.Valid() && Next(s, LeaveOpen(r, cursor, count), t)
    ensures Inv(t)
  {
    var id := s.jobs[r].conn;
    OwnConn(s, r);
    InactiveSame(s.pool.inactive, s.place, id, Open);
    PlaceSet(s.place, id, Open);
    JobGone(s, t, r, id);
    OneMoved(s, t, id, r);
  }

  lemma {:induction false} WithoutIdleIs(p: Pool, ids: seq<ConnId>, now: int, limit: int)
    requires forall id :: id in ids ==> id in p.conns
    requires forall i, j :: 0 <= i < j < |ids| ==> ids[i] != ids[j]
    ensures var w := WithoutIdle(p, ids, now, limit);
            && (forall i, j :: 0 <= i < j < |w| ==> w[i] != w[j])
            && (forall id :: id in w <==> id in ids && id !in IdleOf(p, ids, now, limit))
  {
    if ids != [] {
      WithoutIdleIs(p, ids[1..], now, limit);
      assert ids == [ids[0]] + ids[1..] && ids[0] !in ids[1..];
      assert ids[0] !in WithoutIdle(p, ids[1..], now, limit);
    }
  }

  lemma PurgedPlace(s: State, t: State, ids: set<ConnId>, x: ConnId)
    requires PlacesOk(s.pool, s.jobs, s.place) && x in s.pool.conns
    requires t.jobs == s.jobs && t.place == DeadIn(s.place, ids)
    requires t.pool.conns == ShutAll(s.pool.conns, ids) && t.pool.active == s.pool.active
    requires forall id :: id in ids ==> id in s.place && s.place[id] == Resting
    ensures PlaceOk(t.pool, t.jobs, t.place, x)
  {
    assert PlaceOk(s.pool, s.jobs, s.place, x);
    assert IsActive(t.pool, x) == IsActive(s.pool, x);
  }

  lemma PurgedInactive(s: State, ids: set<ConnId>, w: seq<ConnId>)
    requires InactiveOk(s.pool.inactive, s.place)
    requires forall i, j :: 0 <= i < j < |w| ==> w[i] != w[j]
    requires forall id :: id in w <==> id in s.pool.inactive && id !in ids
    ensures InactiveOk(w, DeadIn(s.place, ids))
  {
  }

  lemma PurgedJobs(s: State, ids: set<ConnId>)
    requires JobsOk(s.jobs, s.place)
    requires forall id :: id in ids ==> id in s.place && s.place[id] == Resting
    ensures JobsOk(s.jobs, DeadIn(s.place, ids))
  {
  }

  lemma PurgedPlaces(s: State, t: State, ids: set<ConnId>)
    requires PlacesOk(s.pool, s.jobs, s.place)
    requires t.jobs == s.jobs && t.place == DeadIn(s.place, ids)
    requires t.pool.conns == ShutAll(s.pool.conns, ids) && t.pool.active == s.pool.active
    requires forall id :: id in ids ==> id in s.place && s.place[id] == Resting
    ensures PlacesOk(t.pool, t.jobs, t.place)
  {
    forall x | x in t.pool.conns ensures PlaceOk(t.pool, t.jobs, t.place, x) {
      PurgedPlace(s, t, ids, x);
    }
  }

  lemma ShutKeepsTimes(conns: map<ConnId, Conn>, ids: set<ConnId>)
    requires DistinctTimes(conns)
    ensures DistinctTimes(ShutAll(conns, ids))
  {
  }

  lemma ShutKeepsActive(p: Pool, q: Pool, ids: set<ConnId>)
    requires ActiveOk(p) && q.conns == ShutAll(p.conns, ids) && q.active == p.active
    ensures ActiveOk(q)
  {
  }

  /** The idle ones are resting and leave the list. */
  lemma IdleLeave(s: State, now: int, limit: int)
    requires Inv(s) && s.pool.Valid()
    ensures var ids := IdleOf(s.pool, s.pool.inactive, now, limit);
            && (forall id :: id in ids ==> id in s.place && s.place[id] == Resting)
            && InactiveOk(WithoutIdle(s.pool, s.pool.inactive, now, limit), DeadIn(s.place, ids))
  {
    var ids := IdleOf(s.pool, s.pool.inactive, now, limit);
    WithoutIdleIs(s.pool, s.pool.inactive, now, limit);
    PurgedInactive(s, ids, WithoutIdle(s.pool, s.pool.inactive, now, limit));
  }

  lemma PurgeIdleKeeps(s: State, t: State, now: int, limit: int)
    requires Inv(s) && s.pool.Valid() && Next(s, PurgeIdleOnes(now, limit), t)
    ensures Inv(t)
  {
    var ids := IdleOf(s.pool, s.pool.inactive, now, limit);
    IdleLeave(s, now, limit);
    PurgedPlaces(s, t, ids);
    PurgedJobs(s, ids);
    ShutKeepsTimes(s.pool.conns, ids);
    ShutKeepsActive(s.pool, t.pool, ids);
  }

  lemma PurgeTaskKeeps(s: State, t: State)
    requires Inv(s) && s.pool.Valid() && Next(s, PurgeTask, t)
    ensures Inv(t)
  {
    forall x | x in t.pool.conns ensures PlaceOk(t.pool, t.jobs, t.place, x) {
      assert PlaceOk(s.pool, s.jobs, s.place, x);
      assert IsActive(s.pool, x) ==> x in ActiveIds(s.pool.active);
    }
  }

  lemma StartFreshKeeps(s: State, step: Step, t: State)
    requires Inv(s) && s.pool.Valid() && step.StartFresh? && Next(s, step, t)
    ensures Inv(t)
  {
    if s.pool.inactive != [] {
      var i :| 0 <= i < |s.pool.inactive| && step.id == Some(s.pool.inactive[i])
          && t.pool == Activate(s.pool, i, step.now);
      ReuseKeeps(s, t, step.r, i, step.now);
    } else if step.id.Some? {
      NewKeeps(s, t, step.r, step.newId, step.now);
    } else {
      assert t == s;
    }
  }

  lemma StartCookieKeeps(s: State, step: Step, t: State)
    requires Inv(s) && s.pool.Valid() && step.StartCookie? && Next(s, step, t)
    ensures Inv(t)
  {
    if step.created !in s.pool.active {
      assert t == s;
    } else if s.pool.conns[s.pool.active[step.created]].fetched == step.fetched {
      ResumeKeeps(s, t, step.r, step.created, step.now);
    } else {
      MismatchKeeps(s, t, step.r, step.created);
    }
  }

  lemma OwnConn(s: State, r: RequestId)
    requires Inv(s) && r in s.jobs
    ensures s.jobs[r].conn in s.pool.conns && PlaceOk(s.pool, s.jobs, s.place, s.jobs[r].conn)
    ensures s.place[s.jobs[r].conn] == Busy(r)
  {
  }

  lemma RequestStepKeeps(s: State, step: Step, t: State)
    requires Inv(s) && s.pool.Valid() && Next(s, step, t)
    requires step.Work? || step.ShutDown? || step.BeginRelease?
    ensures Inv(t)
  {
    var r := step.r;
    OwnConn(s, r);
    var id := s.jobs[r].conn;
    var c := s.pool.conns[id];
    match step {
      case Work(_, cached, dir) =>
        assert s.jobs[r := Job(id, Using)] == s.jobs;
        OwnStepKeeps(s, t, r, c.(cached := cached, dir := dir), Using);
      case ShutDown(_) =>
        OwnStepKeeps(s, t, r, c.(cached := {}, shut := true), Closing);
      case BeginRelease(_) =>
        OwnStepKeeps(s, t, r, c.(dir := None, fetched := 0), Leaving(s.jobs[r].stage == Using));
    }
  }

  lemma StepKeepsInv(s: State, step: Step, t: State)
    requires Inv(s) && s.pool.Valid() && Next(s, step, t)
    ensures Inv(t)
  {
    match step {
      case StartFresh(_, _, _, _, _) => StartFreshKeeps(s, step, t);
      case StartCookie(_, _, _, _) => StartCookieKeeps(s, step, t);
      case Work(_, _, _) => RequestStepKeeps(s, step, t);
      case ShutDown(_) => RequestStepKeeps(s, step, t);
      case BeginRelease(_) => RequestStepKeeps(s, step, t);
      case EndRelease(r, now) => EndReleaseKeeps(s, t, r, now);
      case LeaveOpen(r, cursor, count) => LeaveOpenKeeps(s, t, r, cursor, count);
      case PurgeIdleOnes(now, limit) => PurgeIdleKeeps(s, t, now, limit);
      case PurgeTask => PurgeTaskKeeps(s, t);
    }
  }

  // ---- What a step leaves alone ----

  /** The request that takes a step on its own connection. */
  ghost predicate IsStepOf(step: Step, r: RequestId) {
    (step.Work? || step.ShutDown? || step.BeginRelease? || step.EndRelease? || step.LeaveOpen?) && step.r == r
  }

  ghost predicate ByRequest(step: Step) {
    step.Work? || step.ShutDown? || step.BeginRelease? || step.EndRelease? || step.LeaveOpen?
  }

  /** The step is not about connection `id`. */
  ghost predicate Elsewhere(s: State, step: Step, id: ConnId)
    requires id in s.place
  {
    && (ByRequest(step) ==> step.r !in s.jobs || s.jobs[step.r].conn != id)
    && (step.StartFresh? ==> s.place[id] != Resting)
    && (step.StartCookie? ==> step.created !in s.pool.active || s.pool.active[step.created] != id)
  }

  /** Connection `id` is as before or dead. */
  ghost predicate Spared(s: State, t: State, id: ConnId) {
    && id in s.pool.conns && id in t.pool.conns && id in s.place && id in t.place
    && t.pool.conns[id].created == s.pool.conns[id].created
    && (t.place[id] == Dead || (t.place[id] == s.place[id] && t.pool.conns[id] == s.pool.conns[id]))
  }

  lemma StartSpares(s: State, step: Step, t: State, id: ConnId)
    requires Inv(s) && s.pool.Valid() && Next(s, step, t) && step.StartFresh?
    requires id in s.pool.conns && s.place[id] != Resting
    ensures Spared(s, t, id)
  {
    assert id !in s.pool.inactive;
  }

  lemma PurgeSpares(s: State, step: Step, t: State, id: ConnId)
    requires Inv(s) && s.pool.Valid() && Next(s, step, t) && (step.PurgeIdleOnes? || step.PurgeTask?)
    requires id in s.pool.conns
    ensures Spared(s, t, id)
  {
  }

  lemma RequestSpares(s: State, step: Step, t: State, id: ConnId)
    requires Inv(s) && s.pool.Valid() && Next(s, step, t) && ByRequest(step)
    requires id in s.pool.conns && s.jobs[step.r].conn != id
    ensures Spared(s, t, id)
  {
  }

  lemma StepSpares(s: State, step: Step, t: State, id: ConnId)
    requires Inv(s) && s.pool.Valid() && Next(s, step, t) && id in s.pool.conns && id in s.place
             && Elsewhere(s, step, id)
    ensures Spared(s, t, id)
  {
    if step.StartFresh? {
      StartSpares(s, step, t, id);
    } else if ByRequest(step) {
      RequestSpares(s, step, t, id);
    } else if !step.StartCookie? {
      PurgeSpares(s, step, t, id);
    }
  }

  lemma CreatedStays(s: State, step: Step, t: State, id: ConnId)
    requires s.pool.Valid() && Next(s, step, t) && id in s.pool.conns
    ensures id in t.pool.conns && t.pool.conns[id].created == s.pool.conns[id].created
  {
  }

  lemma JobStays(s: State, step: Step, t: State, q: RequestId)
    requires s.pool.Valid() && Next(s, step, t) && q in s.jobs && !IsStepOf(step, q)
    ensures q in t.jobs && t.jobs[q] == s.jobs[q]
  {
  }

  /** No step of another request is about the connection of request `q`. */
  lemma UserElsewhere(s: State, step: Step, t: State, q: RequestId)
    requires Inv(s) && s.pool.Valid() && Next(s, step, t) && q in s.jobs && !IsStepOf(step, q)
    ensures s.jobs[q].conn in s.place && Elsewhere(s, step, s.jobs[q].conn)
  {
    OwnConn(s, q);
    if ByRequest(step) && step.r in s.jobs {
      OwnConn(s, step.r);
    }
  }

  /** What request `q` sees of a step that is not its own: nothing. */
  lemma UserSpared(s: State, step: Step, t: State, q: RequestId)
    requires Inv(s) && s.pool.Valid() && Next(s, step, t) && Inv(t) && q in s.jobs && !IsStepOf(step, q)
    ensures q in t.jobs && t.jobs[q] == s.jobs[q] && s.jobs[q].conn in s.pool.conns && s.jobs[q].conn in t.pool.conns
    ensures t.pool.conns[s.jobs[q].conn] == s.pool.conns[s.jobs[q].conn]
  {
    UserElsewhere(s, step, t, q);
    StepSpares(s, step, t, s.jobs[q].conn);
    JobStays(s, step, t, q);
    OwnConn(t, q);
  }

  // ---- Runs ----

  const START: State := State(Pool(map[], [], map[]), map[], map[])

  ghost predicate IsRun(run: seq<State>, steps: seq<Step>) {
    && |run| == |steps| + 1 && run[0] == START
    && forall i :: 0 <= i < |steps| ==> run[i].pool.Valid() && Next(run[i], steps[i], run[i + 1])
  }

  lemma {:induction false} InvInRuns(run: seq<State>, steps: seq<Step>, n: nat)
    requires IsRun(run, steps) && n < |run|
    ensures Inv(run[n])
  {
    if n > 0 {
      InvInRuns(run, steps, n - 1);
      StepKeepsInv(run[n - 1], steps[n - 1], run[n]);
    }
  }

  /** At every moment each connection is active under its own creation time, or
      once in the inactive list, or shut down, and only one of these, except that
      a request that has shut its connection down has still to drop it. */
  lemma EachConnectionIsOwnedOnce(run: seq<State>, steps: seq<Step>, n: nat, id: ConnId)
    requires IsRun(run, steps) && n < |run| && id in run[n].pool.conns
    ensures var s := run[n]; var c := s.pool.conns[id];
            && (IsActive(s.pool, id) || id in s.pool.inactive || c.shut)
            && (id in s.pool.inactive ==> !IsActive(s.pool, id) && !c.shut)
            && (IsActive(s.pool, id) && c.shut ==>
                  exists r :: r in s.jobs && s.jobs[r].conn == id
                      && (s.jobs[r].stage == Closing || s.jobs[r].stage == Leaving(false)))
            && (forall i, j :: 0 <= i < j < |s.pool.inactive| ==> s.pool.inactive[i] != s.pool.inactive[j])
            && (forall k :: k in s.pool.active && s.pool.active[k] == id ==> k == c.created)
  {
    InvInRuns(run, steps, n);
    var s := run[n];
    assert PlaceOk(s.pool, s.jobs, s.place, id);
  }

  /** No two requests in flight have the same connection. */
  lemma NoSharing(run: seq<State>, steps: seq<Step>, n: nat, r: RequestId, q: RequestId)
    requires IsRun(run, steps) && n < |run| && r in run[n].jobs && q in run[n].jobs && r != q
    ensures run[n].jobs[r].conn != run[n].jobs[q].conn
  {
    InvInRuns(run, steps, n);
    OwnConn(run[n], r);
    OwnConn(run[n], q);
  }

  /** An inactive connection has no directory handle and a zero child count. */
  lemma InactiveAreClean(run: seq<State>, steps: seq<Step>, n: nat, id: ConnId)
    requires IsRun(run, steps) && n < |run| && id in run[n].pool.inactive
    ensures id in run[n].pool.conns && var c := run[n].pool.conns[id]; c.dir == None && c.fetched == 0 && !c.shut
  {
    InvInRuns(run, steps, n);
    var s := run[n];
    assert PlaceOk(s.pool, s.jobs, s.place, id);
  }

  ghost predicate IsShut(p: Pool, id: ConnId) {
    id in p.conns && p.conns[id].shut
  }

  lemma ShutStays(s: State, step: Step, t: State, id: ConnId)
    requires s.pool.Valid() && Next(s, step, t) && IsShut(s.pool, id)
    ensures IsShut(t.pool, id)
  {
    match step {
      case StartFresh(_, _, _, _, _) =>
      case StartCookie(_, _, _, _) =>
      case Work(_, _, _) =>
      case ShutDown(_) =>
      case BeginRelease(_) =>
      case EndRelease(_, _) =>
      case LeaveOpen(_, _, _) =>
      case PurgeIdleOnes(_, _) =>
      case PurgeTask =>
    }
  }

  lemma {:induction false} ShutStaysInRuns(run: seq<State>, steps: seq<Step>, m: nat, n: nat, id: ConnId)
    requires IsRun(run, steps) && m <= n < |run| && IsShut(run[m].pool, id)
    ensures IsShut(run[n].pool, id)
  {
    if m < n {
      ShutStaysInRuns(run, steps, m, n - 1, id);
      ShutStays(run[n - 1], steps[n - 1], run[n], id);
    }
  }

  /** Once shut down a connection is in nobody's use and in no list, ever again:
      the request that shut it down drops it and no other request gets it. */
  lemma NeverHandedOutAfterShutdown(run: seq<State>, steps: seq<Step>, m: nat, n: nat, id: ConnId)
    requires IsRun(run, steps) && m <= n < |run| && IsShut(run[m].pool, id)
    ensures id !in run[n].pool.inactive
    ensures forall r :: r in run[n].jobs && run[n].jobs[r].conn == id ==>
              run[n].jobs[r].stage == Closing || run[n].jobs[r].stage == Leaving(false)
  {
    ShutStaysInRuns(run, steps, m, n, id);
    InvInRuns(run, steps, n);
    var s := run[n];
    assert PlaceOk(s.pool, s.jobs, s.place, id);
  }

  /** A cookie that finds a connection is safe exactly when no request is using
      that connection: otherwise the two share it, or it is shut down under the
      other request, which then returns a dead connection to the pool. */
  lemma CookieIsSafeIffNotInUse(s: State, r: RequestId, created: int, fetched: int, now: int, t: State)
    requires Inv(s) && s.pool.Valid() && r !in s.jobs && created in s.pool.active
    requires CookieEffect(s, r, created, fetched, now, t)
    ensures (exists place :: Inv(t.(place := place))) <==>
            (forall q :: q in s.jobs ==> s.jobs[q].conn != s.pool.active[created])
  {
    var id := s.pool.active[created];
    assert PlaceOk(s.pool, s.jobs, s.place, id);
    if s.place[id].Busy? {
      var q := s.place[id].request;
      assert q in s.jobs && s.jobs[q].conn == id;
      forall place ensures !Inv(t.(place := place)) {
        BusyCookieBreaks(s, r, q, created, fetched, now, t.(place := place));
      }
    } else {
      assert s.place[id] == Open;
      var u := t.(place := s.place[id := if s.pool.conns[id].fetched == fetched then Busy(r) else Dead]);
      assert Next(s, StartCookie(r, created, fetched, now), u);
      StepKeepsInv(s, StartCookie(r, created, fetched, now), u);
      forall q | q in s.jobs ensures s.jobs[q].conn != id {
        OwnConn(s, q);
      }
    }
  }

  lemma BusyCookieBreaks(s: State, r: RequestId, q: RequestId, created: int, fetched: int, now: int, t: State)
    requires Inv(s) && s.pool.Valid() && r !in s.jobs && created in s.pool.active
    requires q in s.jobs && s.jobs[q].conn == s.pool.active[created]
    requires CookieEffect(s, r, created, fetched, now, t)
    ensures !Inv(t)
  {
    if Inv(t) {
      OwnConn(t, q);
      if s.pool.conns[s.pool.active[created]].fetched == fetched {
        OwnConn(t, r);
      }
      assert false;
    }
  }

  /** The way a dead connection gets back into the pool: in any run, while request
      `q` is using a connection, a cookie for it with a wrong count arrives; `q`
      knows nothing of that and gives the connection back for reuse. */
  lemma StaleCookiePoolsDeadConnection(run: seq<State>, steps: seq<Step>, n: nat, q: RequestId, r: RequestId,
                                       fetched: int, now: int, t: State, u: State, v: State)
    requires IsRun(run, steps) && n < |run| && run[n].pool.Valid() && At(run[n], q, Using)
    requires var c := run[n].pool.conns[run[n].jobs[q].conn];
             c.fetched != fetched && CookieCall(run[n], r, c.created, fetched, now, t)
    requires t.pool.Valid() && Next(t, BeginRelease(q), u) && u.pool.Valid() && Next(u, EndRelease(q, now), v)
    ensures var id := run[n].jobs[q].conn; id in v.pool.inactive && id in v.pool.conns && v.pool.conns[id].shut
  {
    InvInRuns(run, steps, n);
    OwnConn(run[n], q);
  }
}
