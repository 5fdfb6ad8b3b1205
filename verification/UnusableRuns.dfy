/** Runs of PagingRuns in which a listing finds its connection unusable: nobody gets
    that connection again. */
module UnusableRuns {
  import opened Status
  import opened ConnectionPool
  import opened Paging
  import opened PagingRuns
  import P = PoolRuns

  /** The server tells a listing that its connection is unusable. */
  ghost predicate FoundUnusable(s: State, step: Step) {
    && step.ServePage? && step.l in s.listings && s.listings[step.l].call.Some?
    && step.env.haveMemory && step.env.listFailure.Some? && IsConnectionUnusable(step.env.listFailure.value)
  }

  ghost predicate IsDropping(k: Call, r: P.RequestId, id: ConnId) {
    k.request == r && k.conn == id && k.pending.Some? && k.pending.value.drop
  }

  /** The request has the connection and has not begun to give it back for reuse. */
  ghost predicate JobDrops(s: P.State, r: P.RequestId, id: ConnId) {
    r in s.jobs && s.jobs[r].conn == id && s.jobs[r].stage != P.Leaving(true)
  }

  /** Request `r` of listing `l` is about to drop connection `id`. */
  ghost predicate Dropping(s: State, l: ListingId, r: P.RequestId, id: ConnId) {
    && l in s.listings && s.listings[l].call.Some? && IsDropping(s.listings[l].call.value, r, id)
    && JobDrops(s.pool, r, id)
  }

  ghost predicate IsDead(s: P.State, id: ConnId) { id in s.place && s.place[id] == P.Dead && id in s.pool.conns }

  ghost predicate Condemned(s: State, l: ListingId, r: P.RequestId, id: ConnId) {
    IsDead(s.pool, id) || Dropping(s, l, r, id)
  }

  lemma UnusableIsCondemned(dirs: Dirs, s: State, step: Step, t: State)
    requires Inv(dirs, s) && s.pool.pool.Valid() && step.ServePage? && NextServe(dirs, s, step, t)
    requires FoundUnusable(s, step)
    ensures var k := s.listings[step.l].call.value; Dropping(t, step.l, k.request, k.conn)
    ensures t.listings[step.l].call.value.pending.value.reply == Reply([], None, Retry, NoError)
  {
    assert ListingOk(dirs, s.pool, s.holder, step.l, s.listings[step.l]);
  }

  // ---- The dead stay dead ----

  lemma DeadStays(s: P.State, step: P.Step, t: P.State, id: ConnId)
    requires P.Inv(s) && s.pool.Valid() && P.Next(s, step, t) && IsDead(s, id)
    ensures IsDead(t, id)
  {
    assert P.PlaceOk(s.pool, s.jobs, s.place, id);
    if P.ByRequest(step) && step.r in s.jobs {
      P.OwnConn(s, step.r);
    }
    P.StepSpares(s, step, t, id);
  }

  /** What a step does to the pool: one step of PoolRuns, or nothing. */
  lemma PoolStep(dirs: Dirs, s: State, step: Step, t: State) returns (ps: Option<P.Step>)
    requires s.pool.pool.Valid() && Next(dirs, s, step, t) && !step.Send?
    ensures if ps.Some? then P.Next(s.pool, ps.value, t.pool) else t.pool == s.pool
  {
    ps := None;
    match step
    case Begin(_, _, _) =>
    case ServePage(l, env, _) =>
      var k := s.listings[l].call.value;
      var c := s.pool.pool.conns[k.conn];
      match Respond(dirs, c, ArgOf(s.listings[l], k.continueOnError), env) {
        case KeepOpen(next, count, _) => ps := Some(P.LeaveOpen(k.request, next, count));
        case GiveBack(_) =>
        case Drop(dir, _) => ps := Some(P.Work(k.request, c.cached, dir));
      }
    case WindUp(_, p, _) => ps := Some(p);
    case Other(p) => ps := Some(p);
  }

  lemma DeadWhileSending(dirs: Dirs, s: State, step: Step, t: State, id: ConnId)
    requires Inv(dirs, s) && s.pool.pool.Valid() && step.Send? && NextSend(s, step, t) && Careful(s, step)
    requires IsDead(s.pool, id)
    ensures IsDead(t.pool, id)
  {
    var c := s.listings[step.l];
    assert ListingOk(dirs, s.pool, s.holder, step.l, c);
    match c.cookie
    case None => DeadStays(s.pool, P.StartFresh(step.r, "", step.now, step.newId, step.id), t.pool, id);
    case Some(k) =>
      SendCookieIsStep(dirs, s.pool, c, step.r, step.now, t.pool);
      DeadStays(s.pool, P.StartCookie(step.r, k.created, k.fetched, step.now), t.pool, id);
  }

  lemma StillDead(dirs: Dirs, s: State, step: Step, t: State, id: ConnId)
    requires Inv(dirs, s) && s.pool.pool.Valid() && Next(dirs, s, step, t) && Careful(s, step) && IsDead(s.pool, id)
    ensures IsDead(t.pool, id)
  {
    if step.Send? {
      DeadWhileSending(dirs, s, step, t, id);
    } else {
      var ps := PoolStep(dirs, s, step, t);
      if ps.Some? {
        DeadStays(s.pool, ps.value, t.pool, id);
      }
    }
  }

  // ---- The condemned stay condemned ----

  lemma JobKept(s: P.State, step: P.Step, t: P.State, r: P.RequestId, id: ConnId)
    requires s.pool.Valid() && P.Next(s, step, t) && JobDrops(s, r, id) && !P.IsStepOf(step, r)
    ensures JobDrops(t, r, id)
  {
    P.JobStays(s, step, t, r);
  }

  /** The own steps of a request that drops its connection end with that dead. */
  lemma JobWindsUp(s: P.State, step: P.Step, t: P.State, r: P.RequestId, id: ConnId)
    requires P.Inv(s) && s.pool.Valid() && P.Next(s, step, t) && JobDrops(s, r, id)
    requires P.IsStepOf(step, r) && (step.ShutDown? || step.BeginRelease? || step.EndRelease?)
    requires step.BeginRelease? ==> P.At(s, r, P.Closing)
    ensures if step.EndRelease? then IsDead(t, id) else JobDrops(t, r, id)
  {
    P.OwnConn(s, r);
  }

  lemma WindUpCondemned(dirs: Dirs, s: State, step: Step, t: State, l: ListingId, r: P.RequestId, id: ConnId)
    requires Inv(dirs, s) && s.pool.pool.Valid() && step.WindUp? && NextWindUp(s, step, t) && Dropping(s, l, r, id)
    ensures Condemned(t, l, r, id)
  {
    if step.l == l {
      JobWindsUp(s.pool, step.step, t.pool, r, id);
    } else {
      OtherRequest(dirs, s, l, step.l);
      JobKept(s.pool, step.step, t.pool, r, id);
    }
  }

  lemma OtherRequest(dirs: Dirs, s: State, l: ListingId, m: ListingId)
    requires Inv(dirs, s) && l in s.listings && m in s.listings && l != m
    requires s.listings[l].call.Some? && s.listings[m].call.Some?
    ensures s.listings[l].call.value.request != s.listings[m].call.value.request
  {
    DifferentRequests(dirs, s.pool, s.holder, l, s.listings[l], m, s.listings[m]);
  }

  lemma ServeCondemned(s: State, dirs: Dirs, step: Step, t: State, l: ListingId, r: P.RequestId, id: ConnId)
    requires s.pool.pool.Valid() && step.ServePage? && NextServe(dirs, s, step, t) && Dropping(s, l, r, id)
    requires s.listings[step.l].call.value.request != r
    ensures Condemned(t, l, r, id)
  {
    var ps := PoolStep(dirs, s, step, t);
    if ps.Some? {
      assert P.IsStepOf(ps.value, s.listings[step.l].call.value.request) ==> !P.IsStepOf(ps.value, r);
    }
  }

  lemma SendCondemned(s: State, step: Step, t: State, l: ListingId, r: P.RequestId, id: ConnId)
    requires s.pool.pool.Valid() && step.Send? && NextSend(s, step, t) && Dropping(s, l, r, id)
    ensures Condemned(t, l, r, id)
  {
  }

  lemma OtherCondemned(s: State, step: Step, t: State, l: ListingId, r: P.RequestId, id: ConnId)
    requires s.pool.pool.Valid() && step.Other? && NextOther(s, step, t) && Dropping(s, l, r, id)
    ensures Condemned(t, l, r, id)
  {
    JobKept(s.pool, step.step, t.pool, r, id);
  }

  lemma StillDropping(dirs: Dirs, s: State, step: Step, t: State, l: ListingId, r: P.RequestId, id: ConnId)
    requires Inv(dirs, s) && s.pool.pool.Valid() && Next(dirs, s, step, t) && Dropping(s, l, r, id)
    ensures Condemned(t, l, r, id)
  {
    match step
    case Begin(_, _, _) =>
    case Send(_, _, _, _, _, _, _, _) => SendCondemned(s, step, t, l, r, id);
    case ServePage(m, _, _) =>
      OtherRequest(dirs, s, l, m);
      ServeCondemned(s, dirs, step, t, l, r, id);
    case WindUp(_, _, _) => WindUpCondemned(dirs, s, step, t, l, r, id);
    case Other(_) => OtherCondemned(s, step, t, l, r, id);
  }

  lemma StillCondemned(dirs: Dirs, s: State, step: Step, t: State, l: ListingId, r: P.RequestId, id: ConnId)
    requires Inv(dirs, s) && s.pool.pool.Valid() && Next(dirs, s, step, t) && Careful(s, step)
    requires Condemned(s, l, r, id)
    ensures Condemned(t, l, r, id)
  {
    if IsDead(s.pool, id) {
      StillDead(dirs, s, step, t, id);
    } else {
      StillDropping(dirs, s, step, t, l, r, id);
    }
  }

  lemma StepIs(dirs: Dirs, run: seq<State>, steps: seq<Step>, i: nat)
    requires IsRun(dirs, run, steps) && IsCareful(run, steps) && i < |steps|
    ensures run[i].pool.pool.Valid() && Next(dirs, run[i], steps[i], run[i + 1]) && Careful(run[i], steps[i])
  {
  }

  lemma {:induction false} CondemnedInRuns(dirs: Dirs, run: seq<State>, steps: seq<Step>, n: nat, m: nat,
                                           l: ListingId, r: P.RequestId, id: ConnId)
    requires IsRun(dirs, run, steps) && IsCareful(run, steps) && n <= m < |run| && Condemned(run[n], l, r, id)
    ensures Condemned(run[m], l, r, id)
    decreases m
  {
    if n < m {
      CondemnedInRuns(dirs, run, steps, n, m - 1, l, r, id);
      CondemnedNext(dirs, run, steps, m, l, r, id);
    }
  }

  lemma CondemnedNext(dirs: Dirs, run: seq<State>, steps: seq<Step>, m: nat, l: ListingId, r: P.RequestId, id: ConnId)
    requires IsRun(dirs, run, steps) && IsCareful(run, steps) && 0 < m < |run| && Condemned(run[m - 1], l, r, id)
    ensures Condemned(run[m], l, r, id)
  {
    InvInRuns(dirs, run, steps, m - 1);
    StepIs(dirs, run, steps, m - 1);
    StillCondemned(dirs, run[m - 1], steps[m - 1], run[m], l, r, id);
  }

  /** Nobody but the request that drops it has a condemned connection. */
  lemma CondemnedIsNobodys(s: P.State, r: P.RequestId, id: ConnId)
    requires P.Inv(s) && (IsDead(s, id) || JobDrops(s, r, id))
    ensures id !in s.pool.inactive
    ensures forall q :: q in s.jobs && s.jobs[q].conn == id ==> q == r && JobDrops(s, r, id)
  {
    if JobDrops(s, r, id) {
      P.OwnConn(s, r);
    }
    forall q | q in s.jobs && s.jobs[q].conn == id ensures q == r && JobDrops(s, r, id) {
      P.OwnConn(s, q);
    }
  }

  /** A connection that a listing found unusable is never handed out again: the client
      is told to start over, and from then on the connection is in no list and the only
      request that ever has it is the one that is about to drop it. */
  lemma UnusableIsNeverHandedOut(dirs: Dirs, run: seq<State>, steps: seq<Step>, n: nat, m: nat)
    requires IsRun(dirs, run, steps) && IsCareful(run, steps) && n < m < |run| && FoundUnusable(run[n], steps[n])
    ensures var l := steps[n].l;
            var k := run[n].listings[l].call.value;
            && Dropping(run[n + 1], l, k.request, k.conn)
            && run[n + 1].listings[l].call.value.pending.value.reply == Reply([], None, Retry, NoError)
            && k.conn !in run[m].pool.pool.inactive
            && forall q :: q in run[m].pool.jobs && run[m].pool.jobs[q].conn == k.conn ==>
                 Dropping(run[m], l, q, k.conn)
  {
    var l := steps[n].l;
    var k := run[n].listings[l].call.value;
    InvInRuns(dirs, run, steps, n);
    StepIs(dirs, run, steps, n);
    UnusableIsCondemned(dirs, run[n], steps[n], run[n + 1]);
    CondemnedInRuns(dirs, run, steps, n + 1, m, l, k.request, k.conn);
    InvInRuns(dirs, run, steps, m);
    CondemnedIsNobodys(run[m].pool, k.request, k.conn);
  }
}
