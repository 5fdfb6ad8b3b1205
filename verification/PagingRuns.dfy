/** Clients list directories of one task, any number of listings at a time. A
    listing sends one call at a time; replies get lost and calls are sent again with
    the cookie of the last reply that arrived; a listing may start over at any time.
    The steps of the calls interleave with each other, with those of the task's
    other requests and with the purges of the alarm handler, as in PoolRuns. */
module PagingRuns {
  import opened Status
  import opened ConnectionPool
  import opened Paging
  import P = PoolRuns

  type ListingId = nat

  /** A reply that is decided but not sent yet, because the connection has still to
      be given back or dropped. */
  datatype Pending = Pending(reply: Reply, drop: bool)

  datatype Call = Call(request: P.RequestId, conn: ConnId, continueOnError: bool, pending: Option<Pending>)

  /** What a client knows about one listing: what it has accepted since it last
      started from the beginning; whether the last call with a cookie got no reply;
      and whether a request without a cookie was sent to the task since that call
      was. `conn` is auxiliary: the connection that the cookie came from. */
  datatype Listing = Listing(path: string, skip: set<string>, cookie: Option<Cookie>, accepted: seq<string>, done: bool,
                             unsure: bool, stale: bool, conn: ConnId, call: Option<Call>)

  /** `holder` is auxiliary: the listing that last acquired a connection. */
  datatype State = State(pool: P.State, listings: map<ListingId, Listing>, holder: map<ConnId, ListingId>)

  datatype Step =
    | Begin(l: ListingId, path: string, skip: set<string>)
    | Send(l: ListingId, r: P.RequestId, continueOnError: bool, now: int, newId: ConnId, id: Option<ConnId>,
           error: Error, lost: bool)
    | ServePage(l: ListingId, env: Env, lost: bool)
    | WindUp(l: ListingId, step: P.Step, lost: bool)
    | Other(step: P.Step)

  function Names(children: seq<Child>): seq<string> {
    seq(|children|, i requires 0 <= i < |children| => children[i].name)
  }

  function Fresh(path: string, skip: set<string>): Listing {
    Listing(path, skip, None, [], false, false, false, 0, None)
  }

  /** An error of either kind makes the client start over. */
  function Accept(c: Listing, reply: Reply, conn: ConnId): Listing {
    if reply.error.Ok() && reply.dirError.Ok() then
      Listing(c.path, c.skip, reply.cookie, c.accepted + Names(reply.children), reply.cookie.None?, false, false,
          conn, None)
    else Fresh(c.path, c.skip)
  }

  function Deliver(c: Listing, reply: Reply, conn: ConnId, lost: bool): Listing {
    if lost then c.(unsure := true, call := None) else Accept(c, reply, conn)
  }

  function ArgOf(c: Listing, continueOnError: bool): Arg {
    Arg(c.path, c.skip, c.cookie, continueOnError)
  }

  /** A request without a cookie is sent: it may get the connection of a listing
      whose last call has had no reply yet. */
  ghost function MarkStale(ls: map<ListingId, Listing>): map<ListingId, Listing> {
    map l | l in ls :: if ls[l].call.Some? || ls[l].unsure then ls[l].(stale := true) else ls[l]
  }

  ghost predicate NextSend(s: State, step: Step, t: State)
    requires s.pool.pool.Valid() && step.Send?
  {
    && step.l in s.listings && step.r !in s.pool.jobs
    && var c := s.listings[step.l];
    && c.call.None? && !c.done
    && (match c.cookie
        case None =>
          && P.Next(s.pool, P.StartFresh(step.r, "", step.now, step.newId, step.id), t.pool)
          && !step.error.Ok()
        case Some(k) =>
          && P.CookieCall(s.pool, step.r, k.created, k.fetched, step.now, t.pool)
          && step.id == Resume(s.pool.pool, k.created, k.fetched, step.now).1
          && step.error == Retry)
    && var others := if c.cookie.None? then MarkStale(s.listings) else s.listings;
    && (match step.id
        case Some(id) =>
          && t.listings == others[step.l := c.(call := Some(Call(step.r, id, step.continueOnError, None)),
              stale := false)]
          && t.holder == s.holder[id := step.l]
        case None =>
          && t.listings == others[step.l := Deliver(c, NoConnection(ArgOf(c, step.continueOnError), step.error), 0,
              step.lost)]
          && t.holder == s.holder)
  }

  ghost predicate NextServe(dirs: Dirs, s: State, step: Step, t: State)
    requires s.pool.pool.Valid() && step.ServePage?
  {
    && step.l in s.listings && t.holder == s.holder
    && var c := s.listings[step.l];
    && c.call.Some? && c.call.value.pending.None? && c.call.value.conn in s.pool.pool.conns
    && var k := c.call.value;
    && match Respond(dirs, s.pool.pool.conns[k.conn], ArgOf(c, k.continueOnError), step.env)
       case KeepOpen(next, count, reply) =>
         && P.Next(s.pool, P.LeaveOpen(k.request, next, count), t.pool)
         && t.listings == s.listings[step.l := Deliver(c, reply, k.conn, step.lost)]
       case GiveBack(reply) =>
         && t.pool == s.pool
         && t.listings == s.listings[step.l := c.(call := Some(k.(pending := Some(Pending(reply, false)))))]
       case Drop(dir, reply) =>
         && P.Next(s.pool, P.Work(k.request, s.pool.pool.conns[k.conn].cached, dir), t.pool)
         && t.listings == s.listings[step.l := c.(call := Some(k.(pending := Some(Pending(reply, true)))))]
  }

  /** After the decision: shut down if the connection is to be dropped, then give it
      up; the reply goes out at the end. */
  ghost predicate NextWindUp(s: State, step: Step, t: State)
    requires s.pool.pool.Valid() && step.WindUp?
  {
    && step.l in s.listings && t.holder == s.holder
    && var c := s.listings[step.l];
    && c.call.Some? && c.call.value.pending.Some?
    && var k := c.call.value;
    && P.IsStepOf(step.step, k.request) && P.Next(s.pool, step.step, t.pool)
    && (step.step.ShutDown? ==> k.pending.value.drop)
    && (step.step.BeginRelease? ==> P.At(s.pool, k.request, if k.pending.value.drop then P.Closing else P.Using))
    && !step.step.Work? && !step.step.LeaveOpen?
    && t.listings == s.listings[step.l := if step.step.EndRelease?
                                          then Deliver(c, k.pending.value.reply, k.conn, step.lost) else c]
  }

  /** Requests other than listings never leave a listing open. */
  ghost predicate NextOther(s: State, step: Step, t: State)
    requires s.pool.pool.Valid() && step.Other?
  {
    && !step.step.StartCookie? && !step.step.LeaveOpen?
    && (forall l :: l in s.listings && s.listings[l].call.Some? ==>
          !P.IsStepOf(step.step, s.listings[l].call.value.request))
    && P.Next(s.pool, step.step, t.pool) && t.holder == s.holder
    && t.listings == if step.step.StartFresh? then MarkStale(s.listings) else s.listings
  }

  ghost predicate Next(dirs: Dirs, s: State, step: Step, t: State)
    requires s.pool.pool.Valid()
  {
    match step
    case Begin(l, path, skip) =>
      && (l in s.listings ==> s.listings[l].call.None?)
      && t == s.(listings := s.listings[l := Fresh(path, skip)])
    case Send(_, _, _, _, _, _, _, _) => NextSend(s, step, t)
    case ServePage(_, _, _) => NextServe(dirs, s, step, t)
    case WindUp(_, _, _) => NextWindUp(s, step, t)
    case Other(_) => NextOther(s, step, t)
  }

  /** The rule for clients: a cookie is sent again after a lost reply only if no
      request without a cookie has been sent to the task since the call that had no
      reply; otherwise the listing has to start over. */
  ghost predicate Careful(s: State, step: Step) {
    step.Send? && step.l in s.listings ==>
      var c := s.listings[step.l]; c.cookie.Some? ==> !(c.unsure && c.stale)
  }

  // ---- What the client should see ----

  /** A listing without the skipped paths. */
  function Visible(names: seq<string>, path: string, skip: set<string>): seq<string> {
    if names == [] then []
    else if path + "/" + names[0] in skip then Visible(names[1..], path, skip)
    else [names[0]] + Visible(names[1..], path, skip)
  }

  lemma {:induction false} VisibleConcat(a: seq<string>, b: seq<string>, path: string, skip: set<string>)
    ensures Visible(a + b, path, skip) == Visible(a, path, skip) + Visible(b, path, skip)
  {
    if a == [] {
      assert a + b == b;
    } else {
      assert (a + b)[1..] == a[1..] + b;
      VisibleConcat(a[1..], b, path, skip);
    }
  }

  lemma NamesCons(c: Child, rest: seq<Child>)
    ensures Names([c] + rest) == [c.name] + Names(rest)
  {
  }

  /** A page that is not cut short reports all its visible names. */
  lemma {:induction false} CollectedAreVisible(page: seq<string>, arg: Arg, bad: set<nat>, i: nat)
    requires i <= |page| && !Collect(page, arg, bad, i).1
    ensures Names(Collect(page, arg, bad, i).0) == Visible(page[i..], arg.path, arg.skip)
    decreases |page| - i
  {
    if i < |page| {
      assert page[i..][1..] == page[i + 1..];
      CollectedAreVisible(page, arg, bad, i + 1);
      if !Skipped(arg, page[i]) {
        NamesCons(Child(page[i], i in bad), Collect(page, arg, bad, i + 1).0);
      }
    }
  }

  lemma PrefixGrows(names: seq<string>, m: nat, n: nat, path: string, skip: set<string>)
    requires m <= n <= |names|
    ensures Visible(names[..m], path, skip) + Visible(names[m..n], path, skip) == Visible(names[..n], path, skip)
  {
    assert names[..n] == names[..m] + names[m..n];
    VisibleConcat(names[..m], names[m..n], path, skip);
  }

  // ---- One call ----

  /** A cursor that has got as far as the connection's counter says. */
  ghost predicate CursorOk(dirs: Dirs, cursor: Cursor, fetched: int) {
    fetched == cursor.position && cursor.path in dirs && cursor.position <= |dirs[cursor.path]|
  }

  /** No listing open, or one that has got as far as the counter says. */
  ghost predicate Ready(dirs: Dirs, c: Conn) {
    match c.dir
    case None => c.fetched == 0
    case Some(cursor) => CursorOk(dirs, cursor, c.fetched)
  }

  predicate NoErrors(reply: Reply) { reply.error.Ok() && reply.dirError.Ok() }

  /** How far a reply without errors takes a listing of `size` names. */
  function ReachOf(reply: Reply, size: nat): int {
    if reply.cookie.Some? then reply.cookie.value.fetched else size
  }

  /** A reply without errors carries what is visible of the next part of the
      listing: up to the cookie's count, or to the end if there is no cookie. */
  lemma ServeReplies(dirs: Dirs, c: Conn, arg: Arg, env: Env)
    requires Ready(dirs, c)
    ensures var reply := Respond(dirs, c, arg, env).reply; var cursor := Position(c, arg);
            NoErrors(reply) ==>
              && cursor.path in dirs
              && var names := dirs[cursor.path];
                 && cursor.position <= ReachOf(reply, |names|) <= |names|
                 && Names(reply.children) == Visible(names[cursor.position..ReachOf(reply, |names|)], arg.path,
                     arg.skip)
  {
    var reply := Respond(dirs, c, arg, env).reply;
    var cursor := Position(c, arg);
    if NoErrors(reply) {
      var names := dirs[cursor.path];
      var page := names[cursor.position..PageEnd(names, cursor, env)];
      assert page[0..] == page;
      CollectedAreVisible(page, arg, env.bad, 0);
    }
  }

  /** A cookie comes exactly with a listing that stays open, at the cookie's count. */
  lemma ServeKeeps(dirs: Dirs, c: Conn, arg: Arg, env: Env)
    requires Ready(dirs, c)
    ensures var answer := Respond(dirs, c, arg, env);
            && (answer.KeepOpen? <==> answer.reply.cookie.Some?)
            && (answer.KeepOpen? ==>
                  && NoErrors(answer.reply) && answer.next.path == Position(c, arg).path
                  && CursorOk(dirs, answer.next, c.fetched + answer.count)
                  && answer.reply.cookie == Some(Cookie(c.created, c.fetched + answer.count)))
            && (answer.Drop? ==> !NoErrors(answer.reply))
  {
  }

  // ---- The invariant ----

  /** How many children of the listing the client has been told about. */
  ghost function Received(dirs: Dirs, c: Listing): int {
    if c.done && c.path in dirs then |dirs[c.path]|
    else if c.cookie.Some? then c.cookie.value.fetched
    else 0
  }

  /** What the client has accepted is the visible part of a prefix. */
  ghost predicate AcceptedIsPrefix(dirs: Dirs, c: Listing) {
    && (c.done || c.cookie.Some? ==> c.path in dirs && 0 <= Received(dirs, c) <= |dirs[c.path]|)
    && c.accepted == (if c.done || c.cookie.Some? then Visible(dirs[c.path][..Received(dirs, c)], c.path,
        c.skip) else [])
    && (c.done ==> c.cookie.None?)
  }

  /** The client may still use its cookie. */
  predicate Live(c: Listing) { c.cookie.Some? && !(c.unsure && c.stale) }

  /** The cookie's connection is dead, or open at this listing, as far as the cookie
      says unless a reply was lost; only after a lost reply it may be resting. */
  ghost predicate AtRest(dirs: Dirs, s: P.State, c: Listing)
    requires c.conn in s.place && c.conn in s.pool.conns
  {
    var cn := s.pool.conns[c.conn];
    || s.place[c.conn] == P.Dead
    || (c.unsure && s.place[c.conn] == P.Resting)
    || (&& s.place[c.conn] == P.Open && cn.dir.Some? && cn.dir.value.path == c.path
        && CursorOk(dirs, cn.dir.value, cn.fetched)
        && (!c.unsure ==> c.cookie.Some? && cn.fetched == c.cookie.value.fetched))
  }

  ghost predicate KnowsConn(s: P.State, c: Listing) {
    c.cookie.Some? ==>
      && c.conn in s.pool.conns && c.conn in s.place
      && s.pool.conns[c.conn].created == c.cookie.value.created
  }

  /** The connection of a call that has yet to be served is where the cookie says,
      or unused. */
  ghost predicate CallReady(c: Listing, cn: Conn) {
    match c.cookie
    case None => cn.dir == None && cn.fetched == 0
    case Some(k) =>
      && cn.fetched == k.fetched && cn.dir.Some?
      && cn.dir.value.position == k.fetched && cn.dir.value.path == c.path
  }

  ghost predicate CallOk(dirs: Dirs, s: P.State, c: Listing, k: Call) {
    && k.request in s.jobs && s.jobs[k.request].conn == k.conn && k.conn in s.pool.conns
    && !c.done && (c.cookie.Some? ==> k.conn == c.conn)
    && (match k.pending
        case None => s.jobs[k.request].stage == P.Using && CallReady(c, s.pool.conns[k.conn])
        case Some(pd) => pd.reply.cookie.None? && AcceptedIsPrefix(dirs, Accept(c, pd.reply, k.conn)))
  }

  ghost predicate ListingOk(dirs: Dirs, s: P.State, holder: map<ConnId, ListingId>, l: ListingId, c: Listing) {
    && AcceptedIsPrefix(dirs, c) && KnowsConn(s, c)
    && (match c.call
        case None => Live(c) ==> AtRest(dirs, s, c) && c.conn in holder && holder[c.conn] == l
        case Some(k) => CallOk(dirs, s, c, k) && k.conn in holder && holder[k.conn] == l)
  }

  ghost predicate Inv(dirs: Dirs, s: State) {
    && P.Inv(s.pool)
    && forall l :: l in s.listings ==> ListingOk(dirs, s.pool, s.holder, l, s.listings[l])
  }

  // ---- Listings that a step is not about ----

  /** Other listings change at most by becoming stale. */
  ghost predicate Bystander(step: P.Step, c: Listing, c': Listing) {
    && (c' == c || c' == c.(stale := true))
    && (step.StartFresh? && c.unsure ==> c'.stale)
    && (c.call.Some? ==> !P.IsStepOf(step, c.call.value.request))
  }

  lemma RestingBystander(dirs: Dirs, s: P.State, step: P.Step, t: P.State, holder: map<ConnId, ListingId>,
                         l: ListingId, c: Listing, c': Listing)
    requires P.Inv(s) && s.pool.Valid() && P.Next(s, step, t)
    requires ListingOk(dirs, s, holder, l, c) && Bystander(step, c, c') && c.call.None? && Live(c')
    requires step.StartCookie? ==> step.created !in s.pool.active || s.pool.active[step.created] != c.conn
    ensures c'.conn in t.place && c'.conn in t.pool.conns && AtRest(dirs, t, c')
  {
    if P.ByRequest(step) && step.r in s.jobs {
      P.OwnConn(s, step.r);
    }
    P.StepSpares(s, step, t, c.conn);
  }

  lemma CallBystander(dirs: Dirs, s: P.State, step: P.Step, t: P.State, c: Listing, c': Listing, k: Call)
    requires P.Inv(s) && s.pool.Valid() && P.Next(s, step, t) && P.Inv(t)
    requires CallOk(dirs, s, c, k) && Bystander(step, c, c') && c.call == Some(k)
    ensures CallOk(dirs, t, c', k)
  {
    P.UserSpared(s, step, t, k.request);
    CallStays(dirs, s, t, c, c', k);
  }

  lemma CallStays(dirs: Dirs, s: P.State, t: P.State, c: Listing, c': Listing, k: Call)
    requires CallOk(dirs, s, c, k) && (c' == c || c' == c.(stale := true))
    requires k.request in t.jobs && t.jobs[k.request] == s.jobs[k.request]
    requires k.conn in t.pool.conns && t.pool.conns[k.conn] == s.pool.conns[k.conn]
    ensures CallOk(dirs, t, c', k)
  {
  }

  lemma BystanderKept(dirs: Dirs, s: P.State, step: P.Step, t: P.State, holder: map<ConnId, ListingId>,
                      holder': map<ConnId, ListingId>, l: ListingId, c: Listing, c': Listing)
    requires P.Inv(s) && s.pool.Valid() && P.Next(s, step, t) && P.Inv(t)
    requires ListingOk(dirs, s, holder, l, c) && Bystander(step, c, c')
    requires c.call.None? && Live(c') && step.StartCookie? ==>
               step.created !in s.pool.active || s.pool.active[step.created] != c.conn
    requires c.call.None? && Live(c') && c.conn in holder ==> c.conn in holder' && holder'[c.conn] == holder[c.conn]
    requires c.call.Some? && c.call.value.conn in holder ==>
               c.call.value.conn in holder' && holder'[c.call.value.conn] == holder[c.call.value.conn]
    ensures ListingOk(dirs, t, holder', l, c')
  {
    if c.cookie.Some? {
      P.CreatedStays(s, step, t, c.conn);
    }
    match c.call
    case None =>
      if Live(c') {
        RestingBystander(dirs, s, step, t, holder, l, c, c');
      }
    case Some(k) => CallBystander(dirs, s, step, t, c, c', k);
  }

  // ---- The listing that sends a call ----

  /** A live cookie that finds a connection finds its own, with nobody using it. */
  lemma LiveCookieIsOpen(dirs: Dirs, s: P.State, c: Listing)
    requires P.Inv(s) && s.pool.Valid() && KnowsConn(s, c) && Live(c) && AtRest(dirs, s, c)
    ensures var created := c.cookie.value.created;
            created in s.pool.active ==> s.pool.active[created] == c.conn && s.place[c.conn] == P.Open
    ensures c.cookie.value.created !in s.pool.active ==> s.place[c.conn] != P.Open
  {
    assert P.PlaceOk(s.pool, s.jobs, s.place, c.conn);
  }

  lemma SentWithCookie(dirs: Dirs, s: P.State, t: P.State, holder: map<ConnId, ListingId>, l: ListingId, c: Listing,
                       r: P.RequestId, cont: bool, now: int, lost: bool)
    requires P.Inv(s) && s.pool.Valid() && P.Inv(t)
    requires ListingOk(dirs, s, holder, l, c) && Live(c) && c.call.None? && !c.done
    requires P.CookieCall(s, r, c.cookie.value.created, c.cookie.value.fetched, now, t)
    ensures var k := c.cookie.value;
            var id := Resume(s.pool, k.created, k.fetched, now).1;
            match id
            case Some(x) =>
              && x == c.conn
              && ListingOk(dirs, t, holder[x := l], l, c.(call := Some(Call(r, x, cont, None)), stale := false))
            case None => ListingOk(dirs, t, holder, l, Deliver(c, NoConnection(ArgOf(c, cont), Retry), 0, lost))
  {
    LiveCookieIsOpen(dirs, s, c);
  }

  lemma SentFresh(dirs: Dirs, s: P.State, t: P.State, holder: map<ConnId, ListingId>, l: ListingId, c: Listing,
                  r: P.RequestId, cont: bool, now: int, newId: ConnId, id: ConnId)
    requires P.Inv(s) && s.pool.Valid()
    requires ListingOk(dirs, s, holder, l, c) && c.cookie.None? && c.call.None? && !c.done
    requires P.Next(s, P.StartFresh(r, "", now, newId, Some(id)), t)
    ensures ListingOk(dirs, t, holder[id := l], l, c.(call := Some(Call(r, id, cont, None)), stale := false))
    ensures id in s.place ==> s.place[id] == P.Resting
  {
    FreshIsUnused(s, t, r, now, newId, id);
  }

  /** A connection obtained without a cookie has no listing open. */
  lemma FreshIsUnused(s: P.State, t: P.State, r: P.RequestId, now: int, newId: ConnId, id: ConnId)
    requires P.Inv(s) && s.pool.Valid() && P.Next(s, P.StartFresh(r, "", now, newId, Some(id)), t)
    ensures id in t.pool.conns && t.pool.conns[id].dir == None && t.pool.conns[id].fetched == 0
    ensures id in s.place ==> s.place[id] == P.Resting
  {
    if s.pool.inactive != [] {
      var i :| 0 <= i < |s.pool.inactive| && id == s.pool.inactive[i] && t.pool == Activate(s.pool, i, now);
      assert id in s.pool.inactive;
      assert P.PlaceOk(s.pool, s.jobs, s.place, id);
    } else {
      assert id == newId;
    }
  }

  lemma NotSent(dirs: Dirs, s: P.State, holder: map<ConnId, ListingId>, l: ListingId, c: Listing, cont: bool,
                e: Error, lost: bool)
    requires ListingOk(dirs, s, holder, l, c) && c.cookie.None? && c.call.None? && !c.done && !e.Ok()
    ensures ListingOk(dirs, s, holder, l, Deliver(c, NoConnection(ArgOf(c, cont), e), 0, lost))
  {
  }

  // ---- The listing whose call is served ----

  lemma CallIsReady(dirs: Dirs, c: Listing, cn: Conn)
    requires AcceptedIsPrefix(dirs, c) && CallReady(c, cn)
    ensures Ready(dirs, cn)
  {
  }

  /** A reply to the right position extends the prefix. */
  lemma AcceptKeeps(dirs: Dirs, c: Listing, cn: Conn, cont: bool, env: Env, conn: ConnId)
    requires AcceptedIsPrefix(dirs, c) && !c.done && CallReady(c, cn)
    ensures AcceptedIsPrefix(dirs, Accept(c, Respond(dirs, cn, ArgOf(c, cont), env).reply, conn))
  {
    var arg := ArgOf(c, cont);
    var reply := Respond(dirs, cn, arg, env).reply;
    CallIsReady(dirs, c, cn);
    ServeReplies(dirs, cn, arg, env);
    if NoErrors(reply) {
      var names, from := dirs[c.path], Position(cn, arg).position;
      PrefixGrows(names, from, ReachOf(reply, |names|), c.path, c.skip);
      assert c.accepted == Visible(names[..from], c.path, c.skip);
    }
  }

  /** The listing stays open. */
  lemma KeptOpen(dirs: Dirs, s: P.State, t: P.State, holder: map<ConnId, ListingId>, l: ListingId, c: Listing,
                 env: Env, lost: bool)
    requires P.Inv(s) && s.pool.Valid() && ListingOk(dirs, s, holder, l, c) && c.call.Some?
             && c.call.value.pending.None?
    requires var k := c.call.value;
             var answer := Respond(dirs, s.pool.conns[k.conn], ArgOf(c, k.continueOnError), env);
             answer.KeepOpen? && P.Next(s, P.LeaveOpen(k.request, answer.next, answer.count), t)
    ensures var k := c.call.value;
            var reply := Respond(dirs, s.pool.conns[k.conn], ArgOf(c, k.continueOnError), env).reply;
            ListingOk(dirs, t, holder, l, Deliver(c, reply, k.conn, lost))
  {
    var k := c.call.value;
    var cn, arg := s.pool.conns[k.conn], ArgOf(c, k.continueOnError);
    CallIsReady(dirs, c, cn);
    ServeKeeps(dirs, cn, arg, env);
    AcceptKeeps(dirs, c, cn, k.continueOnError, env, k.conn);
  }

  /** The connection is to be given up first. */
  lemma Decided(dirs: Dirs, s: P.State, t: P.State, holder: map<ConnId, ListingId>, l: ListingId, c: Listing, env: Env)
    requires P.Inv(s) && s.pool.Valid() && ListingOk(dirs, s, holder, l, c) && c.call.Some?
             && c.call.value.pending.None?
    requires var k := c.call.value;
             var answer := Respond(dirs, s.pool.conns[k.conn], ArgOf(c, k.continueOnError), env);
             !answer.KeepOpen? && (t == s || (answer.Drop?
                 && P.Next(s, P.Work(k.request, s.pool.conns[k.conn].cached, answer.dir), t)))
    ensures var k := c.call.value;
            var answer := Respond(dirs, s.pool.conns[k.conn], ArgOf(c, k.continueOnError), env);
            ListingOk(dirs, t, holder, l, c.(call := Some(k.(pending := Some(Pending(answer.reply, answer.Drop?))))))
  {
    var k := c.call.value;
    var cn, arg := s.pool.conns[k.conn], ArgOf(c, k.continueOnError);
    CallIsReady(dirs, c, cn);
    ServeKeeps(dirs, cn, arg, env);
    AcceptKeeps(dirs, c, cn, k.continueOnError, env, k.conn);
  }

  /** Shutting down or beginning to release leaves the decided reply as it is. */
  lemma StillWindingUp(dirs: Dirs, s: P.State, step: P.Step, t: P.State, c: Listing, k: Call)
    requires s.pool.Valid() && P.Next(s, step, t) && CallOk(dirs, s, c, k) && k.pending.Some?
    requires P.IsStepOf(step, k.request) && (step.ShutDown? || step.BeginRelease?)
    ensures CallOk(dirs, t, c, k)
  {
  }

  /** The reply goes out when the connection has been given up. */
  lemma RepliedAtLast(dirs: Dirs, s: P.State, step: P.Step, t: P.State, holder: map<ConnId, ListingId>, l: ListingId,
                      c: Listing, k: Call, lost: bool)
    requires s.pool.Valid() && P.Next(s, step, t) && step.EndRelease? && step.r == k.request
    requires ListingOk(dirs, s, holder, l, c) && c.call == Some(k) && k.pending.Some? && KnowsConn(t, c)
    ensures ListingOk(dirs, t, holder, l, Deliver(c, k.pending.value.reply, k.conn, lost))
  {
  }

  lemma WoundUp(dirs: Dirs, s: P.State, step: P.Step, t: P.State, holder: map<ConnId, ListingId>, l: ListingId,
                c: Listing, lost: bool)
    requires P.Inv(s) && s.pool.Valid() && P.Inv(t) && ListingOk(dirs, s, holder, l, c)
    requires c.call.Some? && c.call.value.pending.Some? && P.IsStepOf(step, c.call.value.request) && P.Next(s, step, t)
    requires step.ShutDown? || step.BeginRelease? || step.EndRelease?
    ensures var k := c.call.value;
            ListingOk(dirs, t, holder, l, if step.EndRelease? then Deliver(c, k.pending.value.reply, k.conn,
                lost) else c)
  {
    if c.cookie.Some? {
      P.CreatedStays(s, step, t, c.conn);
    }
    if step.EndRelease? {
      RepliedAtLast(dirs, s, step, t, holder, l, c, c.call.value, lost);
    } else {
      StillWindingUp(dirs, s, step, t, c, c.call.value);
    }
  }

  // ---- Each step keeps the invariant ----

  lemma Assembled(dirs: Dirs, t: State, l: ListingId)
    requires P.Inv(t.pool) && l in t.listings && ListingOk(dirs, t.pool, t.holder, l, t.listings[l])
    requires forall m :: m in t.listings && m != l ==> ListingOk(dirs, t.pool, t.holder, m, t.listings[m])
    ensures Inv(dirs, t)
  {
  }

  lemma SendCookieIsStep(dirs: Dirs, s: P.State, c: Listing, r: P.RequestId, now: int, t: P.State)
    requires P.Inv(s) && s.pool.Valid() && KnowsConn(s, c) && Live(c) && AtRest(dirs, s, c)
    requires P.CookieCall(s, r, c.cookie.value.created, c.cookie.value.fetched, now, t)
    ensures P.Next(s, P.StartCookie(r, c.cookie.value.created, c.cookie.value.fetched, now), t) && P.Inv(t)
  {
    LiveCookieIsOpen(dirs, s, c);
    P.StepKeepsInv(s, P.StartCookie(r, c.cookie.value.created, c.cookie.value.fetched, now), t);
  }

  lemma CookieBystander(dirs: Dirs, s: State, ps: P.Step, t: P.State, holder': map<ConnId, ListingId>, l: ListingId,
                        m: ListingId)
    requires P.Inv(s.pool) && s.pool.pool.Valid() && P.Next(s.pool, ps, t) && P.Inv(t) && ps.StartCookie?
    requires l in s.listings && m in s.listings && l != m
    requires ListingOk(dirs, s.pool, s.holder, l, s.listings[l]) && ListingOk(dirs, s.pool, s.holder, m, s.listings[m])
    requires Live(s.listings[l]) && s.listings[l].call.None? && ps.created == s.listings[l].cookie.value.created
    requires holder' == s.holder || holder' == s.holder[s.listings[l].conn := l]
    ensures ListingOk(dirs, t, holder', m, s.listings[m])
  {
    LiveCookieIsOpen(dirs, s.pool, s.listings[l]);
    BystanderKept(dirs, s.pool, ps, t, s.holder, holder', m, s.listings[m], s.listings[m]);
  }

  lemma SendCookieKeeps(dirs: Dirs, s: State, step: Step, t: State)
    requires Inv(dirs, s) && s.pool.pool.Valid() && step.Send? && NextSend(s, step, t) && Careful(s, step)
    requires s.listings[step.l].cookie.Some?
    ensures Inv(dirs, t)
  {
    var l, c := step.l, s.listings[step.l];
    var k := c.cookie.value;
    assert ListingOk(dirs, s.pool, s.holder, l, c);
    SendCookieIsStep(dirs, s.pool, c, step.r, step.now, t.pool);
    SentWithCookie(dirs, s.pool, t.pool, s.holder, l, c, step.r, step.continueOnError, step.now, step.lost);
    CookieBystanders(dirs, s, P.StartCookie(step.r, k.created, k.fetched, step.now), t, l);
    Assembled(dirs, t, l);
  }

  lemma CookieBystanders(dirs: Dirs, s: State, ps: P.Step, t: State, l: ListingId)
    requires Inv(dirs, s) && s.pool.pool.Valid() && P.Next(s.pool, ps, t.pool) && P.Inv(t.pool) && ps.StartCookie?
    requires l in s.listings && Live(s.listings[l]) && s.listings[l].call.None?
    requires ps.created == s.listings[l].cookie.value.created
    requires t.holder == s.holder || t.holder == s.holder[s.listings[l].conn := l]
    requires l in t.listings && t.listings == s.listings[l := t.listings[l]]
    ensures forall m :: m in t.listings && m != l ==> ListingOk(dirs, t.pool, t.holder, m, t.listings[m])
  {
    forall m | m in t.listings && m != l ensures ListingOk(dirs, t.pool, t.holder, m, t.listings[m]) {
      assert ListingOk(dirs, s.pool, s.holder, l, s.listings[l]);
      assert ListingOk(dirs, s.pool, s.holder, m, s.listings[m]);
      CookieBystander(dirs, s, ps, t.pool, t.holder, l, m);
    }
  }

  lemma MarkedBystander(ls: map<ListingId, Listing>, ps: P.Step, m: ListingId)
    requires m in ls && ps.StartFresh?
    ensures Bystander(ps, ls[m], MarkStale(ls)[m])
  {
  }

  lemma FreshBystander(dirs: Dirs, s: P.State, ps: P.Step, t: P.State, holder: map<ConnId, ListingId>,
                       holder': map<ConnId, ListingId>, l: ListingId, m: ListingId, c: Listing, c': Listing)
    requires P.Inv(s) && s.pool.Valid() && P.Next(s, ps, t) && P.Inv(t) && ps.StartFresh? && ps.path == ""
    requires l != m && ListingOk(dirs, s, holder, m, c) && Bystander(ps, c, c')
    requires holder' == if ps.id.Some? then holder[ps.id.value := l] else holder
    requires ps.id.Some? && ps.id.value in s.place ==> s.place[ps.id.value] == P.Resting
    ensures ListingOk(dirs, t, holder', m, c')
  {
    if ps.id.Some? {
      FreshSpares(dirs, s, holder, m, c, ps.id.value, c');
    }
    BystanderKept(dirs, s, ps, t, holder, holder', m, c, c');
  }

  lemma SendFreshKeeps(dirs: Dirs, s: State, step: Step, t: State)
    requires Inv(dirs, s) && s.pool.pool.Valid() && step.Send? && NextSend(s, step, t)
    requires s.listings[step.l].cookie.None?
    ensures Inv(dirs, t)
  {
    var l, c := step.l, s.listings[step.l];
    assert ListingOk(dirs, s.pool, s.holder, l, c);
    var ps := P.StartFresh(step.r, "", step.now, step.newId, step.id);
    P.StepKeepsInv(s.pool, ps, t.pool);
    if step.id.Some? {
      SentFresh(dirs, s.pool, t.pool, s.holder, l, c, step.r, step.continueOnError, step.now, step.newId,
          step.id.value);
    } else {
      assert t.pool == s.pool;
      NotSent(dirs, s.pool, s.holder, l, c, step.continueOnError, step.error, step.lost);
    }
    forall m | m in t.listings && m != l ensures ListingOk(dirs, t.pool, t.holder, m, t.listings[m]) {
      assert ListingOk(dirs, s.pool, s.holder, m, s.listings[m]);
      MarkedBystander(s.listings, ps, m);
      FreshBystander(dirs, s.pool, ps, t.pool, s.holder, t.holder, l, m, s.listings[m], t.listings[m]);
    }
  }

  /** No other listing that may use its cookie, or has a call under way, has the
      connection that a request without a cookie gets. */
  lemma FreshSpares(dirs: Dirs, s: P.State, holder: map<ConnId, ListingId>, m: ListingId, c: Listing, id: ConnId,
                    c': Listing)
    requires P.Inv(s) && ListingOk(dirs, s, holder, m, c) && (c.unsure ==> c'.stale)
    requires c'.cookie == c.cookie && c'.unsure == c.unsure
    requires id in s.place ==> s.place[id] == P.Resting
    ensures c.call.None? && Live(c') ==> id != c.conn
    ensures c.call.Some? ==> id != c.call.value.conn
  {
    if c.call.Some? {
      P.OwnConn(s, c.call.value.request);
    }
  }

  lemma GiveBackKeeps(dirs: Dirs, s: State, step: Step, t: State)
    requires Inv(dirs, s) && s.pool.pool.Valid() && step.ServePage? && NextServe(dirs, s, step, t)
    requires var k := s.listings[step.l].call.value;
             Respond(dirs, s.pool.pool.conns[k.conn], ArgOf(s.listings[step.l], k.continueOnError), step.env).GiveBack?
    ensures Inv(dirs, t)
  {
    var l, c := step.l, s.listings[step.l];
    assert ListingOk(dirs, s.pool, s.holder, l, c);
    Decided(dirs, s.pool, t.pool, s.holder, l, c, step.env);
    forall m | m in t.listings && m != l ensures ListingOk(dirs, t.pool, t.holder, m, t.listings[m]) {
      assert ListingOk(dirs, s.pool, s.holder, m, s.listings[m]);
    }
  }

  lemma ServeKeepsInv(dirs: Dirs, s: State, step: Step, t: State)
    requires Inv(dirs, s) && s.pool.pool.Valid() && step.ServePage? && NextServe(dirs, s, step, t)
    ensures Inv(dirs, t)
  {
    var l, c := step.l, s.listings[step.l];
    var k := c.call.value;
    var answer := Respond(dirs, s.pool.pool.conns[k.conn], ArgOf(c, k.continueOnError), step.env);
    if answer.GiveBack? {
      GiveBackKeeps(dirs, s, step, t);
    } else {
      assert ListingOk(dirs, s.pool, s.holder, l, c);
      var ps := if answer.KeepOpen? then P.LeaveOpen(k.request, answer.next, answer.count)
                else P.Work(k.request, s.pool.pool.conns[k.conn].cached, answer.dir);
      P.StepKeepsInv(s.pool, ps, t.pool);
      if answer.KeepOpen? {
        KeptOpen(dirs, s.pool, t.pool, s.holder, l, c, step.env, step.lost);
      } else {
        Decided(dirs, s.pool, t.pool, s.holder, l, c, step.env);
      }
      OthersKept(dirs, s, ps, t, l);
      Assembled(dirs, t, l);
    }
  }

  /** Two calls under way belong to different requests. */
  lemma DifferentRequests(dirs: Dirs, s: P.State, holder: map<ConnId, ListingId>, l: ListingId, c: Listing,
                          m: ListingId, d: Listing)
    requires ListingOk(dirs, s, holder, l, c) && ListingOk(dirs, s, holder, m, d) && l != m
    requires c.call.Some? && d.call.Some?
    ensures c.call.value.request != d.call.value.request
  {
  }

  /** A step of the call of a listing `c` keeps any other listing `d`. */
  lemma OtherKept(dirs: Dirs, s: P.State, ps: P.Step, t: P.State, holder: map<ConnId, ListingId>, l: ListingId,
                  c: Listing, m: ListingId, d: Listing)
    requires P.Inv(s) && s.pool.Valid() && P.Next(s, ps, t) && P.Inv(t)
    requires ListingOk(dirs, s, holder, l, c) && c.call.Some? && P.IsStepOf(ps, c.call.value.request)
    requires ListingOk(dirs, s, holder, m, d) && l != m
    ensures ListingOk(dirs, t, holder, m, d)
  {
    if d.call.Some? {
      DifferentRequests(dirs, s, holder, l, c, m, d);
    }
    BystanderKept(dirs, s, ps, t, holder, holder, m, d, d);
  }

  lemma OthersKept(dirs: Dirs, s: State, ps: P.Step, t: State, l: ListingId)
    requires Inv(dirs, s) && s.pool.pool.Valid() && P.Next(s.pool, ps, t.pool) && P.Inv(t.pool)
    requires l in s.listings && s.listings[l].call.Some? && P.IsStepOf(ps, s.listings[l].call.value.request)
    requires t.holder == s.holder
    requires l in t.listings && t.listings == s.listings[l := t.listings[l]]
    ensures forall m :: m in t.listings && m != l ==> ListingOk(dirs, t.pool, t.holder, m, t.listings[m])
  {
    forall m | m in t.listings && m != l ensures ListingOk(dirs, t.pool, t.holder, m, t.listings[m]) {
      OtherKept(dirs, s.pool, ps, t.pool, s.holder, l, s.listings[l], m, s.listings[m]);
    }
  }

  lemma WindUpKeeps(dirs: Dirs, s: State, step: Step, t: State)
    requires Inv(dirs, s) && s.pool.pool.Valid() && step.WindUp? && NextWindUp(s, step, t)
    ensures Inv(dirs, t)
  {
    var l, c := step.l, s.listings[step.l];
    assert ListingOk(dirs, s.pool, s.holder, l, c);
    P.StepKeepsInv(s.pool, step.step, t.pool);
    WoundUp(dirs, s.pool, step.step, t.pool, s.holder, l, c, step.lost);
    OthersKept(dirs, s, step.step, t, l);
    Assembled(dirs, t, l);
  }

  lemma OtherKeeps(dirs: Dirs, s: State, step: Step, t: State)
    requires Inv(dirs, s) && s.pool.pool.Valid() && step.Other? && NextOther(s, step, t)
    ensures Inv(dirs, t)
  {
    P.StepKeepsInv(s.pool, step.step, t.pool);
    forall m | m in t.listings ensures ListingOk(dirs, t.pool, t.holder, m, t.listings[m]) {
      assert ListingOk(dirs, s.pool, s.holder, m, s.listings[m]);
      BystanderKept(dirs, s.pool, step.step, t.pool, s.holder, t.holder, m, s.listings[m], t.listings[m]);
    }
  }

  lemma StepKeepsInv(dirs: Dirs, s: State, step: Step, t: State)
    requires Inv(dirs, s) && s.pool.pool.Valid() && Next(dirs, s, step, t) && Careful(s, step)
    ensures Inv(dirs, t)
  {
    match step {
      case Begin(l, _, _) =>
        forall m | m in t.listings && m != l ensures ListingOk(dirs, t.pool, t.holder, m, t.listings[m]) {
          assert ListingOk(dirs, s.pool, s.holder, m, s.listings[m]);
        }
      case Send(l, _, _, _, _, _, _, _) =>
        if s.listings[l].cookie.Some? {
          SendCookieKeeps(dirs, s, step, t);
        } else {
          SendFreshKeeps(dirs, s, step, t);
        }
      case ServePage(_, _, _) => ServeKeepsInv(dirs, s, step, t);
      case WindUp(_, _, _) => WindUpKeeps(dirs, s, step, t);
      case Other(_) => OtherKeeps(dirs, s, step, t);
    }
  }

  // ---- Runs ----

  const START: State := State(P.START, map[], map[])

  ghost predicate IsRun(dirs: Dirs, run: seq<State>, steps: seq<Step>) {
    && |run| == |steps| + 1 && run[0] == START
    && forall i :: 0 <= i < |steps| ==> run[i].pool.pool.Valid() && Next(dirs, run[i], steps[i], run[i + 1])
  }

  ghost predicate IsCareful(run: seq<State>, steps: seq<Step>) {
    |run| == |steps| + 1 && forall i :: 0 <= i < |steps| ==> Careful(run[i], steps[i])
  }

  lemma {:induction false} InvInRuns(dirs: Dirs, run: seq<State>, steps: seq<Step>, n: nat)
    requires IsRun(dirs, run, steps) && IsCareful(run, steps) && n < |run|
    ensures Inv(dirs, run[n])
  {
    if n > 0 {
      InvInRuns(dirs, run, steps, n - 1);
      StepKeepsInv(dirs, run[n - 1], steps[n - 1], run[n]);
    }
  }

  /** At every moment of every run with careful clients, and for every listing, the
      pages accepted since the last start make up the visible part of a prefix of
      the directory: no child is lost and none is repeated. */
  lemma NoChildLostOrRepeated(dirs: Dirs, run: seq<State>, steps: seq<Step>, n: nat, l: ListingId)
    requires IsRun(dirs, run, steps) && IsCareful(run, steps) && n < |run| && l in run[n].listings
    ensures var c := run[n].listings[l];
            if c.done || c.cookie.Some? then
              && c.path in dirs && 0 <= Received(dirs, c) <= |dirs[c.path]|
              && c.accepted == Visible(dirs[c.path][..Received(dirs, c)], c.path, c.skip)
            else c.accepted == []
  {
    InvInRuns(dirs, run, steps, n);
    assert ListingOk(dirs, run[n].pool, run[n].holder, l, run[n].listings[l]);
  }

  /** Whenever a listing takes a reply with no cookie and no error of either kind, it
      has the whole directory. */
  lemma LastPageCompletesListing(dirs: Dirs, run: seq<State>, steps: seq<Step>, n: nat, l: ListingId)
    requires IsRun(dirs, run, steps) && IsCareful(run, steps) && n < |run| && l in run[n].listings
    requires run[n].listings[l].done
    ensures var c := run[n].listings[l]; c.path in dirs && c.accepted == Visible(dirs[c.path], c.path, c.skip)
  {
    NoChildLostOrRepeated(dirs, run, steps, n, l);
    var c := run[n].listings[l];
    InvInRuns(dirs, run, steps, n);
    assert dirs[c.path][..|dirs[c.path]|] == dirs[c.path];
  }

  /** Sending a cookie again finds a connection if and only if nothing was lost: the
      cookie's connection is still open at exactly the cookie's count of this
      listing. Otherwise the client is told to retry from the beginning. */
  lemma LostPageIsDetected(dirs: Dirs, run: seq<State>, steps: seq<Step>, n: nat, l: ListingId, now: int)
    requires IsRun(dirs, run, steps) && IsCareful(run, steps) && n < |run| && l in run[n].listings
    requires Live(run[n].listings[l]) && run[n].listings[l].call.None?
    ensures run[n].pool.pool.Valid()
    ensures var s, c := run[n].pool, run[n].listings[l];
            var k := c.cookie.value;
            Resume(s.pool, k.created, k.fetched, now).1.Some? <==>
            (&& c.conn in s.place && c.conn in s.pool.conns && s.place[c.conn] == P.Open
             && CallReady(c, s.pool.conns[c.conn]))
  {
    InvInRuns(dirs, run, steps, n);
    var s, c := run[n], run[n].listings[l];
    P.InvIsValid(s.pool);
    assert ListingOk(dirs, s.pool, s.holder, l, c);
    LiveCookieIsOpen(dirs, s.pool, c);
  }

  // ---- What a cookie does not say ----

  /** The reply continues the listing that the call names, from `from` on. */
  ghost predicate Continues(dirs: Dirs, arg: Arg, from: int, reply: Reply) {
    && arg.path in dirs
    && var names := dirs[arg.path];
    && 0 <= from <= ReachOf(reply, |names|) <= |names|
    && Names(reply.children) == Visible(names[from..ReachOf(reply, |names|)], arg.path, arg.skip)
  }

  /** A cookie names a connection and a count, not a directory: a call that finds an
      open connection at its count continues its own listing, whatever is on the
      share and whatever happens, if and only if the open listing is of the same
      path. */
  lemma CookieContinuesIff(c: Conn, cursor: Cursor, arg: Arg)
    requires c.dir == Some(cursor) && c.fetched == cursor.position
    ensures (forall dirs, env :: CursorOk(dirs, cursor, c.fetched) && NoErrors(Respond(dirs, c, arg, env).reply)
               ==> Continues(dirs, arg, c.fetched, Respond(dirs, c, arg, env).reply))
            <==> cursor.path == arg.path
  {
    if cursor.path == arg.path {
      forall dirs, env | CursorOk(dirs, cursor, c.fetched) && NoErrors(Respond(dirs, c, arg, env).reply)
        ensures Continues(dirs, arg, c.fetched, Respond(dirs, c, arg, env).reply)
      {
        ServeReplies(dirs, c, arg, env);
      }
    } else {
      var names := seq(cursor.position, i => "");
      var dirs: Dirs := map[cursor.path := names];
      var env := Env(0, 0, None, true, None, 0, true, {}, 0);
      assert names[cursor.position..cursor.position] == [];
      assert CursorOk(dirs, cursor, c.fetched) && NoErrors(Respond(dirs, c, arg, env).reply);
      assert !Continues(dirs, arg, c.fetched, Respond(dirs, c, arg, env).reply);
    }
  }
}
