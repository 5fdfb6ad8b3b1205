/** Listing a directory page by page. A page that leaves the listing open comes
    with a cookie: the connection's creation time and the number of children
    fetched so far. The share's directories are stable while they are listed. */
module Paging {
  import opened Status
  import opened Collections
  import opened ConnectionPool

  type Dirs = map<string, seq<string>>

  datatype Cookie = Cookie(created: int, fetched: int)

  datatype Arg = Arg(path: string, skip: set<string>, cookie: Option<Cookie>, continueOnError: bool)

  /** A child in a reply; `failed` if its own metadata could not be read. */
  datatype Child = Child(name: string, failed: bool)

  datatype Reply = Reply(children: seq<Child>, cookie: Option<Cookie>, error: Error, dirError: Error)

  /** What happens around one call: the clock, the failure of a new connection,
      of the memory context or of the listing, the number of names the server
      sends, whether it tells the end as soon as it is reached, and the children
      whose metadata cannot be read. */
  datatype Env = Env(now: int, newId: ConnId, noConnection: Option<uint32>, haveMemory: bool,
                     listFailure: Option<uint32>, count: nat, tellsEnd: bool, bad: set<nat>, badStatus: uint32)

  predicate Skipped(arg: Arg, name: string) { arg.path + "/" + name in arg.skip }

  /** The children reported for a page from index `i` on, and whether reporting
      stopped at one that failed. */
  function Collect(page: seq<string>, arg: Arg, bad: set<nat>, i: nat): (seq<Child>, bool)
    decreases |page| - i
  {
    if i >= |page| then ([], false)
    else if Skipped(arg, page[i]) then Collect(page, arg, bad, i + 1)
    else if i in bad && !arg.continueOnError then ([Child(page[i], true)], true)
    else
      var (rest, stopped) := Collect(page, arg, bad, i + 1);
      ([Child(page[i], i in bad)] + rest, stopped)
  }

  /** The places in order. */
  ghost predicate Ascending(at: seq<nat>, i: nat, n: nat) {
    && (forall j :: 0 <= j < |at| ==> i <= at[j] < n)
    && (forall j, k :: 0 <= j < k < |at| ==> at[j] < at[k])
  }

  /** What a page reports from `i` on: up to `n`, where reporting stopped or the page
      ends, exactly the children at the places `at`: those whose paths are not to be
      skipped, each marked if its own metadata could not be read. Only the last of them
      can be one that stops the reporting. */
  ghost predicate Reported(page: seq<string>, arg: Arg, bad: set<nat>, i: nat, n: nat, at: seq<nat>,
                           children: seq<Child>, stopped: bool) {
    && i <= n <= |page| && Ascending(at, i, n)
    && (forall k :: i <= k < n ==> (k in at <==> arg.path + "/" + page[k] !in arg.skip))
    && |children| == |at|
    && (forall j :: 0 <= j < |at| ==> children[j] == Child(page[at[j]], at[j] in bad))
    && (if stopped then n - 1 in at && n - 1 in bad && !arg.continueOnError else n == |page|)
    && (!arg.continueOnError ==> forall k :: k in at && k in bad ==> stopped && k == n - 1)
  }

  lemma ReportSkipped(page: seq<string>, arg: Arg, bad: set<nat>, i: nat, n: nat, at: seq<nat>, rest: seq<Child>,
                      stopped: bool)
    requires i < |page| && Skipped(arg, page[i]) && Reported(page, arg, bad, i + 1, n, at, rest, stopped)
    ensures Reported(page, arg, bad, i, n, at, rest, stopped)
  {
  }

  lemma ReportOneMore(page: seq<string>, arg: Arg, bad: set<nat>, i: nat, n: nat, at: seq<nat>, rest: seq<Child>,
                      stopped: bool)
    requires i < |page| && !Skipped(arg, page[i]) && (i in bad ==> arg.continueOnError)
    requires Reported(page, arg, bad, i + 1, n, at, rest, stopped)
    ensures Reported(page, arg, bad, i, n, [i] + at, [Child(page[i], i in bad)] + rest, stopped)
  {
    var at', children := [i] + at, [Child(page[i], i in bad)] + rest;
    forall j, k | 0 <= j < k < |at'| ensures at'[j] < at'[k] {
      assert at'[k] == at[k - 1] && (j > 0 ==> at'[j] == at[j - 1]);
    }
    assert forall k :: k in at' <==> k == i || k in at;
  }

  lemma {:induction false} CollectReports(page: seq<string>, arg: Arg, bad: set<nat>, i: nat)
    returns (n: nat, at: seq<nat>)
    requires i <= |page|
    ensures var (children, stopped) := Collect(page, arg, bad, i);
            Reported(page, arg, bad, i, n, at, children, stopped)
    decreases |page| - i
  {
    if i == |page| {
      n, at := i, [];
    } else if !Skipped(arg, page[i]) && i in bad && !arg.continueOnError {
      n, at := i + 1, [i];
    } else {
      n, at := CollectReports(page, arg, bad, i + 1);
      var (rest, stopped) := Collect(page, arg, bad, i + 1);
      if Skipped(arg, page[i]) {
        ReportSkipped(page, arg, bad, i, n, at, rest, stopped);
      } else {
        ReportOneMore(page, arg, bad, i, n, at, rest, stopped);
        at := [i] + at;
      }
    }
  }

  function Failure(arg: Arg, error: Error): Reply {
    Reply([], None, if arg.continueOnError then NoError else error, error)
  }

  /** The reply when there is no connection: a retry is never reported as an
      error of the directory. */
  function NoConnection(arg: Arg, error: Error): Reply {
    Reply([], None, if !arg.continueOnError || error == Retry then error else NoError,
          if error != Retry then error else NoError)
  }

  /** Where the listing is: at the open handle, or at the beginning. */
  function Position(c: Conn, arg: Arg): Cursor {
    c.dir.UnwrapOr(Cursor(arg.path, 0))
  }

  function ListStatus(dirs: Dirs, cursor: Cursor, env: Env): Option<uint32> {
    if env.listFailure.Some? then env.listFailure
    else if cursor.path !in dirs then Some(OBJECT_NAME_NOT_FOUND) else None
  }

  function PageStart(names: seq<string>, cursor: Cursor): (n: nat)
    ensures n <= |names|
  {
    Min(cursor.position, |names|)
  }

  function PageEnd(names: seq<string>, cursor: Cursor, env: Env): (n: nat)
    ensures PageStart(names, cursor) <= n <= |names|
  {
    Min(PageStart(names, cursor) + env.count, |names|)
  }

  /** What becomes of the connection, and the reply: the listing stays open at
      `next`, or the connection is given back, or it is shut down and dropped. */
  datatype Answer =
    | KeepOpen(next: Cursor, count: nat, reply: Reply)
    | GiveBack(reply: Reply)
    | Drop(dir: Option<Cursor>, reply: Reply)

  /** The decision of one call on connection `c`. */
  function Respond(dirs: Dirs, c: Conn, arg: Arg, env: Env): Answer {
    var cursor := Position(c, arg);
    var failed := ListStatus(dirs, cursor, env);
    if !env.haveMemory then GiveBack(Failure(arg, Invalid))
    else if failed.Some? then
      var error := FromSmbErrorMessage(failed.value);
      if IsConnectionUnusable(failed.value) then Drop(c.dir, Reply([], None, error, NoError))
      else GiveBack(Failure(arg, error))
    else
      var names := dirs[cursor.path];
      var from, to := PageStart(names, cursor), PageEnd(names, cursor, env);
      var (children, stopped) := Collect(names[from..to], arg, env.bad, 0);
      var ended := to == |names| && env.tellsEnd;
      var next := Cursor(cursor.path, to);
      if stopped then
        var reply := Reply(children, None, FromSmbErrorMessage(env.badStatus), NoError);
        if ended then GiveBack(reply) else Drop(Some(next), reply)
      else if ended then GiveBack(Reply(children, None, NoError, NoError))
      else KeepOpen(next, to - from, Reply(children, Some(Cookie(c.created, c.fetched + (to - from))), NoError,
          NoError))
  }

  function SetDir(p: Pool, id: ConnId, dir: Option<Cursor>, fetched: int): Pool
    requires id in p.conns
  {
    p.(conns := p.conns[id := p.conns[id].(dir := dir, fetched := fetched)])
  }

  function Dispose(p: Pool, id: ConnId, answer: Answer, now: int): Pool
    requires id in p.conns
  {
    match answer
    case KeepOpen(next, count, _) => SetDir(p, id, Some(next), p.conns[id].fetched + count)
    case GiveBack(_) => Release(p, id, true, now)
    case Drop(dir, _) => Release(Shutdown(SetDir(p, id, dir, p.conns[id].fetched), id), id, false, now)
  }

  /** What the caller can tell from the reply about the connection: a cookie means
      that it is still active, at the count of the cookie; no cookie means that it
      is no longer active: it waits, clean, at the end of the inactive list, or it
      is shut down and in no list, which happens only together with an error. No
      other connection is touched. */
  lemma ReplyTellsConnection(dirs: Dirs, p: Pool, id: ConnId, arg: Arg, env: Env)
    requires id in p.conns && p.conns[id].created in p.active && p.active[p.conns[id].created] == id
    requires id !in p.inactive && !p.conns[id].shut
    ensures var c := p.conns[id];
            var answer := Respond(dirs, c, arg, env);
            var q, reply := Dispose(p, id, answer, env.now), answer.reply;
            && id in q.conns && q.conns[id].created == c.created
            && (forall x :: x in p.conns && x != id ==> x in q.conns && q.conns[x] == p.conns[x])
            && (forall k :: k in p.active && k != c.created ==> k in q.active && q.active[k] == p.active[k])
            && (reply.cookie.Some? ==>
                  && reply.error.Ok() && reply.dirError.Ok() && q.active == p.active && q.inactive == p.inactive
                  && !q.conns[id].shut && reply.cookie.value == Cookie(c.created, q.conns[id].fetched))
            && (reply.cookie.None? ==> c.created !in q.active && q.conns[id].dir == None && q.conns[id].fetched == 0)
            && (reply.cookie.None? && q.conns[id].shut ==> id !in q.inactive && !reply.error.Ok())
            && (reply.cookie.None? && !q.conns[id].shut ==> q.inactive == p.inactive + [id])
  {
  }

  // ---- What a call that fails tells, and what becomes of its connection ----

  /** Nothing but connection `id` and its active entry differs. */
  ghost predicate OnlyAbout(p: Pool, q: Pool, id: ConnId) {
    && q.conns.Keys == p.conns.Keys && id in p.conns
    && (forall x :: x in p.conns && x != id ==> q.conns[x] == p.conns[x])
    && q.active == p.active - {p.conns[id].created}
    && q.conns[id].created == p.conns[id].created && q.conns[id].dir == None && q.conns[id].fetched == 0
  }

  /** The connection is shut and in no list. */
  ghost predicate Dropped(p: Pool, q: Pool, id: ConnId) {
    OnlyAbout(p, q, id) && q.conns[id].shut && q.conns[id].cached == {} && q.inactive == p.inactive
  }

  /** The connection waits, clean, to be used again. */
  ghost predicate Returned(p: Pool, q: Pool, id: ConnId, now: int) {
    && OnlyAbout(p, q, id) && q.conns[id].shut == p.conns[id].shut && q.conns[id].cached == p.conns[id].cached
    && q.conns[id].access == now && q.inactive == p.inactive + [id]
  }

  /** No directory could be listed: why, if there was a connection. */
  ghost function ListingError(dirs: Dirs, c: Conn, arg: Arg, env: Env): Option<Error> {
    if !env.haveMemory then Some(Invalid)
    else if env.listFailure.Some? then Some(FromSmbErrorMessage(env.listFailure.value))
    else if (if c.dir.Some? then c.dir.value.path else arg.path) !in dirs then Some(NonExistent)
    else None
  }

  /** A call that could not list: a connection found unusable is dropped and the client
      has to start again; on any other failure the connection is given back and the
      error is that of the directory, and of the call unless it is to go on. */
  ghost predicate FailureTold(e: Error, p: Pool, q: Pool, id: ConnId, arg: Arg, now: int, reply: Reply) {
    && reply.children == [] && reply.cookie == None
    && (if e == Retry then reply.error == Retry && reply.dirError.Ok() && Dropped(p, q, id)
        else
          && reply.dirError == e && reply.error == (if arg.continueOnError then NoError else e)
          && Returned(p, q, id, now))
  }

  /** A call without a connection: an error that asks for a retry is always the call's
      and never the directory's. */
  ghost predicate NoConnectionTold(arg: Arg, env: Env, reply: Reply) {
    && reply.children == [] && reply.cookie == None
    && (arg.cookie.Some? ==> reply.error == Retry && reply.dirError.Ok())
    && (arg.cookie.None? && env.noConnection.Some? ==>
          var e := FromSmbErrorMessage(env.noConnection.value);
          if IsConnectionUnusable(env.noConnection.value) then reply.error == Retry && reply.dirError.Ok()
          else reply.dirError == e && reply.error == (if arg.continueOnError then NoError else e))
  }

  /** A child that cannot be read ends the call; only a listing that was at its end
      leaves the connection usable. */
  ghost predicate StopTold(dirs: Dirs, p: Pool, q: Pool, id: ConnId, arg: Arg, env: Env, reply: Reply)
    requires id in p.conns
  {
    !arg.continueOnError && ListingError(dirs, p.conns[id], arg, env).None?
      && (exists c :: c in reply.children && c.failed) ==>
      && reply.cookie == None && reply.error == FromSmbErrorMessage(env.badStatus) && reply.dirError.Ok()
      && (Returned(p, q, id, env.now) || Dropped(p, q, id))
      && (var cursor := Position(p.conns[id], arg);
          var size := |dirs[cursor.path]|;
          Returned(p, q, id, env.now) <==>
          env.tellsEnd && (cursor.position >= size || cursor.position + env.count >= size))
  }

  lemma ListingErrorTold(dirs: Dirs, p: Pool, id: ConnId, arg: Arg, env: Env)
    requires id in p.conns && ListingError(dirs, p.conns[id], arg, env).Some?
    ensures var answer := Respond(dirs, p.conns[id], arg, env);
            FailureTold(ListingError(dirs, p.conns[id], arg, env).value, p, Dispose(p, id, answer, env.now), id, arg,
                        env.now, answer.reply)
  {
  }

  lemma UnreadableChildTold(dirs: Dirs, p: Pool, id: ConnId, arg: Arg, env: Env)
    requires id in p.conns
    ensures var answer := Respond(dirs, p.conns[id], arg, env);
            StopTold(dirs, p, Dispose(p, id, answer, env.now), id, arg, env, answer.reply)
  {
    var cursor := Position(p.conns[id], arg);
    if ListingError(dirs, p.conns[id], arg, env).None? {
      var names := dirs[cursor.path];
      var page := names[PageStart(names, cursor)..PageEnd(names, cursor, env)];
      var n, at := CollectReports(page, arg, env.bad, 0);
    }
  }

  /** How a call gets its connection: `id`, or None with an error. */
  ghost predicate Acquired(p: Pool, q: Pool, arg: Arg, env: Env, id: Option<ConnId>)
    requires p.Valid()
  {
    match arg.cookie
    case None => Obtained(p, q, "", env.now, env.newId, id)
    case Some(c) => (q, id) == Resume(p, c.created, c.fetched, env.now)
  }

  function AcquireError(arg: Arg, env: Env): Error {
    if arg.cookie.Some? || env.noConnection.None? then Retry else FromSmbErrorMessage(env.noConnection.value)
  }

  /** One whole call; `mid` is the pool once the connection is held. */
  ghost predicate Called(dirs: Dirs, p: Pool, arg: Arg, env: Env, mid: Pool, id: Option<ConnId>, q: Pool, reply: Reply)
    requires p.Valid()
  {
    && Acquired(p, mid, arg, env, id)
    && (match id
        case None => q == mid && reply == NoConnection(arg, AcquireError(arg, env))
        case Some(c) =>
          && c in mid.conns
          && var answer := Respond(dirs, mid.conns[c], arg, env);
          && q == Dispose(mid, c, answer, env.now) && reply == answer.reply)
  }

  /** The loop over the names of a page. */
  method CollectPage(page: seq<string>, arg: Arg, bad: set<nat>) returns (children: seq<Child>, stopped: bool)
    ensures (children, stopped) == Collect(page, arg, bad, 0)
  {
    children, stopped := [], false;
    for i := 0 to |page|
      invariant !stopped
      invariant children + Collect(page, arg, bad, i).0 == Collect(page, arg, bad, 0).0
      invariant Collect(page, arg, bad, i).1 == Collect(page, arg, bad, 0).1
    {
      if Skipped(arg, page[i]) {
        continue;
      }
      ghost var rest := Collect(page, arg, bad, i).0;
      assert children + rest == children + [rest[0]] + rest[1..];
      children := children + [Child(page[i], i in bad)];
      if i in bad && !arg.continueOnError {
        return children, true;
      }
    }
    assert children + [] == children;
  }

  method FetchChildrenMetadata(entry: TaskCacheEntry, dirs: Dirs, arg: Arg, env: Env)
    returns (reply: Reply, ghost mid: Pool, ghost got: Option<ConnId>)
    requires entry.State().Valid() && env.newId !in entry.conns
    requires arg.cookie.Some? ==> arg.cookie.value.created != NO_COOKIE
    modifies entry
    ensures Called(dirs, old(entry.State()), arg, env, mid, got, entry.State(), reply)
    ensures got.None? ==> NoConnectionTold(arg, env, reply) && (arg.cookie.None? ==> env.noConnection.Some?)
    ensures got.Some? ==>
              var e := ListingError(dirs, mid.conns[got.value], arg, env);
              && (e.Some? ==> FailureTold(e.value, mid, entry.State(), got.value, arg, env.now, reply))
              && StopTold(dirs, mid, entry.State(), got.value, arg, env, reply)
  {
    var created, fetched := NO_COOKIE, 0;
    if arg.cookie.Some? {
      created, fetched := arg.cookie.value.created, arg.cookie.value.fetched;
    }
    var id, error := entry.GetOrCreateSmbConnection("", created, fetched, env.now, env.noConnection, env.newId);
    mid, got := entry.State(), id;
    if id.None? {
      reply := NoConnection(arg, error);
      return;
    }
    var c := id.value;
    if ListingError(dirs, mid.conns[c], arg, env).Some? {
      ListingErrorTold(dirs, mid, c, arg, env);
    }
    UnreadableChildTold(dirs, mid, c, arg, env);
    reply := Serving(entry, c, dirs, arg, env);
  }

  lemma SameDir(p: Pool, id: ConnId)
    requires id in p.conns
    ensures SetDir(p, id, p.conns[id].dir, p.conns[id].fetched) == p
  {
    assert p.conns[id := p.conns[id]] == p.conns;
  }

  method Dropping(entry: TaskCacheEntry, id: ConnId, now: int)
    requires id in entry.conns
    modifies entry
    ensures entry.State() == Release(Shutdown(old(entry.State()), id), id, false, now)
  {
    entry.ShutdownSmbConnection(id);
    entry.ReleaseSmbConnection(id, false, now);
  }

  /** Lists, collects and gives the connection its further fate. */
  method Serving(entry: TaskCacheEntry, id: ConnId, dirs: Dirs, arg: Arg, env: Env) returns (reply: Reply)
    requires id in entry.conns
    modifies entry
    ensures var answer := Respond(dirs, old(entry.conns)[id], arg, env);
            entry.State() == Dispose(old(entry.State()), id, answer, env.now) && reply == answer.reply
  {
    if !env.haveMemory {
      entry.ReleaseSmbConnection(id, true, env.now);
      return Failure(arg, Invalid);
    }
    var conn := entry.conns[id];
    var cursor := conn.dir.UnwrapOr(Cursor(arg.path, 0));
    var failed := ListStatus(dirs, cursor, env);
    if failed.Some? {
      var error := FromSmbErrorMessage(failed.value);
      if IsConnectionUnusable(failed.value) {
        SameDir(entry.State(), id);
        Dropping(entry, id, env.now);
        return Reply([], None, error, NoError);
      }
      entry.ReleaseSmbConnection(id, true, env.now);
      return Failure(arg, error);
    }
    var names := dirs[cursor.path];
    var from, to := PageStart(names, cursor), PageEnd(names, cursor, env);
    var children, stopped := CollectPage(names[from..to], arg, env.bad);
    var ended := to == |names| && env.tellsEnd;
    if stopped {
      if ended {
        entry.ReleaseSmbConnection(id, true, env.now);
      } else {
        entry.conns := entry.conns[id := conn.(dir := Some(Cursor(cursor.path, to)))];
        Dropping(entry, id, env.now);
      }
      return Reply(children, None, FromSmbErrorMessage(env.badStatus), NoError);
    }
    if ended {
      entry.ReleaseSmbConnection(id, true, env.now);
      return Reply(children, None, NoError, NoError);
    }
    var fetched := conn.fetched + (to - from);
    entry.conns := entry.conns[id := conn.(dir := Some(Cursor(cursor.path, to)), fetched := fetched)];
    return Reply(children, Some(Cookie(conn.created, fetched)), NoError, NoError);
  }
}
