/** Runs of PagingRuns whose client sends a cookie again although a request without a
    cookie has been sent since: in one it takes another directory's child for its own,
    in the other it shuts a connection down under another request. */
module CarelessPaging {
  import opened Status
  import opened ConnectionPool
  import opened Paging
  import opened PagingRuns
  import P = PoolRuns

  const TWO_DIRS: Dirs := map["/a" := ["x", "y"], "/b" := ["u", "v"]]

  /** Times do not matter here: everything happens at 7. */
  const ONE_MORE := Env(7, 0, None, true, None, 1, false, {}, 0)
  const ONE_LAST := Env(7, 0, None, true, None, 1, true, {}, 0)

  /** A pool with one connection. */
  ghost function OneConn(dir: Option<Cursor>, fetched: int, place: P.Place, stage: P.Stage): P.State {
    P.State(Pool(if place == P.Resting then map[] else map[7 := 0], if place == P.Resting then [0] else [],
                 map[0 := Conn(7, 7, dir, fetched, {}, false)]),
            if place.Busy? then map[place.request := P.Job(0, stage)] else map[],
            map[0 := place])
  }

  ghost function At(path: string): Option<Cursor> { Some(Cursor(path, 1)) }

  ghost function Calling(c: Listing, r: P.RequestId): Listing {
    c.(call := Some(Call(r, 0, false, None)), stale := false)
  }

  ghost function Deciding(c: Listing, r: P.RequestId, name: string): Listing {
    c.(call := Some(Call(r, 0, false, Some(Pending(Reply([Child(name, false)], None, NoError, NoError), false)))),
        stale := false)
  }

  ghost function HalfWay(path: string, name: string): Listing {
    Listing(path, {}, Some(Cookie(7, 1)), [name], false, false, false, 0, None)
  }

  /** Listing 0 has lost its last reply. */
  ghost function Unsure(stale: bool): Listing { HalfWay("/a", "x").(unsure := true, stale := stale) }

  ghost function SendOf(l: ListingId, r: P.RequestId, newId: ConnId): Step {
    Send(l, r, false, 7, newId, Some(0), Retry, false)
  }

  // The states of the runs. At first "/a" alone is listed.

  ghost function Begun(): State { State(P.START, map[0 := Fresh("/a", {})], map[]) }

  ghost function Sent(): State {
    State(OneConn(None, 0, P.Busy(0), P.Using), map[0 := Calling(Fresh("/a", {}), 0)], map[0 := 0])
  }

  ghost function Half(): State {
    State(OneConn(At("/a"), 1, P.Open, P.Using), map[0 := HalfWay("/a", "x")], map[0 := 0])
  }

  ghost function Resumed(): State {
    State(OneConn(At("/a"), 1, P.Busy(0), P.Using), map[0 := Calling(HalfWay("/a", "x"), 0)], map[0 := 0])
  }

  ghost function Ended(dir: Option<Cursor>, fetched: int, stage: P.Stage): State {
    State(OneConn(dir, fetched, P.Busy(0), stage), map[0 := Deciding(HalfWay("/a", "x"), 0, "y")], map[0 := 0])
  }

  ghost function Lost(): State {
    State(OneConn(None, 0, P.Resting, P.Using), map[0 := Unsure(false)], map[0 := 0])
  }

  // From here on there is a second listing, of "/b".

  ghost function With(pool: P.State, a: Listing, b: Listing, holder: ListingId): State {
    State(pool, map[0 := a, 1 := b], map[0 := holder])
  }

  ghost function BegunB(): State {
    With(OneConn(None, 0, P.Resting, P.Using), Unsure(false), Fresh("/b", {}), 0)
  }

  ghost function SentB(): State {
    With(OneConn(None, 0, P.Busy(1), P.Using), Unsure(true), Calling(Fresh("/b", {}), 1), 1)
  }

  ghost function HalfB(): State {
    With(OneConn(At("/b"), 1, P.Open, P.Using), Unsure(true), HalfWay("/b", "u"), 1)
  }

  ghost function Confused(): State {
    With(OneConn(At("/b"), 1, P.Busy(0), P.Using), Calling(Unsure(true), 0), HalfWay("/b", "u"), 0)
  }

  ghost function EndedB(dir: Option<Cursor>, fetched: int, stage: P.Stage): State {
    With(OneConn(dir, fetched, P.Busy(0), stage), Deciding(Unsure(true), 0, "v"), HalfWay("/b", "u"), 0)
  }

  ghost function Misled(): State {
    With(OneConn(None, 0, P.Resting, P.Using), Listing("/a", {}, None, ["x", "v"], true, false, false, 0, None),
         HalfWay("/b", "u"), 0)
  }

  ghost predicate Moves(s: State, step: Step, t: State) {
    s.pool.pool.Valid() && Next(TWO_DIRS, s, step, t)
  }

  lemma CollectOne(name: string, path: string, cookie: Option<Cookie>)
    ensures Collect([name], Arg(path, {}, cookie, false), {}, 0) == ([Child(name, false)], false)
  {
    assert Collect([name], Arg(path, {}, cookie, false), {}, 1) == ([], false);
    assert [Child(name, false)] + [] == [Child(name, false)];
  }

  /** The first page, of one name. */
  lemma RespondMore(path: string, name: string)
    requires path in TWO_DIRS && |TWO_DIRS[path]| == 2 && TWO_DIRS[path][0] == name
    ensures Respond(TWO_DIRS, Conn(7, 7, None, 0, {}, false), Arg(path, {}, None, false), ONE_MORE)
         == KeepOpen(Cursor(path, 1), 1, Reply([Child(name, false)], Some(Cookie(7, 1)), NoError, NoError))
  {
    assert TWO_DIRS[path][0..1] == [name];
    CollectOne(name, path, None);
  }

  /** The last page, whatever path the call names. */
  lemma RespondLast(open: string, path: string, name: string)
    requires open in TWO_DIRS && |TWO_DIRS[open]| == 2 && TWO_DIRS[open][1] == name
    ensures Respond(TWO_DIRS, Conn(7, 7, At(open), 1, {}, false), Arg(path, {}, Some(Cookie(7, 1)), false), ONE_LAST)
         == GiveBack(Reply([Child(name, false)], None, NoError, NoError))
  {
    assert TWO_DIRS[open][1..2] == [name];
    CollectOne(name, path, Some(Cookie(7, 1)));
  }

  lemma FirstBegin()
    ensures Moves(START, Begin(0, "/a", {}), Begun())
  {
  }

  lemma FirstSend()
    ensures Moves(Begun(), SendOf(0, 0, 0), Sent())
  {
    assert MarkStale(Begun().listings) == Begun().listings;
  }

  lemma NamesOne(name: string)
    ensures Names([Child(name, false)]) == [name]
  {
  }

  lemma LeaveStep(r: P.RequestId, path: string)
    ensures var s := OneConn(None, 0, P.Busy(r), P.Using);
            && s.pool.Valid()
            && P.Next(s, P.LeaveOpen(r, Cursor(path, 1), 1), OneConn(At(path), 1, P.Open, P.Using))
  {
  }

  lemma AcceptFirst(path: string, name: string, r: P.RequestId)
    ensures Accept(Calling(Fresh(path, {}), r), Reply([Child(name, false)], Some(Cookie(7, 1)), NoError, NoError), 0)
         == HalfWay(path, name)
  {
    NamesOne(name);
    assert [] + [name] == [name];
  }

  lemma FirstPage()
    ensures Moves(Sent(), ServePage(0, ONE_MORE, false), Half())
  {
    RespondMore("/a", "x");
    LeaveStep(0, "/a");
    AcceptFirst("/a", "x", 0);
  }

  /** A cookie at the right count, whatever is being listed. */
  lemma ResumeStep(path: string)
    ensures var s := OneConn(At(path), 1, P.Open, P.Using);
            && s.pool.Valid() && Resume(s.pool, 7, 1, 7).1 == Some(0)
            && P.CookieCall(s, 0, 7, 1, 7, OneConn(At(path), 1, P.Busy(0), P.Using))
  {
  }

  lemma FirstResume()
    ensures Moves(Half(), SendOf(0, 0, 0), Resumed())
  {
    ResumeStep("/a");
  }

  lemma FirstLastPage()
    ensures Moves(Resumed(), ServePage(0, ONE_LAST, false), Ended(At("/a"), 1, P.Using))
  {
    RespondLast("/a", "/a", "y");
  }

  lemma BeginReleaseStep(path: string)
    ensures var s := OneConn(At(path), 1, P.Busy(0), P.Using);
            && s.pool.Valid()
            && P.Next(s, P.BeginRelease(0), OneConn(None, 0, P.Busy(0), P.Leaving(true)))
  {
  }

  lemma EndReleaseStep()
    ensures var s := OneConn(None, 0, P.Busy(0), P.Leaving(true));
            && s.pool.Valid()
            && P.Next(s, P.EndRelease(0, 7), OneConn(None, 0, P.Resting, P.Using))
  {
  }

  lemma FirstRelease()
    ensures Moves(Ended(At("/a"), 1, P.Using), WindUp(0, P.BeginRelease(0), false), Ended(None, 0, P.Leaving(true)))
  {
    BeginReleaseStep("/a");
  }

  lemma FirstLost()
    ensures Moves(Ended(None, 0, P.Leaving(true)), WindUp(0, P.EndRelease(0, 7), true), Lost())
  {
    EndReleaseStep();
  }

  lemma SecondBegin()
    ensures Moves(Lost(), Begin(1, "/b", {}), BegunB())
  {
  }

  lemma ReuseStep()
    ensures var s := OneConn(None, 0, P.Resting, P.Using);
            && s.pool.Valid()
            && P.Next(s, P.StartFresh(1, "", 7, 1, Some(0)), OneConn(None, 0, P.Busy(1), P.Using))
  {
    var s, t := OneConn(None, 0, P.Resting, P.Using), OneConn(None, 0, P.Busy(1), P.Using);
    assert IsPick(s.pool, "", 0) && t.pool == Activate(s.pool, 0, 7);
  }

  lemma SecondMarked()
    ensures var marked := MarkStale(map[0 := Unsure(false), 1 := Fresh("/b", {})]);
            && marked == map[0 := Unsure(true), 1 := Fresh("/b", {})]
            && marked[1 := Calling(Fresh("/b", {}), 1)] == map[0 := Unsure(true), 1 := Calling(Fresh("/b", {}), 1)]
  {
  }

  lemma SecondSend()
    ensures Moves(BegunB(), SendOf(1, 1, 1), SentB())
  {
    ReuseStep();
    SecondMarked();
  }

  lemma SecondPage()
    ensures Moves(SentB(), ServePage(1, ONE_MORE, false), HalfB())
  {
    RespondMore("/b", "u");
    LeaveStep(1, "/b");
    AcceptFirst("/b", "u", 1);
  }

  /** The careless step: the cookie of "/a" finds the connection that lists "/b". */
  lemma CarelessSend()
    ensures Moves(HalfB(), SendOf(0, 0, 0), Confused()) && !Careful(HalfB(), SendOf(0, 0, 0))
  {
    ResumeStep("/b");
  }

  lemma SecondLastPage()
    ensures Moves(Confused(), ServePage(0, ONE_LAST, false), EndedB(At("/b"), 1, P.Using))
  {
    RespondLast("/b", "/a", "v");
  }

  lemma SecondRelease()
    ensures Moves(EndedB(At("/b"), 1, P.Using), WindUp(0, P.BeginRelease(0), false), EndedB(None, 0, P.Leaving(true)))
  {
    BeginReleaseStep("/b");
  }

  lemma AcceptLast()
    ensures Accept(Deciding(Unsure(true), 0, "v"), Reply([Child("v", false)], None, NoError, NoError), 0)
         == Listing("/a", {}, None, ["x", "v"], true, false, false, 0, None)
  {
    NamesOne("v");
    assert ["x"] + ["v"] == ["x", "v"];
  }

  lemma SecondDone()
    ensures Moves(EndedB(None, 0, P.Leaving(true)), WindUp(0, P.EndRelease(0, 7), false), Misled())
  {
    EndReleaseStep();
    AcceptLast();
  }

  lemma Extend(run: seq<State>, steps: seq<Step>, step: Step, t: State) returns (run': seq<State>, steps': seq<Step>)
    requires IsRun(TWO_DIRS, run, steps) && Moves(run[|run| - 1], step, t)
    ensures IsRun(TWO_DIRS, run', steps') && run'[|run'| - 1] == t
  {
    run', steps' := run + [t], steps + [step];
    forall i | 0 <= i < |steps'|
      ensures run'[i].pool.pool.Valid() && Next(TWO_DIRS, run'[i], steps'[i], run'[i + 1])
    {
      if i < |steps| {
        assert run'[i] == run[i] && steps'[i] == steps[i] && run'[i + 1] == run[i + 1];
      }
    }
  }

  lemma HalfRun() returns (run: seq<State>, steps: seq<Step>)
    ensures IsRun(TWO_DIRS, run, steps) && run[|run| - 1] == Half()
  {
    FirstBegin();
    FirstSend();
    FirstPage();
    run, steps := [START], [];
    run, steps := Extend(run, steps, Begin(0, "/a", {}), Begun());
    run, steps := Extend(run, steps, SendOf(0, 0, 0), Sent());
    run, steps := Extend(run, steps, ServePage(0, ONE_MORE, false), Half());
  }

  lemma LostRun() returns (run: seq<State>, steps: seq<Step>)
    ensures IsRun(TWO_DIRS, run, steps) && run[|run| - 1] == Lost()
  {
    FirstResume();
    FirstLastPage();
    FirstRelease();
    FirstLost();
    run, steps := HalfRun();
    run, steps := Extend(run, steps, SendOf(0, 0, 0), Resumed());
    run, steps := Extend(run, steps, ServePage(0, ONE_LAST, false), Ended(At("/a"), 1, P.Using));
    run, steps := Extend(run, steps, WindUp(0, P.BeginRelease(0), false), Ended(None, 0, P.Leaving(true)));
    run, steps := Extend(run, steps, WindUp(0, P.EndRelease(0, 7), true), Lost());
  }

  lemma HalfBRun() returns (run: seq<State>, steps: seq<Step>)
    ensures IsRun(TWO_DIRS, run, steps) && run[|run| - 1] == HalfB()
  {
    SecondBegin();
    SecondSend();
    SecondPage();
    run, steps := LostRun();
    run, steps := Extend(run, steps, Begin(1, "/b", {}), BegunB());
    run, steps := Extend(run, steps, SendOf(1, 1, 1), SentB());
    run, steps := Extend(run, steps, ServePage(1, ONE_MORE, false), HalfB());
  }

  lemma VisibleTwo()
    ensures Visible(["x", "y"], "/a", {}) == ["x", "y"]
  {
    assert ["x", "y"][1..] == ["y"] && ["y"][1..] == [];
    assert Visible(["y"], "/a", {}) == ["y"] + Visible([], "/a", {}) == ["y"];
    assert Visible(["x", "y"], "/a", {}) == ["x"] + ["y"];
  }

  /** With a careless client a listing takes another directory's child for its own:
      the last reply for "/a" is lost, its connection is reused to list "/b" up to the
      same count, and the cookie of "/a" is sent again. The client is told of no
      error and believes that "/a" holds "x" and "v". */
  lemma CarelessRun() returns (run: seq<State>, steps: seq<Step>)
    ensures IsRun(TWO_DIRS, run, steps)
    ensures var c := run[|run| - 1].listings;
            && 0 in c && c[0].done && c[0].path == "/a" && c[0].accepted == ["x", "v"]
            && Visible(TWO_DIRS["/a"], "/a", {}) == ["x", "y"]
  {
    VisibleTwo();
    CarelessSend();
    SecondLastPage();
    SecondRelease();
    SecondDone();
    run, steps := HalfBRun();
    run, steps := Extend(run, steps, SendOf(0, 0, 0), Confused());
    run, steps := Extend(run, steps, ServePage(0, ONE_LAST, false), EndedB(At("/b"), 1, P.Using));
    run, steps := Extend(run, steps, WindUp(0, P.BeginRelease(0), false), EndedB(None, 0, P.Leaving(true)));
    run, steps := Extend(run, steps, WindUp(0, P.EndRelease(0, 7), false), Misled());
  }

  // ---- A connection shut down under another request ----

  const SHUT := Conn(7, 7, None, 0, {}, true)

  /** "/a" has to be listed from the start again. */
  ghost function Again(pool: P.State): State { State(pool, map[0 := Fresh("/a", {})], map[0 := 0]) }

  /** After the lost reply another request has the connection. */
  ghost function Reused(): State {
    State(OneConn(None, 0, P.Busy(1), P.Using), map[0 := Unsure(true)], map[0 := 0])
  }

  ghost function ShutUnder(stage: P.Stage): State {
    Again(P.State(Pool(map[], [], map[0 := SHUT]), map[1 := P.Job(0, stage)], map[0 := P.Dead]))
  }

  ghost function DeadInPool(): State {
    Again(P.State(Pool(map[], [0], map[0 := SHUT]), map[], map[0 := P.Resting]))
  }

  ghost function DeadInUse(): State {
    Again(P.State(Pool(map[7 := 0], [], map[0 := SHUT]), map[2 := P.Job(0, P.Using)], map[0 := P.Busy(2)]))
  }

  const RESENT := Send(0, 0, false, 7, 2, None, Retry, false)

  lemma OtherReuses()
    ensures Moves(Lost(), Other(P.StartFresh(1, "", 7, 1, Some(0))), Reused())
  {
    ReuseStep();
    assert MarkStale(map[0 := Unsure(false)]) == map[0 := Unsure(true)];
  }

  lemma CookieShuts()
    ensures var s := OneConn(None, 0, P.Busy(1), P.Using);
            && s.pool.Valid() && Resume(s.pool, 7, 1, 7).1 == None
            && P.CookieCall(s, 0, 7, 1, 7, ShutUnder(P.Using).pool)
  {
  }

  lemma ResentShuts()
    ensures Moves(Reused(), RESENT, ShutUnder(P.Using)) && !Careful(Reused(), RESENT)
  {
    CookieShuts();
  }

  lemma DeadBeginsRelease()
    ensures Moves(ShutUnder(P.Using), Other(P.BeginRelease(1)), ShutUnder(P.Leaving(true)))
  {
  }

  lemma DeadGivenBack()
    ensures Moves(ShutUnder(P.Leaving(true)), Other(P.EndRelease(1, 7)), DeadInPool())
  {
  }

  lemma DeadTaken()
    ensures Moves(DeadInPool(), Other(P.StartFresh(2, "", 7, 1, Some(0))), DeadInUse())
  {
    var p := DeadInPool().pool.pool;
    assert IsPick(p, "", 0) && DeadInUse().pool.pool == Activate(p, 0, 7);
    assert MarkStale(DeadInPool().listings) == DeadInPool().listings;
  }

  /** A run that pools a dead connection: the last reply for "/a" is lost, request 1
      takes its connection, the cookie of "/a" is sent again and shuts the connection
      down, request 1 gives it back, and request 2 is handed it. */
  lemma DeadConnectionRun() returns (run: seq<State>, steps: seq<Step>)
    ensures IsRun(TWO_DIRS, run, steps)
    ensures var s := run[|run| - 1].pool; P.At(s, 2, P.Using) && s.pool.conns[s.jobs[2].conn].shut
  {
    OtherReuses();
    ResentShuts();
    DeadBeginsRelease();
    DeadGivenBack();
    DeadTaken();
    run, steps := LostRun();
    run, steps := Extend(run, steps, Other(P.StartFresh(1, "", 7, 1, Some(0))), Reused());
    run, steps := Extend(run, steps, RESENT, ShutUnder(P.Using));
    run, steps := Extend(run, steps, Other(P.BeginRelease(1)), ShutUnder(P.Leaving(true)));
    run, steps := Extend(run, steps, Other(P.EndRelease(1, 7)), DeadInPool());
    run, steps := Extend(run, steps, Other(P.StartFresh(2, "", 7, 1, Some(0))), DeadInUse());
  }
}
