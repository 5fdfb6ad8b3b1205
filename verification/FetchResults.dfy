/** What the ops of FetchFileHandle report and what their caches hold, over whole runs:
    where each error comes from, and what stands behind a cached success. */
module FetchResults {
  import opened Status
  import opened FetchFileHandle
  import Lru = LruSpec

  // ---- One lookup ----

  /** Where an op goes from a lookup that settles it, and from one that does not. */
  function SettledStage(o: Op): Stage { if o.stage == FirstLookup then Finished else Releasing }

  function UnsettledStage(o: Op): Stage {
    if o.stage == FirstLookup then Acquiring else if o.makeParent then MakeParent else Stat
  }

  /** What a lookup in cache `c` makes of op `o`: a cached success is found; a cached error
      is reported while it is not older than the limit; otherwise the op goes on as
      without an entry. */
  ghost predicate LookedUpAs(c: Cache, o: Op, now: int, o': Op) {
    && (forall e :: e in c && e.key == o.path ==>
          o' == if e.value.error.Ok() then o.(stage := SettledStage(o), found := true)
                else if now - e.value.errorTime <= 120_000_000
                then o.(stage := SettledStage(o), error := e.value.error)
                else o.(stage := UnsettledStage(o)))
    && (o.path !in Lru.Keys(c) ==> o' == o.(stage := UnsettledStage(o)))
  }

  lemma LookupReports(s: State, t: Tid, now: int, outcome: Outcome, max: nat)
    requires CachesOk(s.caches, max) && Enabled(s, Work(t, now, outcome))
    requires s.ops[t].stage == FirstLookup || s.ops[t].stage == SecondLookup
    ensures var o := s.ops[t];
            var c := s.caches[o.cache];
            var s' := DoWork(s, t, now, outcome, max);
            t in s'.ops && s'.share == s.share && LookedUpAs(c, o, now, s'.ops[t])
  {
    var c := s.caches[s.ops[t].cache];
    forall e | e in c && e.key == s.ops[t].path ensures e == Lru.Find(c, s.ops[t].path) {
      Lru.FindIn(c, e);
    }
  }

  // ---- Where an op's error comes from ----

  /** The step gives op `t` the error `e`: a server call fails, the file turns out to be
      there when it is to be created, or a lookup finds a cached error that is not stale. */
  ghost predicate Gets(s: State, a: Action, t: Tid, e: Error) {
    && a.Work? && a.t == t && t in s.ops && s.ops[t].cache in s.caches
    && var o := s.ops[t];
    match o.stage
    case MakeParent => a.outcome.Failure? && e == FromSmbErrorMessage(a.outcome.status)
    case Stat =>
      a.outcome.Failure? && e == FromSmbErrorMessage(a.outcome.status) && e != NonExistent
    case Create =>
      if a.outcome.Failure? then e == FromSmbErrorMessage(a.outcome.status)
      else o.path in s.share && e == AlreadyExists
    case FirstLookup => HoldsError(s.caches[o.cache], o.path, e, a.now)
    case SecondLookup => HoldsError(s.caches[o.cache], o.path, e, a.now)
    case _ => false
  }

  ghost predicate HoldsError(c: Cache, p: Path, e: Error, now: int) {
    !e.Ok() && exists x :: x in c && x.key == p && x.value.error == e && now - x.value.errorTime <= 120_000_000
  }

  /** The stages of an op that has no error so far, and of one that may have got one. */
  predicate Early(st: Stage) {
    st.FirstLookup? || st.Acquiring? || st.SecondLookup? || st.MakeParent? || st.Stat? || st.Create?
  }

  ghost predicate EarlyOk(ops: map<Tid, Op>) {
    forall t :: t in ops && Early(ops[t].stage) ==> ops[t].error.Ok()
  }

  /** One step of op `t` and its error. */
  lemma WorkError(s: State, t: Tid, now: int, outcome: Outcome, max: nat)
    requires CachesOk(s.caches, max) && Enabled(s, Work(t, now, outcome)) && EarlyOk(s.ops)
    ensures var o' := DoWork(s, t, now, outcome, max).ops[t];
            && (forall e :: Gets(s, Work(t, now, outcome), t, e) ==> o'.error == e && !Early(o'.stage))
            && (Early(o'.stage) ==> o'.error.Ok())
            && (o'.error == s.ops[t].error || (Early(s.ops[t].stage) && Gets(s, Work(t, now, outcome), t, o'.error)))
            && (!Early(s.ops[t].stage) ==> !Early(o'.stage))
  {
    var o := s.ops[t];
    if o.stage == FirstLookup || o.stage == SecondLookup {
      LookupError(s, t, now, outcome, max);
    }
  }

  /** The error of an op after a lookup in cache `c`. */
  lemma LookupError(s: State, t: Tid, now: int, outcome: Outcome, max: nat)
    requires CachesOk(s.caches, max) && Enabled(s, Work(t, now, outcome)) && s.ops[t].error.Ok()
    requires s.ops[t].stage == FirstLookup || s.ops[t].stage == SecondLookup
    ensures var o := s.ops[t];
            var o' := DoWork(s, t, now, outcome, max).ops[t];
            && (forall e :: HoldsError(s.caches[o.cache], o.path, e, now) ==> o'.error == e && !Early(o'.stage))
            && (o'.error.Ok() || HoldsError(s.caches[o.cache], o.path, o'.error, now))
            && (Early(o'.stage) ==> o'.error.Ok())
  {
    var o := s.ops[t];
    LookupReports(s, t, now, outcome, max);
    SettledError(s.caches[o.cache], o, now, DoWork(s, t, now, outcome, max).ops[t]);
  }

  lemma SettledError(c: Cache, o: Op, now: int, o': Op)
    requires o.error.Ok() && (o.stage == FirstLookup || o.stage == SecondLookup) && LookedUpAs(c, o, now, o')
    ensures forall e :: HoldsError(c, o.path, e, now) ==> o'.error == e && !Early(o'.stage)
    ensures o'.error.Ok() || HoldsError(c, o.path, o'.error, now)
    ensures Early(o'.stage) ==> o'.error.Ok()
  {
    if o.path in Lru.Keys(c) {
      var x :| x in c && x.key == o.path;
    }
  }

  /** Steps of others leave an op's error and progress alone. */
  lemma OthersError(s: State, a: Action, t: Tid, max: nat)
    requires Enabled(s, a) && t in s.ops && !(a.Work? && a.t == t) && !(a.Begin? && a.t == t)
    ensures var s' := Next(s, a, max);
            t in s'.ops && s'.ops[t].error == s.ops[t].error && s'.ops[t].stage == s.ops[t].stage
  {
    if a.Work? {
      WorkIsOwn(s, a.t, a.now, a.outcome, max, t);
    }
  }

  lemma EarlyKept(s: State, a: Action, max: nat)
    requires CachesOk(s.caches, max) && Enabled(s, a) && EarlyOk(s.ops)
    ensures EarlyOk(Next(s, a, max).ops)
  {
    var s' := Next(s, a, max);
    forall t | t in s'.ops && Early(s'.ops[t].stage) ensures s'.ops[t].error.Ok() {
      if a.Work? && a.t == t {
        WorkError(s, t, a.now, a.outcome, max);
      } else if t in s.ops && !(a.Begin? && a.t == t) {
        OthersError(s, a, t, max);
      }
    }
  }

  lemma {:induction false} EarlyInRuns(run: seq<State>, acts: seq<Action>, max: nat, n: nat)
    requires IsRun(run, acts, max) && n < |run|
    ensures EarlyOk(run[n].ops) && CachesOk(run[n].caches, max)
  {
    InvInRuns(run, acts, max, n);
    if n > 0 {
      EarlyInRuns(run, acts, max, n - 1);
      StepTo(run, acts, max, n);
      EarlyKept(run[n - 1], acts[n - 1], max);
    }
  }

  lemma StepTo(run: seq<State>, acts: seq<Action>, max: nat, n: nat)
    requires IsRun(run, acts, max) && 0 < n < |run|
    ensures Enabled(run[n - 1], acts[n - 1]) && run[n] == Next(run[n - 1], acts[n - 1], max)
  {
    var i := n - 1;
    assert Enabled(run[i], acts[i]) && run[i + 1] == Next(run[i], acts[i], max);
  }

  /** The op of thread `t` does not start anew from `i` on before `n`. */
  ghost predicate SameOp(acts: seq<Action>, t: Tid, i: nat, n: nat) {
    n <= |acts| && forall j :: i <= j < n ==> !(acts[j].Begin? && acts[j].t == t)
  }

  ghost predicate Reports(s: State, t: Tid, e: Error) {
    t in s.ops && s.ops[t].error == e && !Early(s.ops[t].stage)
  }

  lemma GetsError(s: State, a: Action, t: Tid, e: Error, max: nat)
    requires CachesOk(s.caches, max) && EarlyOk(s.ops) && Enabled(s, a) && Gets(s, a, t, e)
    ensures Reports(Next(s, a, max), t, e)
  {
    WorkError(s, t, a.now, a.outcome, max);
  }

  lemma {:induction false} ReportStays(run: seq<State>, acts: seq<Action>, max: nat, m: nat, n: nat, t: Tid, e: Error)
    requires IsRun(run, acts, max) && m <= n < |run| && Reports(run[m], t, e) && SameOp(acts, t, m, n)
    ensures Reports(run[n], t, e)
    decreases n
  {
    if m < n {
      ReportStays(run, acts, max, m, n - 1, t, e);
      ReportStep(run, acts, max, n, t, e);
    }
  }

  lemma ReportStep(run: seq<State>, acts: seq<Action>, max: nat, n: nat, t: Tid, e: Error)
    requires IsRun(run, acts, max) && 0 < n < |run| && Reports(run[n - 1], t, e)
    requires !(acts[n - 1].Begin? && acts[n - 1].t == t)
    ensures Reports(run[n], t, e)
  {
    EarlyInRuns(run, acts, max, n - 1);
    StepTo(run, acts, max, n);
    LateStep(run[n - 1], acts[n - 1], t, max);
  }

  /** An op whose call has failed, or whose lookup has found a fresh cached error, ends
      with that very error: it is the op's error ever after. */
  lemma ErrorIsReported(run: seq<State>, acts: seq<Action>, max: nat, i: nat, n: nat, t: Tid, e: Error)
    requires IsRun(run, acts, max) && i < n < |run| && Gets(run[i], acts[i], t, e) && SameOp(acts, t, i, n)
    ensures t in run[n].ops && run[n].ops[t].error == e && !Early(run[n].ops[t].stage)
  {
    EarlyInRuns(run, acts, max, i);
    StepTo(run, acts, max, i + 1);
    GetsError(run[i], acts[i], t, e, max);
    ReportStays(run, acts, max, i + 1, n, t, e);
  }

  /** An op that may have an error keeps what it has. */
  lemma LateStep(s: State, a: Action, t: Tid, max: nat)
    requires CachesOk(s.caches, max) && EarlyOk(s.ops) && Enabled(s, a) && t in s.ops && !Early(s.ops[t].stage)
    requires !(a.Begin? && a.t == t)
    ensures var s' := Next(s, a, max);
            t in s'.ops && s'.ops[t].error == s.ops[t].error && !Early(s'.ops[t].stage)
  {
    if a.Work? && a.t == t {
      WorkError(s, t, a.now, a.outcome, max);
    } else {
      OthersError(s, a, t, max);
    }
  }

  /** And an op has no error that did not come about in this way. */
  lemma {:induction false} ErrorHasCause(run: seq<State>, acts: seq<Action>, max: nat, n: nat, t: Tid) returns (i: nat)
    requires IsRun(run, acts, max) && n < |run| && t in run[n].ops && !run[n].ops[t].error.Ok()
    ensures i < n && Gets(run[i], acts[i], t, run[n].ops[t].error) && SameOp(acts, t, i, n)
  {
    var s, a := run[n - 1], acts[n - 1];
    EarlyInRuns(run, acts, max, n - 1);
    StepTo(run, acts, max, n);
    if a.Work? && a.t == t {
      WorkError(s, t, a.now, a.outcome, max);
      if s.ops[t].error != run[n].ops[t].error {
        return n - 1;
      }
    } else {
      assert t in s.ops;
      OthersError(s, a, t, max);
    }
    i := ErrorHasCause(run, acts, max, n - 1, t);
  }

  // ---- How an op ends ----

  /** The step ends the critical part of op `t`, or the op at its first lookup: a lookup
      settles it, its directory cannot be made, or it inserts its result. */
  ghost predicate Ends(s: State, a: Action, t: Tid) {
    && a.Work? && a.t == t && t in s.ops && s.ops[t].cache in s.caches
    && var o := s.ops[t];
    match o.stage
    case FirstLookup => HoldsResult(s.caches[o.cache], o.path, a.now)
    case SecondLookup => HoldsResult(s.caches[o.cache], o.path, a.now)
    case MakeParent => a.outcome.Failure?
    case Insert => true
    case _ => false
  }

  ghost predicate HoldsResult(c: Cache, p: Path, now: int) {
    exists x :: x in c && x.key == p && (x.value.error.Ok() || now - x.value.errorTime <= 120_000_000)
  }

  predicate Over(st: Stage) { st.Releasing? || st.Finished? }

  lemma LookupEnds(s: State, t: Tid, now: int, outcome: Outcome, max: nat)
    requires CachesOk(s.caches, max) && Enabled(s, Work(t, now, outcome))
    requires s.ops[t].stage == FirstLookup || s.ops[t].stage == SecondLookup
    ensures var o := s.ops[t];
            Over(DoWork(s, t, now, outcome, max).ops[t].stage) <==> HoldsResult(s.caches[o.cache], o.path, now)
  {
    LookupReports(s, t, now, outcome, max);
    SettledEnds(s.caches[s.ops[t].cache], s.ops[t], now, DoWork(s, t, now, outcome, max).ops[t]);
  }

  lemma SettledEnds(c: Cache, o: Op, now: int, o': Op)
    requires (o.stage == FirstLookup || o.stage == SecondLookup) && LookedUpAs(c, o, now, o')
    ensures Over(o'.stage) <==> HoldsResult(c, o.path, now)
  {
    if o.path in Lru.Keys(c) {
      var x :| x in c && x.key == o.path;
    }
  }

  lemma WorkEnds(s: State, t: Tid, now: int, outcome: Outcome, max: nat)
    requires CachesOk(s.caches, max) && Enabled(s, Work(t, now, outcome))
    ensures var st := DoWork(s, t, now, outcome, max).ops[t].stage;
            Over(st) <==> Over(s.ops[t].stage) || Ends(s, Work(t, now, outcome), t)
  {
    var o := s.ops[t];
    if o.stage == FirstLookup || o.stage == SecondLookup {
      LookupEnds(s, t, now, outcome, max);
    }
  }

  lemma StepEnds(s: State, a: Action, t: Tid, max: nat)
    requires CachesOk(s.caches, max) && Enabled(s, a)
    requires t in Next(s, a, max).ops && Over(Next(s, a, max).ops[t].stage)
    ensures Ends(s, a, t) || (t in s.ops && Over(s.ops[t].stage) && !(a.Begin? && a.t == t))
  {
    if a.Work? && a.t == t {
      WorkEnds(s, t, a.now, a.outcome, max);
    } else {
      assert t in s.ops;
      OthersError(s, a, t, max);
    }
  }

  /** An op that is over was ended by such a step: in particular, one that has asked the
      server for its file has inserted its result. */
  lemma {:induction false} EndHasCause(run: seq<State>, acts: seq<Action>, max: nat, n: nat, t: Tid) returns (i: nat)
    requires IsRun(run, acts, max) && n < |run| && t in run[n].ops && Over(run[n].ops[t].stage)
    ensures i < n && Ends(run[i], acts[i], t) && SameOp(acts, t, i, n)
  {
    EarlyInRuns(run, acts, max, n - 1);
    StepTo(run, acts, max, n);
    StepEnds(run[n - 1], acts[n - 1], t, max);
    if Ends(run[n - 1], acts[n - 1], t) {
      return n - 1;
    }
    i := EndHasCause(run, acts, max, n - 1, t);
  }

  /** The insertion puts the op's result in front, an error with the time. */
  lemma InsertionCaches(s: State, t: Tid, now: int, outcome: Outcome, max: nat)
    requires 0 < max && Enabled(s, Work(t, now, outcome)) && s.ops[t].stage == Insert
    ensures var o := s.ops[t];
            var s' := DoWork(s, t, now, outcome, max);
            && o.cache in s'.caches && s'.caches[o.cache] != []
            && var e := s'.caches[o.cache][0];
            && e.key == o.path && e.value.error == o.error && (!o.error.Ok() ==> e.value.errorTime == now)
            && t in s'.ops && s'.ops[t] == o.(stage := Releasing)
  {
  }

  // ---- What stands behind a success ----

  /** An op that is about to cache a success has its file on the share, unless somebody
      else has interfered since its metadata call. */
  ghost predicate BackedOp(o: Op, share: set<Path>) {
    o.stage == Insert && o.error.Ok() && !o.disturbed ==> o.path in share
  }

  ghost predicate Backed(s: State) { forall t :: t in s.ops ==> BackedOp(s.ops[t], s.share) }

  lemma WorkBacked(s: State, t: Tid, now: int, outcome: Outcome, max: nat)
    requires Enabled(s, Work(t, now, outcome)) && EarlyOk(s.ops) && Backed(s)
    ensures Backed(DoWork(s, t, now, outcome, max))
  {
    var s' := DoWork(s, t, now, outcome, max);
    forall u | u in s'.ops && u != t ensures BackedOp(s'.ops[u], s'.share) {
      WorkIsOwn(s, t, now, outcome, max, u);
      assert BackedOp(s.ops[u], s.share) && s.share <= s'.share;
    }
    OwnBacked(s, t, now, outcome, max);
  }

  lemma OwnBacked(s: State, t: Tid, now: int, outcome: Outcome, max: nat)
    requires Enabled(s, Work(t, now, outcome)) && BackedOp(s.ops[t], s.share)
    ensures var s' := DoWork(s, t, now, outcome, max); BackedOp(s'.ops[t], s'.share)
  {
  }

  lemma StepBacked(s: State, a: Action, max: nat)
    requires Enabled(s, a) && EarlyOk(s.ops) && Backed(s)
    ensures Backed(Next(s, a, max))
  {
    var s' := Next(s, a, max);
    if a.Work? {
      WorkBacked(s, a.t, a.now, a.outcome, max);
    } else {
      forall u | u in s'.ops ensures BackedOp(s'.ops[u], s'.share) {
        assert u in s.ops ==> BackedOp(s.ops[u], s.share);
      }
    }
  }

  /** In every run an op that is about to insert a success has its file on the share,
      unless somebody else has changed the path since the op's metadata call. */
  lemma {:induction false} InsertedSuccessIsBacked(run: seq<State>, acts: seq<Action>, max: nat, n: nat, t: Tid)
    requires IsRun(run, acts, max) && n < |run| && t in run[n].ops
    requires run[n].ops[t].stage == Insert && run[n].ops[t].error.Ok() && !run[n].ops[t].disturbed
    ensures run[n].ops[t].path in run[n].share
  {
    BackedInRuns(run, acts, max, n);
    assert BackedOp(run[n].ops[t], run[n].share);
  }

  lemma {:induction false} BackedInRuns(run: seq<State>, acts: seq<Action>, max: nat, n: nat)
    requires IsRun(run, acts, max) && n < |run|
    ensures Backed(run[n])
  {
    if n > 0 {
      BackedInRuns(run, acts, max, n - 1);
      EarlyInRuns(run, acts, max, n - 1);
      StepTo(run, acts, max, n);
      StepBacked(run[n - 1], acts[n - 1], max);
    }
  }

  /** The step inserts the entry into the cache: the op's error and the time, or a
      success. */
  ghost predicate InsertsEntry(s: State, a: Action, c: CacheId, e: Lru.Entry<Path, Handle>) {
    && a.Work? && a.t in s.ops && s.ops[a.t].stage == Insert && s.ops[a.t].cache == c && s.ops[a.t].path == e.key
    && e.value.error == s.ops[a.t].error && (!e.value.error.Ok() ==> e.value.errorTime == a.now)
  }

  lemma StepEntries(s: State, a: Action, max: nat, c: CacheId, e: Lru.Entry<Path, Handle>)
    requires Enabled(s, a) && c in Next(s, a, max).caches && e in Next(s, a, max).caches[c]
    ensures InsertsEntry(s, a, c, e) || (c in s.caches && e in s.caches[c])
  {
    if a.Work? {
      WorkEntries(s, a.t, a.now, a.outcome, max, c, e);
    }
  }

  lemma WorkEntries(s: State, t: Tid, now: int, outcome: Outcome, max: nat, c: CacheId, e: Lru.Entry<Path, Handle>)
    requires Enabled(s, Work(t, now, outcome))
    requires var s' := DoWork(s, t, now, outcome, max); c in s'.caches && e in s'.caches[c]
    ensures InsertsEntry(s, Work(t, now, outcome), c, e) || (c in s.caches && e in s.caches[c])
  {
    var o := s.ops[t];
    if o.stage == Insert && c == o.cache {
      var h := if o.error.Ok() then Handle(NoError, -1) else Handle(o.error, now);
      assert e in [Lru.Entry(o.path, h)] + Lru.Without(s.caches[c], o.path);
    }
  }

  /** Every cached entry was put there by an op that had just that result for just that
      path; a cached success therefore by one that had its file on the share, unless
      somebody interfered. */
  lemma {:induction false} EntryWasInserted(run: seq<State>, acts: seq<Action>, max: nat, n: nat, c: CacheId,
                                            e: Lru.Entry<Path, Handle>)
    returns (i: nat)
    requires IsRun(run, acts, max) && n < |run| && c in run[n].caches && e in run[n].caches[c]
    ensures i < n && InsertsEntry(run[i], acts[i], c, e)
    ensures e.value.error.Ok() && !run[i].ops[acts[i].t].disturbed ==> e.key in run[i].share
  {
    StepTo(run, acts, max, n);
    StepEntries(run[n - 1], acts[n - 1], max, c, e);
    if InsertsEntry(run[n - 1], acts[n - 1], c, e) {
      i := n - 1;
      BackedInRuns(run, acts, max, i);
      assert BackedOp(run[i].ops[acts[i].t], run[i].share);
    } else {
      i := EntryWasInserted(run, acts, max, n - 1, c, e);
    }
  }
}
