/** Double-checked creation of files: concurrent ops look a path up in their
    task's cache, take the path's exclusive lock in the id locker, look it up
    again, and only then ask the server and create the file. The steps of the
    id locker are those of the locker's own model. */
module FetchFileHandle {
  import opened Status
  import C = Collections
  import Lru = LruSpec
  import Locker = IdLocker

  type Path = string
  type Tid = nat
  type CacheId = nat

  const ERROR_CACHE_USECS: int := 120 * 1_000_000

  datatype Handle = Handle(error: Error, errorTime: int)

  type Cache = seq<Lru.Entry<Path, Handle>>

  datatype Stage =
    | FirstLookup
    | Acquiring
    | SecondLookup
    | MakeParent
    | Stat
    | Create
    | Insert
    | Releasing
    | Finished

  /** `disturbed`: somebody other than these ops has changed the path on the
      share since the op's metadata call. */
  datatype Op = Op(path: Path, cache: CacheId, makeParent: bool, stage: Stage,
                   error: Error, found: bool, disturbed: bool)

  datatype State = State(locker: Locker.State, caches: map<CacheId, Cache>, share: set<Path>, ops: map<Tid, Op>)

  datatype Action =
    | Begin(t: Tid, path: Path, cache: CacheId, makeParent: bool)
    | LockStep(t: Tid)                // one step of the op inside the id locker
    | Work(t: Tid, now: int, outcome: Outcome)
    | ForeignCreate(path: Path)
    | ForeignDelete(path: Path)

  /** What a server call of the op returns; `status` is used when it fails. */
  datatype Outcome = Success | Failure(status: uint32)

  ghost predicate Init(s: State) {
    && Locker.Init(s.locker) && s.caches == map[] && s.ops == map[]
  }

  predicate IsErrorStale(h: Handle, now: int) { now - h.errorTime > ERROR_CACHE_USECS }

  /** LookupFileHandle: does it settle the op, and with what? */
  ghost predicate Settles(c: Cache, p: Path, now: int) {
    p in Lru.Keys(c) && (Lru.Find(c, p).value.error.Ok() || !IsErrorStale(Lru.Find(c, p).value, now))
  }

  /** A lookup fails to settle exactly for a missing entry or a stale error. */
  lemma UnsettledIff(c: Cache, p: Path, now: int)
    requires Lru.Distinct(c)
    ensures !Settles(c, p, now) <==>
            (forall e :: e in c && e.key == p ==> !e.value.error.Ok() && IsErrorStale(e.value, now))
  {
    if p in Lru.Keys(c) {
      var f := Lru.Find(c, p);
      forall e | e in c && e.key == p ensures e == f {
        Lru.FindIn(c, e);
      }
    }
  }

  predicate Critical(st: Stage) { st.SecondLookup? || st.MakeParent? || st.Stat? || st.Create? || st.Insert? }

  /** The op is inside Acquire/ReleaseExclusiveLock, or holds the lock. */
  predicate UsesLock(st: Stage) { st.Acquiring? || st.Releasing? || Critical(st) }

  ghost predicate Enabled(s: State, a: Action) {
    match a
    case Begin(t, _, _, _) => t in s.locker.uses && s.locker.uses[t].stage == Locker.Idle
        && (t in s.ops ==> s.ops[t].stage == Finished)
    case LockStep(t) =>
      && t in s.ops && Locker.Enabled(s.locker, t)
      && ((s.ops[t].stage == Acquiring && s.locker.uses[t].stage != Locker.Holding)
          || (s.ops[t].stage == Releasing && s.locker.uses[t].stage != Locker.Idle))
    case Work(t, _, _) =>
      && t in s.ops && t in s.locker.uses && s.ops[t].cache in s.caches
      && (s.ops[t].stage == Acquiring ==> s.locker.uses[t].stage == Locker.Holding)
      && (s.ops[t].stage == Releasing ==> s.locker.uses[t].stage == Locker.Idle)
      && s.ops[t].stage != Finished
    case _ => true
  }

  /** What LookupFileHandle tells the op: a hit settles it. */
  ghost function LookedUp(o: Op, c: Cache, now: int, miss: Stage, hit: Stage): Op {
    if !Settles(c, o.path, now) then o.(stage := miss)
    else if Lru.Find(c, o.path).value.error.Ok() then o.(stage := hit, found := true)
    else o.(stage := hit, error := Lru.Find(c, o.path).value.error)
  }

  /** LookupFileHandle moves a hit to the front, whatever it decides. */
  ghost function Lookup(s: State, t: Tid, now: int, miss: Stage, hit: Stage): State
    requires t in s.ops && s.ops[t].cache in s.caches
  {
    var o := s.ops[t];
    var c := s.caches[o.cache];
    s.(caches := s.caches[o.cache := Lru.Apply(c, Lru.Op<Path, Handle>.Lookup(o.path), 1)],
       ops := s.ops[t := LookedUp(o, c, now, miss, hit)])
  }

  ghost function DoWork(s: State, t: Tid, now: int, outcome: Outcome, max: nat): State
    requires Enabled(s, Work(t, now, outcome))
  {
    var o := s.ops[t];
    match o.stage
    case FirstLookup => Lookup(s, t, now, Acquiring, Finished)
    case Acquiring => s.(ops := s.ops[t := o.(stage := SecondLookup)])
    case SecondLookup => Lookup(s, t, now, if o.makeParent then MakeParent else Stat, Releasing)
    case MakeParent =>
      s.(ops := s.ops[t := if outcome.Success? then o.(stage := Stat)
                           else o.(stage := Releasing, error := FromSmbErrorMessage(outcome.status))])
    case Stat =>
      var seen := o.(disturbed := false);
      s.(ops := s.ops[t := if outcome.Failure? && FromSmbErrorMessage(outcome.status) != NonExistent
                           then seen.(stage := Insert, error := FromSmbErrorMessage(outcome.status))
                           else if o.path in s.share then seen.(stage := Insert)
                           else seen.(stage := Create)])
    case Create =>
      if outcome.Failure? || o.path in s.share
      then
        var error := if outcome.Failure? then FromSmbErrorMessage(outcome.status) else AlreadyExists;
        s.(ops := s.ops[t := o.(stage := Insert, error := error)])
      else s.(share := s.share + {o.path}, ops := s.ops[t := o.(stage := Insert)])
    case Insert => Inserted(s, t, if o.error.Ok() then Handle(NoError, -1) else Handle(o.error, now), max)
    case Releasing => s.(ops := s.ops[t := o.(stage := Finished)])
  }

  ghost function Disturb(ops: map<Tid, Op>, p: Path): map<Tid, Op> {
    map t | t in ops :: if ops[t].path == p then ops[t].(disturbed := true) else ops[t]
  }

  ghost function Next(s: State, a: Action, max: nat): State
    requires Enabled(s, a)
  {
    match a
    case Begin(t, path, cache, makeParent) =>
      s.(ops := s.ops[t := Op(path, cache, makeParent, FirstLookup, NoError, false, false)],
         caches := if cache in s.caches then s.caches else s.caches[cache := []])
    case LockStep(t) => s.(locker := Locker.Next(s.locker, t, s.ops[t].path, Locker.Exclusive))
    case Work(t, now, outcome) => DoWork(s, t, now, outcome, max)
    case ForeignCreate(p) => s.(share := s.share + {p}, ops := Disturb(s.ops, p))
    case ForeignDelete(p) => s.(share := s.share - {p}, ops := Disturb(s.ops, p))
  }

  ghost predicate IsRun(run: seq<State>, acts: seq<Action>, max: nat) {
    && 0 < max && |run| == |acts| + 1 && Init(run[0])
    && forall i :: 0 <= i < |acts| ==> Enabled(run[i], acts[i]) && run[i + 1] == Next(run[i], acts[i], max)
  }

  // ---- Invariant ----

  /** Where an op in some stage stands with its use of the id locker. */
  ghost predicate LockOk(o: Op, u: Locker.Use) {
    && (!UsesLock(o.stage) ==> u.stage == Locker.Idle)
    && (Critical(o.stage) ==> u.stage == Locker.Holding)
    && (UsesLock(o.stage) && u.stage != Locker.Idle ==> u.id == o.path && u.mode == Locker.Exclusive)
    && (o.stage == Acquiring ==> !u.stage.RelWantGlobal? && !u.stage.RelInGlobal? && !u.stage.RelCounted?
                                 && !u.stage.RelUnlocked? && !u.stage.RelCleaned?)
  }

  /** No success is cached for the path. */
  ghost predicate NoSuccess(c: Cache, p: Path) {
    forall e :: e in c && e.key == p ==> !e.value.error.Ok()
  }

  ghost predicate OpOk(s: State, t: Tid, o: Op) {
    && t in s.locker.uses && LockOk(o, s.locker.uses[t])
    && o.cache in s.caches
    && (Critical(o.stage) && o.stage != SecondLookup ==> NoSuccess(s.caches[o.cache], o.path))
    && (o.stage == Create && !o.disturbed ==> o.path !in s.share)
  }

  ghost predicate OpsOk(s: State) {
    && (forall t :: t in s.ops ==> OpOk(s, t, s.ops[t]))
    && (forall t :: t in s.locker.uses && t !in s.ops ==> s.locker.uses[t].stage == Locker.Idle)
  }

  ghost predicate CachesOk(caches: map<CacheId, Cache>, max: nat) {
    forall c :: c in caches ==> Lru.Distinct(caches[c]) && |caches[c]| <= max
  }

  ghost predicate Inv(s: State, max: nat) {
    Locker.Inv(s.locker) && OpsOk(s) && CachesOk(s.caches, max)
  }

  /** Two ops in their critical part work on different paths. */
  lemma Exclusion(s: State, t: Tid, u: Tid, max: nat)
    requires Inv(s, max) && t in s.ops && u in s.ops && t != u && Critical(s.ops[t].stage) && Critical(s.ops[u].stage)
    ensures s.ops[t].path != s.ops[u].path
  {
    assert OpOk(s, t, s.ops[t]) && OpOk(s, u, s.ops[u]);
    if s.ops[t].path == s.ops[u].path {
      Locker.WriterExcludes(s.locker, t, u);
    }
  }

  lemma LookupKeepsCache(c: Cache, p: Path, q: Path, max: nat)
    requires Lru.Distinct(c) && |c| <= max && 0 < max
    ensures var c' := Lru.Apply(c, Lru.Op<Path, Handle>.Lookup(p), 1);
            && Lru.Distinct(c') && |c'| <= max && (NoSuccess(c, q) ==> NoSuccess(c', q))
  {
    var op := Lru.Op<Path, Handle>.Lookup(p);
    assert Lru.Apply(c, op, 1) == Lru.Apply(c, op, max);
    Lru.ApplyKeeps(c, op, max);
    if NoSuccess(c, q) {
      forall e | e in Lru.Apply(c, op, 1) && e.key == q ensures !e.value.error.Ok() {
        assert e in c;
      }
    }
  }

  lemma InsertKeepsCache(c: Cache, p: Path, h: Handle, q: Path, max: nat)
    requires Lru.Distinct(c) && |c| <= max && 0 < max
    ensures var c' := Lru.Apply(c, Lru.Insert(p, h), max);
            && Lru.Distinct(c') && |c'| <= max && (p != q && NoSuccess(c, q) ==> NoSuccess(c', q))
  {
    Lru.ApplyKeeps(c, Lru.Insert(p, h), max);
    if p != q && NoSuccess(c, q) {
      forall e | e in Lru.Apply(c, Lru.Insert(p, h), max) && e.key == q ensures !e.value.error.Ok() {
        assert e in [Lru.Entry(p, h)] + Lru.Without(c, p);
      }
    }
  }

  /** An op's own change. */
  lemma OwnMove(s: State, t: Tid, o: Op)
    requires OpsOk(s) && t in s.ops && OpOk(s, t, o)
    ensures OpsOk(s.(ops := s.ops[t := o]))
  {
    var s' := s.(ops := s.ops[t := o]);
    forall u | u in s'.ops ensures OpOk(s', u, s'.ops[u]) {
      assert u != t ==> OpOk(s, u, s.ops[u]);
    }
  }

  /** A cache changes without gaining a success that an op relies on not being there. */
  lemma CacheMove(s: State, i: CacheId, c: Cache)
    requires OpsOk(s) && i in s.caches
    requires forall u :: u in s.ops && s.ops[u].cache == i && Critical(s.ops[u].stage) ==>
               NoSuccess(s.caches[i], s.ops[u].path) ==> NoSuccess(c, s.ops[u].path)
    ensures OpsOk(s.(caches := s.caches[i := c]))
  {
    var s' := s.(caches := s.caches[i := c]);
    forall u | u in s'.ops ensures OpOk(s', u, s'.ops[u]) {
      assert OpOk(s, u, s.ops[u]);
    }
  }

  /** A file appears that no op is about to create. */
  lemma ShareMove(s: State, p: Path)
    requires OpsOk(s) && forall u :: u in s.ops && s.ops[u].stage == Create ==> s.ops[u].path != p
    ensures OpsOk(s.(share := s.share + {p}))
  {
    var s' := s.(share := s.share + {p});
    forall u | u in s'.ops ensures OpOk(s', u, s'.ops[u]) {
      assert OpOk(s, u, s.ops[u]);
    }
  }

  lemma LookupKeepsOps(s: State, t: Tid, now: int, miss: Stage, hit: Stage, max: nat)
    requires OpsOk(s) && CachesOk(s.caches, max) && 0 < max && t in s.ops && s.ops[t].cache in s.caches
    requires (s.ops[t].stage == FirstLookup && miss == Acquiring && hit == Finished)
             || (s.ops[t].stage == SecondLookup && (miss == MakeParent || miss == Stat) && hit == Releasing)
    ensures OpsOk(Lookup(s, t, now, miss, hit)) && CachesOk(Lookup(s, t, now, miss, hit).caches, max)
  {
    var o := s.ops[t];
    assert OpOk(s, t, o);
    var c := s.caches[o.cache];
    var c' := Lru.Apply(c, Lru.Op<Path, Handle>.Lookup(o.path), 1);
    forall p ensures Lru.Distinct(c') && |c'| <= max && (NoSuccess(c, p) ==> NoSuccess(c', p)) {
      LookupKeepsCache(c, o.path, p, max);
    }
    CacheMove(s, o.cache, c');
    var s1 := s.(caches := s.caches[o.cache := c']);
    assert OpOk(s1, t, o);
    LookedUpNoSuccess(o, c, now, miss, hit);
    LookedUpOk(s1, t, o, LookedUp(o, c, now, miss, hit), miss, hit);
    OwnMove(s1, t, LookedUp(o, c, now, miss, hit));
  }

  lemma LookedUpNoSuccess(o: Op, c: Cache, now: int, miss: Stage, hit: Stage)
    requires Lru.Distinct(c) && miss != hit
    ensures var o' := LookedUp(o, c, now, miss, hit);
            && o' == o.(stage := o'.stage, error := o'.error, found := o'.found)
            && (o'.stage == hit || (o'.stage == miss && NoSuccess(c, o.path)))
  {
    UnsettledIff(c, o.path, now);
  }

  lemma LookupKeeps(s: State, t: Tid, now: int, miss: Stage, hit: Stage, max: nat)
    requires Inv(s, max) && 0 < max && t in s.ops && s.ops[t].cache in s.caches
    requires (s.ops[t].stage == FirstLookup && miss == Acquiring && hit == Finished)
             || (s.ops[t].stage == SecondLookup && (miss == MakeParent || miss == Stat) && hit == Releasing)
    ensures Inv(Lookup(s, t, now, miss, hit), max)
  {
    LookupKeepsOps(s, t, now, miss, hit, max);
  }

  lemma LookedUpOk(s: State, t: Tid, o: Op, o': Op, miss: Stage, hit: Stage)
    requires OpOk(s, t, o) && o' == o.(stage := o'.stage, error := o'.error, found := o'.found)
    requires (o.stage == FirstLookup && miss == Acquiring && hit == Finished)
             || (o.stage == SecondLookup && (miss == MakeParent || miss == Stat) && hit == Releasing)
    requires o'.stage == hit || (o'.stage == miss && NoSuccess(s.caches[o.cache], o.path))
    ensures OpOk(s, t, o')
  {
  }

  ghost function Inserted(s: State, t: Tid, h: Handle, max: nat): State
    requires t in s.ops && s.ops[t].cache in s.caches
  {
    var o := s.ops[t];
    s.(caches := s.caches[o.cache := Lru.Apply(s.caches[o.cache], Lru.Insert(o.path, h), max)],
       ops := s.ops[t := o.(stage := Releasing)])
  }

  lemma InsertKeepsOps(s: State, t: Tid, h: Handle, max: nat)
    requires OpsOk(s) && CachesOk(s.caches, max) && 0 < max
    requires t in s.ops && s.ops[t].stage == Insert && s.ops[t].cache in s.caches
    requires forall u :: u in s.ops && u != t && Critical(s.ops[u].stage) ==> s.ops[u].path != s.ops[t].path
    ensures OpsOk(Inserted(s, t, h, max)) && CachesOk(Inserted(s, t, h, max).caches, max)
  {
    var o := s.ops[t];
    var c := s.caches[o.cache];
    var c' := Lru.Apply(c, Lru.Insert(o.path, h), max);
    assert OpOk(s, t, o);
    var s1 := s.(ops := s.ops[t := o.(stage := Releasing)]);
    OwnMove(s, t, o.(stage := Releasing));
    InsertKeepsCache(c, o.path, h, o.path, max);
    forall u | u in s1.ops && Critical(s1.ops[u].stage) && NoSuccess(c, s1.ops[u].path)
      ensures NoSuccess(c', s1.ops[u].path)
    {
      InsertKeepsCache(c, o.path, h, s1.ops[u].path, max);
    }
    CacheMove(s1, o.cache, c');
  }

  lemma InsertKeeps(s: State, t: Tid, h: Handle, max: nat)
    requires Inv(s, max) && 0 < max && t in s.ops && s.ops[t].stage == Insert && s.ops[t].cache in s.caches
    ensures Inv(Inserted(s, t, h, max), max)
  {
    forall u | u in s.ops && u != t && Critical(s.ops[u].stage) ensures s.ops[u].path != s.ops[t].path {
      Exclusion(s, t, u, max);
    }
    InsertKeepsOps(s, t, h, max);
  }

  /** The op's stage after the create call. */
  lemma CreateKeeps(s: State, t: Tid, e: Error, max: nat)
    requires Inv(s, max) && t in s.ops && s.ops[t].stage == Create
    ensures var s' := s.(ops := s.ops[t := s.ops[t].(stage := Insert, error := e)]);
            Inv(s', max) && Inv(s'.(share := s.share + {s.ops[t].path}), max)
  {
    var o := s.ops[t];
    assert OpOk(s, t, o);
    OwnMove(s, t, o.(stage := Insert, error := e));
    var s' := s.(ops := s.ops[t := o.(stage := Insert, error := e)]);
    forall u | u in s'.ops && s'.ops[u].stage == Create ensures s'.ops[u].path != o.path {
      Exclusion(s, t, u, max);
    }
    ShareMove(s', o.path);
  }

  /** The remaining op steps only change the op itself. */
  lemma OwnStepKeeps(s: State, t: Tid, now: int, outcome: Outcome, max: nat)
    requires Inv(s, max) && Enabled(s, Work(t, now, outcome))
    requires var st := s.ops[t].stage; st == Acquiring || st == MakeParent || st == Stat || st == Releasing
    ensures Inv(DoWork(s, t, now, outcome, max), max)
  {
    assert OpOk(s, t, s.ops[t]);
    var o := DoWork(s, t, now, outcome, max).ops[t];
    OwnStepOk(s, t, now, outcome, max);
    OwnMove(s, t, o);
  }

  lemma OwnStepOk(s: State, t: Tid, now: int, outcome: Outcome, max: nat)
    requires Enabled(s, Work(t, now, outcome)) && OpOk(s, t, s.ops[t])
    requires var st := s.ops[t].stage; st == Acquiring || st == MakeParent || st == Stat || st == Releasing
    ensures var s' := DoWork(s, t, now, outcome, max);
            t in s'.ops && s' == s.(ops := s.ops[t := s'.ops[t]]) && OpOk(s, t, s'.ops[t])
  {
  }

  lemma WorkKeeps(s: State, t: Tid, now: int, outcome: Outcome, max: nat)
    requires Inv(s, max) && 0 < max && Enabled(s, Work(t, now, outcome))
    ensures Inv(DoWork(s, t, now, outcome, max), max)
  {
    match s.ops[t].stage
    case FirstLookup => LookupKeeps(s, t, now, Acquiring, Finished, max);
    case SecondLookup => LookupKeeps(s, t, now, if s.ops[t].makeParent then MakeParent else Stat, Releasing, max);
    case Create =>
      var o := s.ops[t];
      CreateKeeps(s, t, if outcome.Failure? then FromSmbErrorMessage(outcome.status)
                        else if o.path in s.share then AlreadyExists else o.error, max);
    case Insert =>
      var h := if s.ops[t].error.Ok() then Handle(NoError, -1) else Handle(s.ops[t].error, now);
      InsertKeeps(s, t, h, max);
    case _ => OwnStepKeeps(s, t, now, outcome, max);
  }

  /** A step inside the locker moves the op's own use along its path only. */
  lemma LockStepUse(l: Locker.State, t: Tid, o: Op)
    requires Locker.Enabled(l, t) && LockOk(o, l.uses[t])
    requires (o.stage == Acquiring && l.uses[t].stage != Locker.Holding)
             || (o.stage == Releasing && l.uses[t].stage != Locker.Idle)
    ensures var l' := Locker.Next(l, t, o.path, Locker.Exclusive);
            && t in l'.uses && LockOk(o, l'.uses[t])
            && l'.uses == l.uses[t := l'.uses[t]]
  {}

  lemma LockStepKeeps(s: State, t: Tid, max: nat)
    requires Inv(s, max) && Enabled(s, LockStep(t))
    ensures Inv(Next(s, LockStep(t), max), max)
  {
    assert OpsOk(s);
    var s' := Next(s, LockStep(t), max);
    assert OpOk(s, t, s.ops[t]);
    Locker.StepKeepsInv(s.locker, t, s.ops[t].path, Locker.Exclusive);
    LockStepUse(s.locker, t, s.ops[t]);
    forall u | u in s'.ops ensures OpOk(s', u, s'.ops[u]) {
      LockStepOthers(s, s', t, u);
    }
  }

  lemma LockStepOthers(s: State, s': State, t: Tid, u: Tid)
    requires u in s.ops && OpOk(s, u, s.ops[u]) && s' == s.(locker := s'.locker)
    requires t in s'.locker.uses && s'.locker.uses == s.locker.uses[t := s'.locker.uses[t]]
    requires u == t ==> LockOk(s.ops[u], s'.locker.uses[t])
    ensures OpOk(s', u, s.ops[u])
  {}

  lemma ForeignKeeps(s: State, p: Path, create: bool, max: nat)
    requires Inv(s, max)
    ensures Inv(Next(s, if create then ForeignCreate(p) else ForeignDelete(p), max), max)
  {
    var s' := Next(s, if create then ForeignCreate(p) else ForeignDelete(p), max);
    forall u | u in s'.ops ensures OpOk(s', u, s'.ops[u]) {
      assert OpOk(s, u, s.ops[u]);
    }
  }

  lemma BeginKeeps(s: State, a: Action, max: nat)
    requires Inv(s, max) && a.Begin? && Enabled(s, a)
    ensures Inv(Next(s, a, max), max)
  {
    var s' := Next(s, a, max);
    forall u | u in s'.ops ensures OpOk(s', u, s'.ops[u]) {
      if u != a.t {
        assert OpOk(s, u, s.ops[u]);
      }
    }
  }

  lemma {:induction false} InvInRuns(run: seq<State>, acts: seq<Action>, max: nat, i: nat)
    requires IsRun(run, acts, max) && i < |run|
    ensures Inv(run[i], max)
  {
    if i == 0 {
      Locker.InvInRuns([run[0].locker], 0);
    } else {
      InvInRuns(run, acts, max, i - 1);
      var s, a := run[i - 1], acts[i - 1];
      assert run[i - 1 + 1] == Next(s, a, max);
      match a
      case Begin(_, _, _, _) => BeginKeeps(s, a, max);
      case LockStep(t) => LockStepKeeps(s, t, max);
      case Work(t, now, outcome) => WorkKeeps(s, t, now, outcome, max);
      case ForeignCreate(p) => ForeignKeeps(s, p, true, max);
      case ForeignDelete(p) => ForeignKeeps(s, p, false, max);
    }
  }

  // ---- Main results, for every state of every run ----

  /** At most one op at a time is between its second lookup and its insertion
      for a given path, whatever tasks the ops belong to. */
  lemma OneOpPerPath(run: seq<State>, acts: seq<Action>, max: nat, i: nat, t: Tid, u: Tid)
    requires IsRun(run, acts, max) && i < |run| && t != u && t in run[i].ops && u in run[i].ops
    requires Critical(run[i].ops[t].stage) && Critical(run[i].ops[u].stage)
    ensures run[i].ops[t].path != run[i].ops[u].path
  {
    InvInRuns(run, acts, max, i);
    Exclusion(run[i], t, u, max);
  }

  /** An op that is about to create its file has no success for it in its cache;
      the server has reported the file absent, and it still is unless somebody
      else has changed it since. */
  lemma CreateOnlyIfAbsent(run: seq<State>, acts: seq<Action>, max: nat, i: nat, t: Tid)
    requires IsRun(run, acts, max) && i < |run| && t in run[i].ops && run[i].ops[t].stage == Create
    ensures run[i].ops[t].cache in run[i].caches
    ensures NoSuccess(run[i].caches[run[i].ops[t].cache], run[i].ops[t].path)
    ensures run[i].ops[t].path in run[i].share ==> run[i].ops[t].disturbed
  {
    InvInRuns(run, acts, max, i);
    assert OpOk(run[i], t, run[i].ops[t]);
  }

  lemma EnteringCreate(s: State, a: Action, max: nat, t: Tid)
    requires Enabled(s, a) && t in Next(s, a, max).ops && Next(s, a, max).ops[t].stage == Create
    requires t !in s.ops || s.ops[t].stage != Create
    ensures a.Work? && a.t == t && t in s.ops && s.ops[t].stage == Stat && s.ops[t].path !in s.share
  {
    if a.Work? {
      if a.t != t {
        WorkIsOwn(s, a.t, a.now, a.outcome, max, t);
      } else {
        WorkToCreate(s, t, a.now, a.outcome, max);
      }
    }
  }

  lemma WorkIsOwn(s: State, t: Tid, now: int, outcome: Outcome, max: nat, u: Tid)
    requires Enabled(s, Work(t, now, outcome)) && u != t
    ensures var s' := DoWork(s, t, now, outcome, max);
            (u in s'.ops <==> u in s.ops) && (u in s.ops ==> s'.ops[u] == s.ops[u])
  {
  }

  lemma WorkToCreate(s: State, t: Tid, now: int, outcome: Outcome, max: nat)
    requires Enabled(s, Work(t, now, outcome)) && s.ops[t].stage != Create
    requires DoWork(s, t, now, outcome, max).ops[t].stage == Create
    ensures s.ops[t].stage == Stat && s.ops[t].path !in s.share
  {
  }

  /** An op only gets to create right after a metadata call that found nothing. */
  lemma CreateFollowsAbsentReport(run: seq<State>, acts: seq<Action>, max: nat, i: nat, t: Tid)
    requires IsRun(run, acts, max) && 0 < i < |run| && t in run[i].ops && run[i].ops[t].stage == Create
    requires t !in run[i - 1].ops || run[i - 1].ops[t].stage != Create
    ensures acts[i - 1].Work? && acts[i - 1].t == t
    ensures t in run[i - 1].ops && run[i - 1].ops[t].stage == Stat && run[i - 1].ops[t].path !in run[i - 1].share
  {
    assert run[i - 1 + 1] == Next(run[i - 1], acts[i - 1], max);
    EnteringCreate(run[i - 1], acts[i - 1], max, t);
  }

  /** Insertion replaces at most a cached error, never a cached success. */
  lemma InsertReplacesNoSuccess(run: seq<State>, acts: seq<Action>, max: nat, i: nat, t: Tid)
    requires IsRun(run, acts, max) && i < |run| && t in run[i].ops && run[i].ops[t].stage == Insert
    ensures run[i].ops[t].cache in run[i].caches
    ensures NoSuccess(run[i].caches[run[i].ops[t].cache], run[i].ops[t].path)
  {
    InvInRuns(run, acts, max, i);
    assert OpOk(run[i], t, run[i].ops[t]);
  }

  // ---- The check before an insertion ----

  /** What an observer of a run notes about an op: whether its second lookup found
      an entry, and which other paths have been touched in its cache since its own
      path was last touched there. */
  datatype Watch = Watch(sawEntry: bool, passed: set<Path>)

  /** The path that a step touches in its op's cache. */
  ghost function TouchedBy(s: State, t: Tid): Option<Path>
    requires t in s.ops && s.ops[t].cache in s.caches
  {
    var o := s.ops[t];
    if o.stage == Insert then Some(o.path)
    else if o.stage != FirstLookup && o.stage != SecondLookup then None
    else if o.path in Lru.Keys(s.caches[o.cache]) then Some(o.path)
    else None
  }

  ghost function Observe(s: State, a: Action, t: Tid, w: Watch): Watch
    requires Enabled(s, a)
  {
    if !a.Work? || t !in s.ops || s.ops[a.t].cache != s.ops[t].cache then w
    else if a.t == t && s.ops[t].stage == SecondLookup then Watch(TouchedBy(s, t).Some?, {})
    else
      match TouchedBy(s, a.t)
      case None => w
      case Some(p) => w.(passed := if p == s.ops[t].path then {} else w.passed + {p})
  }

  ghost function WatchAt(run: seq<State>, acts: seq<Action>, max: nat, i: nat, t: Tid): Watch
    requires IsRun(run, acts, max) && i < |run|
  {
    if i == 0 then Watch(false, {})
    else Observe(run[i - 1], acts[i - 1], t, WatchAt(run, acts, max, i - 1, t))
  }

  predicate PastLookup(st: Stage) { Critical(st) && !st.SecondLookup? }

  /** The entry that the second lookup found is in the cache as long as fewer
      than `max` other paths have been touched, and nobody else makes one. */
  ghost predicate WatchOk(c: Cache, p: Path, w: Watch, max: nat) {
    && (!w.sawEntry ==> p !in Lru.Keys(c))
    && (w.sawEntry ==> (p in Lru.Keys(c) <==> |w.passed| < max))
    && (w.sawEntry && p in Lru.Keys(c) ==> Lru.Ahead(c, p) == w.passed)
  }

  ghost predicate OpWatchOk(s: State, t: Tid, w: Watch, max: nat) {
    t in s.ops && PastLookup(s.ops[t].stage) ==>
      var o := s.ops[t];
      o.cache in s.caches && WatchOk(s.caches[o.cache], o.path, w, max)
  }

  lemma FrontWatchOk(c: Cache, p: Path, max: nat)
    requires Lru.Distinct(c) && p in Lru.Keys(c) && 0 < max
    ensures WatchOk(Lru.Apply(c, Lru.Op<Path, Handle>.Lookup(p), 1), p, Watch(true, {}), max)
  {
    var c' := Lru.Apply(c, Lru.Op<Path, Handle>.Lookup(p), 1);
    assert c'[0].key == p && c'[0] in c';
  }

  /** A touch of another path. */
  lemma OtherTouch(c: Cache, op: Lru.Op<Path, Handle>, p: Path, w: Watch, max: nat)
    requires 0 < max && Lru.Distinct(c) && |c| <= max && WatchOk(c, p, w, max)
    requires op.Insert? || (op.Lookup? && op.key in Lru.Keys(c))
    requires op.key != p
    ensures WatchOk(Lru.Apply(c, op, max), p, w.(passed := w.passed + {op.key}), max)
  {
    if p in Lru.Keys(c) {
      Lru.AheadStep(c, op, p, max);
    } else {
      var c' := Lru.Apply(c, op, max);
      Lru.ApplyKeeps(c, op, max);
      forall e | e in c' ensures e.key != p {
        assert e in c || e.key == op.key;
      }
      C.SubsetSize(w.passed, w.passed + {op.key});
    }
  }

  lemma LookupIgnoresMax(c: Cache, p: Path, max: nat)
    ensures Lru.Apply(c, Lru.Op<Path, Handle>.Lookup(p), 1) == Lru.Apply(c, Lru.Op<Path, Handle>.Lookup(p), max)
  {
  }

  /** A lookup by another op. */
  lemma LookupWatch(s: State, u: Tid, t: Tid, now: int, miss: Stage, hit: Stage, w: Watch, max: nat)
    requires CachesOk(s.caches, max) && 0 < max && t in s.ops && u in s.ops && u != t && s.ops[u].cache in s.caches
    requires s.ops[u].stage == FirstLookup || s.ops[u].stage == SecondLookup
    requires PastLookup(s.ops[t].stage) && OpWatchOk(s, t, w, max)
    requires Enabled(s, Work(u, now, Success))
    ensures OpWatchOk(Lookup(s, u, now, miss, hit), t, Observe(s, Work(u, now, Success), t, w), max)
  {
    var c, k, p := s.caches[s.ops[u].cache], s.ops[u].path, s.ops[t].path;
    if s.ops[t].cache == s.ops[u].cache {
      LookupIgnoresMax(c, k, max);
      if k in Lru.Keys(c) {
        if k == p {
          FrontWatchOk(c, p, max);
        } else {
          OtherTouch(c, Lru.Op<Path, Handle>.Lookup(k), p, w, max);
        }
      }
    }
  }

  lemma InsertWatch(s: State, u: Tid, t: Tid, now: int, h: Handle, w: Watch, max: nat)
    requires CachesOk(s.caches, max) && 0 < max && t in s.ops && u in s.ops && u != t && s.ops[u].cache in s.caches
    requires s.ops[u].stage == Insert && s.ops[u].path != s.ops[t].path
    requires PastLookup(s.ops[t].stage) && OpWatchOk(s, t, w, max)
    requires Enabled(s, Work(u, now, Success))
    ensures OpWatchOk(Inserted(s, u, h, max), t, Observe(s, Work(u, now, Success), t, w), max)
  {
    if s.ops[t].cache == s.ops[u].cache {
      OtherTouch(s.caches[s.ops[u].cache], Lru.Insert(s.ops[u].path, h), s.ops[t].path, w, max);
    }
  }

  /** The outcome of a call does not matter to the observer. */
  lemma ObserveWork(s: State, u: Tid, now: int, outcome: Outcome, t: Tid, w: Watch)
    requires Enabled(s, Work(u, now, outcome))
    ensures Enabled(s, Work(u, now, Success))
    ensures Observe(s, Work(u, now, outcome), t, w) == Observe(s, Work(u, now, Success), t, w)
  {
  }

  /** A step of another op. */
  lemma OtherWorkWatch(s: State, u: Tid, now: int, outcome: Outcome, t: Tid, w: Watch, max: nat)
    requires Inv(s, max) && 0 < max && Enabled(s, Work(u, now, outcome)) && u != t && t in s.ops
    requires PastLookup(s.ops[t].stage) && OpWatchOk(s, t, w, max)
    ensures OpWatchOk(DoWork(s, u, now, outcome, max), t, Observe(s, Work(u, now, outcome), t, w), max)
  {
    ObserveWork(s, u, now, outcome, t, w);
    WorkIsOwn(s, u, now, outcome, max, t);
    match s.ops[u].stage
    case FirstLookup => LookupWatch(s, u, t, now, Acquiring, Finished, w, max);
    case SecondLookup =>
      LookupWatch(s, u, t, now, if s.ops[u].makeParent then MakeParent else Stat, Releasing, w, max);
    case Insert =>
      Exclusion(s, t, u, max);
      InsertWatch(s, u, t, now, if s.ops[u].error.Ok() then Handle(NoError, -1) else Handle(s.ops[u].error, now), w,
          max);
    case _ => CachesStay(s, u, now, outcome, max);
  }

  lemma CachesStay(s: State, u: Tid, now: int, outcome: Outcome, max: nat)
    requires Enabled(s, Work(u, now, outcome))
    requires var st := s.ops[u].stage; !st.FirstLookup? && !st.SecondLookup? && !st.Insert?
    ensures DoWork(s, u, now, outcome, max).caches == s.caches
  {
  }

  lemma LookedUpWatch(c: Cache, p: Path, max: nat)
    requires Lru.Distinct(c) && 0 < max
    ensures WatchOk(Lru.Apply(c, Lru.Op<Path, Handle>.Lookup(p), 1), p, Watch(p in Lru.Keys(c), {}), max)
  {
    if p in Lru.Keys(c) {
      FrontWatchOk(c, p, max);
    }
  }

  lemma SecondLookupWatch(s: State, t: Tid, now: int, miss: Stage, w: Watch, max: nat)
    requires CachesOk(s.caches, max) && 0 < max && t in s.ops && s.ops[t].cache in s.caches
    requires s.ops[t].stage == SecondLookup
    ensures OpWatchOk(Lookup(s, t, now, miss, Releasing), t, Watch(TouchedBy(s, t).Some?, {}), max)
  {
    LookedUpWatch(s.caches[s.ops[t].cache], s.ops[t].path, max);
  }

  lemma OwnPathStays(s: State, t: Tid, now: int, outcome: Outcome, max: nat)
    requires Enabled(s, Work(t, now, outcome))
    ensures var s' := DoWork(s, t, now, outcome, max);
            && t in s'.ops && s'.ops[t].path == s.ops[t].path && s'.ops[t].cache == s.ops[t].cache
            && (PastLookup(s'.ops[t].stage) ==> PastLookup(s.ops[t].stage) || s.ops[t].stage == SecondLookup)
            && (s.ops[t].stage == Insert ==> s'.ops[t].stage == Releasing)
  {
    match s.ops[t].stage
    case FirstLookup =>
    case SecondLookup =>
    case Stat =>
    case Create =>
    case _ =>
  }

  /** The op's own step. */
  lemma OwnWorkWatch(s: State, t: Tid, now: int, outcome: Outcome, w: Watch, max: nat)
    requires CachesOk(s.caches, max) && 0 < max && Enabled(s, Work(t, now, outcome)) && OpWatchOk(s, t, w, max)
    ensures OpWatchOk(DoWork(s, t, now, outcome, max), t, Observe(s, Work(t, now, outcome), t, w), max)
  {
    var o := s.ops[t];
    if o.stage == SecondLookup {
      SecondLookupWatch(s, t, now, if o.makeParent then MakeParent else Stat, w, max);
    } else {
      OwnPathStays(s, t, now, outcome, max);
      if PastLookup(o.stage) && o.stage != Insert {
        CachesStay(s, t, now, outcome, max);
      }
    }
  }

  lemma WatchStep(s: State, a: Action, t: Tid, w: Watch, max: nat)
    requires Inv(s, max) && 0 < max && Enabled(s, a) && OpWatchOk(s, t, w, max)
    ensures OpWatchOk(Next(s, a, max), t, Observe(s, a, t, w), max)
  {
    if !a.Work? {
      QuietWatch(s, a, t, w, max);
    } else if a.t == t {
      OwnWorkWatch(s, t, a.now, a.outcome, w, max);
    } else {
      WorkIsOwn(s, a.t, a.now, a.outcome, max, t);
      if t in s.ops && PastLookup(s.ops[t].stage) {
        OtherWorkWatch(s, a.t, a.now, a.outcome, t, w, max);
      }
    }
  }

  lemma QuietWatch(s: State, a: Action, t: Tid, w: Watch, max: nat)
    requires Enabled(s, a) && !a.Work? && OpWatchOk(s, t, w, max)
    ensures OpWatchOk(Next(s, a, max), t, w, max)
  {
  }

  lemma {:induction false} WatchInRuns(run: seq<State>, acts: seq<Action>, max: nat, i: nat, t: Tid)
    requires IsRun(run, acts, max) && i < |run|
    ensures OpWatchOk(run[i], t, WatchAt(run, acts, max, i, t), max)
  {
    if i > 0 {
      WatchInRuns(run, acts, max, i - 1, t);
      InvInRuns(run, acts, max, i - 1);
      assert run[i - 1 + 1] == Next(run[i - 1], acts[i - 1], max);
      WatchStep(run[i - 1], acts[i - 1], t, WatchAt(run, acts, max, i - 1, t), max);
    }
  }

  /** The debug check before an insertion, that the path is not cached, fails if
      and only if the second lookup found an entry and fewer than `max` other
      paths have been touched in the cache since the path itself was. */
  lemma CheckFailsIff(run: seq<State>, acts: seq<Action>, max: nat, i: nat, t: Tid)
    requires IsRun(run, acts, max) && i < |run| && t in run[i].ops && run[i].ops[t].stage == Insert
    ensures run[i].ops[t].cache in run[i].caches
    ensures run[i].ops[t].path in Lru.Keys(run[i].caches[run[i].ops[t].cache]) <==>
            var w := WatchAt(run, acts, max, i, t); w.sawEntry && |w.passed| < max
  {
    WatchInRuns(run, acts, max, i, t);
  }

  /** A path that is looked up without being settled is in the cache exactly if
      there is a stale error for it. */
  lemma UnsettledIsStale(c: Cache, p: Path, now: int)
    requires Lru.Distinct(c) && !Settles(c, p, now)
    ensures p in Lru.Keys(c) <==> exists e :: e in c && e.key == p && !e.value.error.Ok() && IsErrorStale(e.value, now)
  {
    UnsettledIff(c, p, now);
    if p in Lru.Keys(c) {
      var e :| e in c && e.key == p;
    }
  }

  /** The entry that a second lookup finds without being settled by it is a stale
      error. */
  lemma SeenEntryIsStale(s: State, t: Tid, now: int, outcome: Outcome, w: Watch, max: nat)
    requires CachesOk(s.caches, max) && Enabled(s, Work(t, now, outcome)) && s.ops[t].stage == SecondLookup
    requires PastLookup(DoWork(s, t, now, outcome, max).ops[t].stage)
    ensures var o := s.ops[t];
            var c := s.caches[o.cache];
            Observe(s, Work(t, now, outcome), t, w).sawEntry <==>
            exists e :: e in c && e.key == o.path && !e.value.error.Ok() && IsErrorStale(e.value, now)
  {
    UnsettledIsStale(s.caches[s.ops[t].cache], s.ops[t].path, now);
  }

  // ---- A run that fails the check ----

  const FILE := "f"

  /** One thread, one cache; the op of thread 0 in stage `st`. */
  ghost function Lone(locker: Locker.State, c: Cache, st: Stage, error: Error): State {
    State(locker, map[0 := c], {}, map[0 := Op(FILE, 0, false, st, error, false, false)])
  }

  ghost function QuietLocker(u: Locker.Use, n: nat): Locker.State {
    Locker.State(None, map[], map[], n, map[0 := u])
  }

  ghost function HeldLocker(n: nat): Locker.State {
    Locker.State(None, map[FILE := Locker.IdState(0, 1, n)], map[n := Locker.Mutex(FILE, 0, true)], n + 1,
                 map[0 := Locker.Use(Locker.Holding, FILE, Locker.Exclusive, n)])
  }

  ghost function LastOf(run: seq<State>): State
    requires run != []
  {
    run[|run| - 1]
  }

  /** The clock readings of a run never go back and are at most `now`. */
  ghost predicate TimeGoesOn(acts: seq<Action>, now: int) {
    && (forall i :: 0 <= i < |acts| && acts[i].Work? ==> acts[i].now <= now)
    && (forall i, j :: 0 <= i < j < |acts| && acts[i].Work? && acts[j].Work? ==> acts[i].now <= acts[j].now)
  }

  /** A run that ends in `s`, by the time `now`. */
  ghost predicate RunTo(run: seq<State>, acts: seq<Action>, max: nat, s: State, now: int) {
    IsRun(run, acts, max) && LastOf(run) == s && TimeGoesOn(acts, now)
  }

  ghost predicate Leads(s: State, a: Action, max: nat, t: State) {
    Enabled(s, a) && Next(s, a, max) == t
  }

  lemma TimePush(acts: seq<Action>, a: Action, now: int, later: int)
    requires TimeGoesOn(acts, now) && now <= later && (a.Work? ==> a.now == later)
    ensures TimeGoesOn(acts + [a], later)
  {
  }

  lemma RunPush(run: seq<State>, acts: seq<Action>, max: nat, a: Action, t: State)
    requires IsRun(run, acts, max) && Leads(LastOf(run), a, max, t)
    ensures IsRun(run + [t], acts + [a], max)
  {
    var run', acts' := run + [t], acts + [a];
    forall i | 0 <= i < |acts'| ensures Enabled(run'[i], acts'[i]) && run'[i + 1] == Next(run'[i], acts'[i], max) {
      if i < |acts| {
        assert run'[i] == run[i] && acts'[i] == acts[i] && run'[i + 1] == run[i + 1];
      }
    }
  }

  lemma Extend(run: seq<State>, acts: seq<Action>, max: nat, s: State, now: int, a: Action, t: State, later: int)
    returns (run': seq<State>, acts': seq<Action>)
    requires RunTo(run, acts, max, s, now) && Leads(s, a, max, t) && now <= later && (a.Work? ==> a.now == later)
    ensures RunTo(run', acts', max, t, later)
  {
    RunPush(run, acts, max, a, t);
    TimePush(acts, a, now, later);
    run', acts' := run + [t], acts + [a];
  }

  /** Steps of thread 0 inside the locker, from one locker state to the next. */
  ghost predicate IsLockPath(ls: seq<Locker.State>, st: Stage) {
    && ls != []
    && forall i :: 0 <= i < |ls| - 1 ==> LockMove(ls[i], ls[i + 1], st)
  }

  ghost predicate LockMove(l: Locker.State, l': Locker.State, st: Stage) {
    && Locker.Enabled(l, 0) && l' == Locker.Next(l, 0, FILE, Locker.Exclusive)
    && ((st == Acquiring && l.uses[0].stage != Locker.Holding) || (st == Releasing && l.uses[0].stage != Locker.Idle))
  }

  lemma LockLeads(l: Locker.State, l': Locker.State, c: Cache, st: Stage, error: Error, max: nat)
    requires LockMove(l, l', st)
    ensures Leads(Lone(l, c, st, error), LockStep(0), max, Lone(l', c, st, error))
  {
  }

  lemma {:induction false} LockRun(run: seq<State>, acts: seq<Action>, max: nat, now: int, ls: seq<Locker.State>,
                                   n: nat, c: Cache, st: Stage, error: Error)
    returns (run': seq<State>, acts': seq<Action>)
    requires IsLockPath(ls, st) && n < |ls| && RunTo(run, acts, max, Lone(ls[0], c, st, error), now)
    ensures RunTo(run', acts', max, Lone(ls[n], c, st, error), now)
  {
    if n == 0 {
      run', acts' := run, acts;
    } else {
      run', acts' := LockRun(run, acts, max, now, ls, n - 1, c, st, error);
      assert LockMove(ls[n - 1], ls[n - 1 + 1], st);
      LockLeads(ls[n - 1], ls[n], c, st, error, max);
      run', acts' := Extend(run', acts', max, Lone(ls[n - 1], c, st, error), now, LockStep(0),
                            Lone(ls[n], c, st, error), now);
    }
  }

  ghost function LoneUse(st: Locker.Stage, n: nat): map<Tid, Locker.Use> {
    map[0 := Locker.Use(st, FILE, Locker.Exclusive, n)]
  }

  ghost function AcquirePath(u: Locker.Use, n: nat): seq<Locker.State> {
    var ids, ms := map[FILE := Locker.IdState(0, 1, n)], map[n := Locker.Mutex(FILE, 0, false)];
    [QuietLocker(u, n),
     Locker.State(None, map[], map[], n, LoneUse(Locker.AcqWantGlobal, 0)),
     Locker.State(Some(0), map[], map[], n, LoneUse(Locker.AcqInGlobal, 0)),
     Locker.State(Some(0), ids, ms, n + 1, LoneUse(Locker.AcqCounted, n)),
     Locker.State(None, ids, ms, n + 1, LoneUse(Locker.AcqWaiting, n)),
     HeldLocker(n)]
  }

  ghost function ReleasePath(n: nat): seq<Locker.State> {
    var ids, ms := map[FILE := Locker.IdState(0, 1, n)], map[n := Locker.Mutex(FILE, 0, true)];
    var ids', ms' := map[FILE := Locker.IdState(0, 0, n)], map[n := Locker.Mutex(FILE, 0, false)];
    [HeldLocker(n),
     Locker.State(None, ids, ms, n + 1, LoneUse(Locker.RelWantGlobal, n)),
     Locker.State(Some(0), ids, ms, n + 1, LoneUse(Locker.RelInGlobal, n)),
     Locker.State(Some(0), ids', ms, n + 1, LoneUse(Locker.RelCounted, n)),
     Locker.State(Some(0), ids', ms', n + 1, LoneUse(Locker.RelUnlocked, n)),
     Locker.State(Some(0), map[], map[], n + 1, LoneUse(Locker.RelCleaned, n)),
     QuietLocker(Locker.Use(Locker.Idle, FILE, Locker.Exclusive, n), n + 1)]
  }

  lemma AcquireMove(u: Locker.Use, n: nat, i: nat)
    requires u.stage == Locker.Idle && i < 5
    ensures LockMove(AcquirePath(u, n)[i], AcquirePath(u, n)[i + 1], Acquiring)
  {
  }

  lemma AcquirePathOk(u: Locker.Use, n: nat)
    requires u.stage == Locker.Idle
    ensures IsLockPath(AcquirePath(u, n), Acquiring)
  {
    forall i | 0 <= i < 5 ensures LockMove(AcquirePath(u, n)[i], AcquirePath(u, n)[i + 1], Acquiring) {
      AcquireMove(u, n, i);
    }
  }

  lemma EarlyReleaseMove(n: nat, i: nat)
    requires i < 3
    ensures LockMove(ReleasePath(n)[i], ReleasePath(n)[i + 1], Releasing)
  {
  }

  lemma LateReleaseMove(n: nat, i: nat)
    requires 3 <= i < 6
    ensures LockMove(ReleasePath(n)[i], ReleasePath(n)[i + 1], Releasing)
  {
  }

  lemma ReleasePathOk(n: nat)
    ensures IsLockPath(ReleasePath(n), Releasing)
  {
    forall i | 0 <= i < 6 ensures LockMove(ReleasePath(n)[i], ReleasePath(n)[i + 1], Releasing) {
      if i < 3 {
        EarlyReleaseMove(n, i);
      } else {
        LateReleaseMove(n, i);
      }
    }
  }

  /** Thread 0 takes the path's lock. */
  lemma AcquireRun(run: seq<State>, acts: seq<Action>, max: nat, now: int, u: Locker.Use, n: nat, c: Cache)
    returns (run': seq<State>, acts': seq<Action>)
    requires u.stage == Locker.Idle && RunTo(run, acts, max, Lone(QuietLocker(u, n), c, Acquiring, NoError), now)
    ensures RunTo(run', acts', max, Lone(HeldLocker(n), c, Acquiring, NoError), now)
  {
    AcquirePathOk(u, n);
    run', acts' := LockRun(run, acts, max, now, AcquirePath(u, n), 5, c, Acquiring, NoError);
  }

  ghost function IdleUse(n: nat): Locker.Use { Locker.Use(Locker.Idle, FILE, Locker.Exclusive, n) }

  /** Thread 0 gives the lock back. */
  lemma ReleaseRun(run: seq<State>, acts: seq<Action>, max: nat, now: int, n: nat, c: Cache, error: Error)
    returns (run': seq<State>, acts': seq<Action>)
    requires RunTo(run, acts, max, Lone(HeldLocker(n), c, Releasing, error), now)
    ensures RunTo(run', acts', max, Lone(QuietLocker(IdleUse(n), n + 1), c, Releasing, error), now)
  {
    ReleasePathOk(n);
    run', acts' := LockRun(run, acts, max, now, ReleasePath(n), 6, c, Releasing, error);
  }

  /** A cache whose only entry is an error of time 0. */
  ghost function StaleCache(): Cache { [Lru.Entry(FILE, Handle(PermissionDenied, 0))] }

  ghost predicate Unsettling(c: Cache, now: int) {
    c == [] || (c == StaleCache() && now > ERROR_CACHE_USECS)
  }

  lemma StaleLookup(c: Cache, now: int)
    requires Unsettling(c, now)
    ensures !Settles(c, FILE, now) && Lru.Apply(c, Lru.Op<Path, Handle>.Lookup(FILE), 1) == c
  {
    if c == StaleCache() {
      assert c[0] in c && c[1..] == [];
      assert Lru.Find(c, FILE) == c[0];
      assert Lru.Without(c, FILE) == [];
    }
  }

  lemma FirstLookupLeads(u: Locker.Use, n: nat, c: Cache, now: int, max: nat)
    requires u.stage == Locker.Idle && Unsettling(c, now)
    ensures var l := QuietLocker(u, n);
            Leads(Lone(l, c, FirstLookup, NoError), Work(0, now, Success), max, Lone(l, c, Acquiring, NoError))
  {
    StaleLookup(c, now);
  }

  lemma HeldLeads(n: nat, c: Cache, now: int, max: nat)
    ensures var l := HeldLocker(n);
            Leads(Lone(l, c, Acquiring, NoError), Work(0, now, Success), max, Lone(l, c, SecondLookup, NoError))
  {
  }

  lemma SecondLookupLeads(n: nat, c: Cache, now: int, max: nat)
    requires Unsettling(c, now)
    ensures var l := HeldLocker(n);
            Leads(Lone(l, c, SecondLookup, NoError), Work(0, now, Success), max, Lone(l, c, Stat, NoError))
  {
    StaleLookup(c, now);
  }

  lemma DeniedLeads(n: nat, c: Cache, now: int, max: nat)
    ensures var l := HeldLocker(n);
            Leads(Lone(l, c, Stat, NoError), Work(0, now, Failure(ACCESS_DENIED)), max,
                  Lone(l, c, Insert, PermissionDenied))
  {
  }

  lemma InsertLeads(n: nat, max: nat)
    requires 0 < max
    ensures var l := HeldLocker(n);
            Leads(Lone(l, [], Insert, PermissionDenied), Work(0, 0, Success), max,
                  Lone(l, StaleCache(), Releasing, PermissionDenied))
  {
    assert Lru.Apply([], Lru.Insert(FILE, Handle(PermissionDenied, 0)), max) == StaleCache();
  }

  lemma FinishLeads(n: nat, c: Cache, max: nat)
    ensures var l := QuietLocker(IdleUse(n), n + 1);
            Leads(Lone(l, c, Releasing, PermissionDenied), Work(0, 0, Success), max,
                  Lone(l, c, Finished, PermissionDenied))
  {
  }

  lemma BeginLeads(n: nat, c: Cache, max: nat)
    ensures var l := QuietLocker(IdleUse(n), n + 1);
            Leads(Lone(l, c, Finished, PermissionDenied), Begin(0, FILE, 0, false), max,
                  Lone(l, c, FirstLookup, NoError))
  {
  }

  lemma FirstBegin(max: nat) returns (run: seq<State>, acts: seq<Action>)
    requires 0 < max
    ensures RunTo(run, acts, max, Lone(QuietLocker(IdleUse(0), 0), [], FirstLookup, NoError), 0)
  {
    var s := State(QuietLocker(IdleUse(0), 0), map[], {}, map[]);
    run, acts := [s], [];
    run, acts := Extend(run, acts, max, s, 0, Begin(0, FILE, 0, false),
                        Lone(QuietLocker(IdleUse(0), 0), [], FirstLookup, NoError), 0);
  }

  /** From the first lookup to the insertion, when neither lookup settles the op
      and the metadata call is denied, all at the time `now`. */
  lemma ToInsertRun(run: seq<State>, acts: seq<Action>, max: nat, before: int, u: Locker.Use, n: nat, c: Cache,
                    now: int)
    returns (run': seq<State>, acts': seq<Action>)
    requires u.stage == Locker.Idle && Unsettling(c, now) && before <= now
    requires RunTo(run, acts, max, Lone(QuietLocker(u, n), c, FirstLookup, NoError), before)
    ensures RunTo(run', acts', max, Lone(HeldLocker(n), c, Insert, PermissionDenied), now)
  {
    var l, h := QuietLocker(u, n), HeldLocker(n);
    FirstLookupLeads(u, n, c, now, max);
    run', acts' := Extend(run, acts, max, Lone(l, c, FirstLookup, NoError), before, Work(0, now, Success),
                          Lone(l, c, Acquiring, NoError), now);
    run', acts' := AcquireRun(run', acts', max, now, u, n, c);
    HeldLeads(n, c, now, max);
    run', acts' := Extend(run', acts', max, Lone(h, c, Acquiring, NoError), now, Work(0, now, Success),
                          Lone(h, c, SecondLookup, NoError), now);
    SecondLookupLeads(n, c, now, max);
    run', acts' := Extend(run', acts', max, Lone(h, c, SecondLookup, NoError), now, Work(0, now, Success),
                          Lone(h, c, Stat, NoError), now);
    DeniedLeads(n, c, now, max);
    run', acts' := Extend(run', acts', max, Lone(h, c, Stat, NoError), now, Work(0, now, Failure(ACCESS_DENIED)),
                          Lone(h, c, Insert, PermissionDenied), now);
  }

  /** From the insertion of the error to the end of the release. */
  lemma InsertedRun(run: seq<State>, acts: seq<Action>, max: nat) returns (run': seq<State>, acts': seq<Action>)
    requires 0 < max && RunTo(run, acts, max, Lone(HeldLocker(0), [], Insert, PermissionDenied), 0)
    ensures RunTo(run', acts', max, Lone(QuietLocker(IdleUse(0), 1), StaleCache(), Releasing, PermissionDenied), 0)
  {
    InsertLeads(0, max);
    run', acts' := Extend(run, acts, max, Lone(HeldLocker(0), [], Insert, PermissionDenied), 0, Work(0, 0, Success),
                          Lone(HeldLocker(0), StaleCache(), Releasing, PermissionDenied), 0);
    run', acts' := ReleaseRun(run', acts', max, 0, 0, StaleCache(), PermissionDenied);
  }

  /** From there to the next op on the path. */
  lemma ToNextOpRun(run: seq<State>, acts: seq<Action>, max: nat, c: Cache)
    returns (run': seq<State>, acts': seq<Action>)
    requires RunTo(run, acts, max, Lone(QuietLocker(IdleUse(0), 1), c, Releasing, PermissionDenied), 0)
    ensures RunTo(run', acts', max, Lone(QuietLocker(IdleUse(0), 1), c, FirstLookup, NoError), 0)
  {
    var l := QuietLocker(IdleUse(0), 1);
    FinishLeads(0, c, max);
    run', acts' := Extend(run, acts, max, Lone(l, c, Releasing, PermissionDenied), 0, Work(0, 0, Success),
                          Lone(l, c, Finished, PermissionDenied), 0);
    BeginLeads(0, c, max);
    run', acts' := Extend(run', acts', max, Lone(l, c, Finished, PermissionDenied), 0, Begin(0, FILE, 0, false),
                          Lone(l, c, FirstLookup, NoError), 0);
  }

  /** An error is cached at time 0, gets stale, and the next op on the path finds it
      at both lookups: the check before its insertion fails, with any cache size. */
  lemma FailingCheckRun(max: nat) returns (run: seq<State>, acts: seq<Action>)
    requires 0 < max
    ensures IsRun(run, acts, max) && TimeGoesOn(acts, ERROR_CACHE_USECS + 1)
    ensures var s := LastOf(run);
            && 0 in s.ops && s.ops[0].stage == Insert && s.ops[0].cache in s.caches
            && s.ops[0].path in Lru.Keys(s.caches[s.ops[0].cache])
  {
    run, acts := FirstBegin(max);
    run, acts := ToInsertRun(run, acts, max, 0, IdleUse(0), 0, [], 0);
    run, acts := InsertedRun(run, acts, max);
    run, acts := ToNextOpRun(run, acts, max, StaleCache());
    run, acts := ToInsertRun(run, acts, max, 0, IdleUse(0), 1, StaleCache(), ERROR_CACHE_USECS + 1);
    assert StaleCache()[0] in StaleCache();
  }
}
