/** The per-id reader/writer locker as interleaved steps. Each lock use is a
    thread that acquires an id, holds it and releases it; a thread that holds
    several ids at once is several uses. Mutexes live in a heap of their own,
    so that erasing an id's state destroys its mutex and re-creating the id
    makes another one. */
module IdLocker {
  import opened Status

  type Id = string
  type Tid = nat
  type Ref = nat

  datatype Mode = Shared | Exclusive

  datatype IdState = IdState(readers: int, writers: int, mutex: Ref)

  /** A per-id mutex, with the id it was made for. */
  datatype Mutex = Mutex(owner: Id, shared: nat, exclusive: bool)

  datatype Stage =
    | Idle
    | AcqWantGlobal  // about to lock the locker's own mutex
    | AcqInGlobal
    | AcqCounted     // count raised, global mutex still held
    | AcqWaiting     // blocked on the per-id mutex
    | Holding
    | RelWantGlobal
    | RelInGlobal
    | RelCounted     // count lowered, per-id mutex still locked
    | RelUnlocked
    | RelCleaned     // cleanup done, global mutex still held

  /** Holds the locker's own mutex. */
  predicate InGlobal(st: Stage) {
    st.AcqInGlobal? || st.AcqCounted? || st.RelInGlobal? || st.RelCounted? || st.RelUnlocked? || st.RelCleaned?
  }

  /** Is included in the reader or writer count of its id. */
  predicate Counted(st: Stage) {
    st.AcqCounted? || st.AcqWaiting? || st.Holding? || st.RelWantGlobal? || st.RelInGlobal?
  }

  /** Has locked its per-id mutex and not unlocked it. */
  predicate Locked(st: Stage) {
    st.Holding? || st.RelWantGlobal? || st.RelInGlobal? || st.RelCounted?
  }

  /** Refers to the state of its id. */
  predicate Refers(st: Stage) {
    Counted(st) || st.RelCounted? || st.RelUnlocked?
  }

  /** A lock use; `ref` is the per-id mutex it refers to. */
  datatype Use = Use(stage: Stage, id: Id, mode: Mode, ref: Ref)

  type Uses = map<Tid, Use>

  datatype State = State(global: Option<Tid>, idMap: map<Id, IdState>, mutexes: map<Ref, Mutex>,
                         nextRef: Ref, uses: Uses)

  ghost predicate Init(s: State) {
    && s.global == None && s.idMap == map[] && s.mutexes == map[]
    && forall t :: t in s.uses ==> s.uses[t].stage == Idle
  }

  /** `id_map_[id]`: creates a fresh state, with a fresh mutex, if there is none. */
  function Entry(s: State, id: Id): State {
    if id in s.idMap then s else
      s.(idMap := s.idMap[id := IdState(0, 0, s.nextRef)],
         mutexes := s.mutexes[s.nextRef := Mutex(id, 0, false)],
         nextRef := s.nextRef + 1)
  }

  function Bump(e: IdState, mode: Mode, d: int): IdState {
    if mode == Shared then e.(readers := e.readers + d) else e.(writers := e.writers + d)
  }

  /** The per-id mutex lets this mode in. */
  predicate CanLock(m: Mutex, mode: Mode) {
    !m.exclusive && (mode == Exclusive ==> m.shared == 0)
  }

  function Lock(m: Mutex, mode: Mode): Mutex {
    if mode == Shared then m.(shared := m.shared + 1) else m.(exclusive := true)
  }

  function Unlock(m: Mutex, mode: Mode): Mutex {
    if mode == Shared then m.(shared := if m.shared > 0 then m.shared - 1 else 0) else m.(exclusive := false)
  }

  /** A step of thread `t` is possible: only taking a mutex can block. A per-id
      mutex that no longer exists can be neither taken nor given back. */
  predicate Enabled(s: State, t: Tid) {
    && t in s.uses
    && var u := s.uses[t];
       match u.stage
       case AcqWantGlobal => s.global.None?
       case RelWantGlobal => s.global.None?
       case AcqWaiting => u.ref in s.mutexes && CanLock(s.mutexes[u.ref], u.mode)
       case RelCounted => u.ref in s.mutexes
       case _ => true
  }

  /** The step itself; `id` and `mode` are used when an idle thread starts. */
  function Next(s: State, t: Tid, id: Id, mode: Mode): State
    requires Enabled(s, t)
  {
    var u := s.uses[t];
    match u.stage
    case Idle => s.(uses := s.uses[t := Use(AcqWantGlobal, id, mode, 0)])
    case AcqWantGlobal => s.(global := Some(t), uses := s.uses[t := u.(stage := AcqInGlobal)])
    case AcqInGlobal =>
      var s' := Entry(s, u.id);
      s'.(idMap := s'.idMap[u.id := Bump(s'.idMap[u.id], u.mode, 1)],
          uses := s.uses[t := u.(stage := AcqCounted, ref := s'.idMap[u.id].mutex)])
    case AcqCounted => s.(global := None, uses := s.uses[t := u.(stage := AcqWaiting)])
    case AcqWaiting =>
      s.(mutexes := s.mutexes[u.ref := Lock(s.mutexes[u.ref], u.mode)], uses := s.uses[t := u.(stage := Holding)])
    case Holding => s.(uses := s.uses[t := u.(stage := RelWantGlobal)])
    case RelWantGlobal => s.(global := Some(t), uses := s.uses[t := u.(stage := RelInGlobal)])
    case RelInGlobal =>
      var s' := Entry(s, u.id);
      s'.(idMap := s'.idMap[u.id := Bump(s'.idMap[u.id], u.mode, -1)],
          uses := s.uses[t := u.(stage := RelCounted, ref := s'.idMap[u.id].mutex)])
    case RelCounted =>
      s.(mutexes := s.mutexes[u.ref := Unlock(s.mutexes[u.ref], u.mode)], uses := s.uses[t := u.(stage := RelUnlocked)])
    case RelUnlocked =>
      var s' := s.(uses := s.uses[t := u.(stage := RelCleaned)]);
      if u.id in s.idMap && s.idMap[u.id].readers == 0 && s.idMap[u.id].writers == 0
      then s'.(idMap := s.idMap - {u.id}, mutexes := s.mutexes - {s.idMap[u.id].mutex})
      else s'
    case RelCleaned => s.(global := None, uses := s.uses[t := u.(stage := Idle)])
  }

  ghost predicate Step(s: State, s': State) {
    exists t, id, mode :: Enabled(s, t) && s' == Next(s, t, id, mode)
  }

  ghost predicate IsRun(run: seq<State>) {
    |run| > 0 && Init(run[0]) && forall i :: 0 <= i < |run| - 1 ==> Step(run[i], run[i + 1])
  }

  // ---- Invariant ----

  ghost predicate IsUser(u: Use, id: Id, mode: Mode) { Counted(u.stage) && u.id == id && u.mode == mode }

  ghost predicate IsLocker(u: Use, ref: Ref, mode: Mode) { Locked(u.stage) && u.ref == ref && u.mode == mode }

  ghost predicate RefersTo(u: Use, id: Id) { Refers(u.stage) && u.id == id }

  /** Holders and waiters of an id in one mode. */
  ghost function Users(uses: Uses, id: Id, mode: Mode): set<Tid> {
    set t | t in uses && IsUser(uses[t], id, mode)
  }

  ghost function Lockers(uses: Uses, ref: Ref, mode: Mode): set<Tid> {
    set t | t in uses && IsLocker(uses[t], ref, mode)
  }

  ghost predicate GlobalInv(uses: Uses, global: Option<Tid>) {
    && (global.Some? ==> global.value in uses)
    && (forall t :: t in uses ==> (InGlobal(uses[t].stage) <==> global == Some(t)))
  }

  /** All threads that refer to an id share the one mutex of that id. */
  ghost predicate RefInv(uses: Uses, idMap: map<Id, IdState>) {
    forall t :: t in uses && Refers(uses[t].stage) ==>
      uses[t].id in idMap && idMap[uses[t].id].mutex == uses[t].ref
  }

  /** Ids and live mutexes correspond one to one. */
  ghost predicate HeapInv(idMap: map<Id, IdState>, mutexes: map<Ref, Mutex>, nextRef: Ref) {
    && (forall i :: i in idMap ==> idMap[i].mutex in mutexes && mutexes[idMap[i].mutex].owner == i)
    && (forall r :: r in mutexes ==>
          r < nextRef && mutexes[r].owner in idMap && idMap[mutexes[r].owner].mutex == r)
  }

  ghost predicate CountInv(uses: Uses, idMap: map<Id, IdState>) {
    forall i :: i in idMap ==>
      idMap[i].readers == |Users(uses, i, Shared)| && idMap[i].writers == |Users(uses, i, Exclusive)|
  }

  /** Thread `t` has lowered its count and has yet to clean up the id. */
  ghost predicate Cleaning(uses: Uses, t: Option<Tid>, id: Id) {
    && t.Some? && t.value in uses && uses[t.value].id == id
    && (uses[t.value].stage == RelCounted || uses[t.value].stage == RelUnlocked)
  }

  /** An id is in the map only while it is counted or about to be cleaned up. */
  ghost predicate UsedInv(uses: Uses, idMap: map<Id, IdState>, global: Option<Tid>) {
    forall i :: i in idMap ==> idMap[i].readers != 0 || idMap[i].writers != 0 || Cleaning(uses, global, i)
  }

  ghost predicate MutexOk(m: Mutex, readers: set<Tid>, writers: set<Tid>) {
    && m.shared == |readers|
    && (m.exclusive ==> readers == {} && |writers| == 1)
    && (!m.exclusive ==> writers == {})
  }

  ghost predicate MutexInv(uses: Uses, mutexes: map<Ref, Mutex>) {
    forall r :: r in mutexes ==> MutexOk(mutexes[r], Lockers(uses, r, Shared), Lockers(uses, r, Exclusive))
  }

  ghost predicate Inv(s: State) {
    && GlobalInv(s.uses, s.global)
    && RefInv(s.uses, s.idMap)
    && HeapInv(s.idMap, s.mutexes, s.nextRef)
    && CountInv(s.uses, s.idMap)
    && UsedInv(s.uses, s.idMap, s.global)
    && MutexInv(s.uses, s.mutexes)
  }

  /** Moving one thread changes a user set by that thread only. */
  lemma UsersMove(uses: Uses, t: Tid, u: Use, id: Id, mode: Mode)
    requires t in uses
    ensures |Users(uses[t := u], id, mode)| == |Users(uses, id, mode)|
            + (if IsUser(u, id, mode) then 1 else 0) - (if IsUser(uses[t], id, mode) then 1 else 0)
  {
    var a, b := Users(uses, id, mode), Users(uses[t := u], id, mode);
    assert b == if IsUser(u, id, mode) then a + {t} else a - {t};
  }

  lemma LockersMove(uses: Uses, t: Tid, u: Use, ref: Ref, mode: Mode)
    requires t in uses
    ensures Lockers(uses[t := u], ref, mode) ==
            if IsLocker(u, ref, mode) then Lockers(uses, ref, mode) + {t} else Lockers(uses, ref, mode) - {t}
  {}

  /** The thread stays in the same user set and in the same locker set. */
  ghost predicate SameUse(u: Use, v: Use) {
    Counted(u.stage) == Counted(v.stage) && (Counted(u.stage) ==> u.id == v.id && u.mode == v.mode)
  }

  ghost predicate SameLock(u: Use, v: Use) {
    Locked(u.stage) == Locked(v.stage) && (Locked(u.stage) ==> u.ref == v.ref && u.mode == v.mode)
  }

  lemma SameUsers(uses: Uses, t: Tid, u: Use, idMap: map<Id, IdState>)
    requires t in uses && SameUse(uses[t], u) && CountInv(uses, idMap)
    ensures CountInv(uses[t := u], idMap)
  {
    var uses' := uses[t := u];
    forall i | i in idMap
      ensures idMap[i].readers == |Users(uses', i, Shared)| && idMap[i].writers == |Users(uses', i, Exclusive)|
    {
      UsersMove(uses, t, u, i, Shared);
      UsersMove(uses, t, u, i, Exclusive);
    }
  }

  lemma SameLockers(uses: Uses, t: Tid, u: Use, mutexes: map<Ref, Mutex>)
    requires t in uses && SameLock(uses[t], u) && MutexInv(uses, mutexes)
    ensures MutexInv(uses[t := u], mutexes)
  {
    var uses' := uses[t := u];
    forall r | r in mutexes
      ensures MutexOk(mutexes[r], Lockers(uses', r, Shared), Lockers(uses', r, Exclusive))
    {
      assert Lockers(uses', r, Shared) == Lockers(uses, r, Shared);
      assert Lockers(uses', r, Exclusive) == Lockers(uses, r, Exclusive);
    }
  }

  lemma GlobalMove(uses: Uses, t: Tid, u: Use, g: Option<Tid>, g': Option<Tid>)
    requires GlobalInv(uses, g) && t in uses && (InGlobal(u.stage) <==> g' == Some(t))
    requires g' == g || (g == None && g' == Some(t)) || (g == Some(t) && g' == None)
    ensures GlobalInv(uses[t := u], g')
  {}

  lemma RefMove(uses: Uses, t: Tid, u: Use, idMap: map<Id, IdState>)
    requires RefInv(uses, idMap) && t in uses
    requires Refers(u.stage) ==> u.id in idMap && idMap[u.id].mutex == u.ref
    ensures RefInv(uses[t := u], idMap)
  {}

  lemma UsedMove(uses: Uses, t: Tid, u: Use, idMap: map<Id, IdState>, g: Option<Tid>, g': Option<Tid>)
    requires UsedInv(uses, idMap, g) && t in uses && (g' == g || g == None || g == Some(t))
    requires Cleaning(uses, Some(t), uses[t].id) ==> g' == g && u.id == uses[t].id && u.stage == RelUnlocked
    ensures UsedInv(uses[t := u], idMap, g')
  {}

  /** Steps that touch neither counts nor mutexes nor what a thread refers to. */
  lemma QuietMove(s: State, t: Tid, u: Use, g: Option<Tid>)
    requires Inv(s) && t in s.uses && SameUse(s.uses[t], u) && SameLock(s.uses[t], u)
    requires Refers(u.stage) <==> Refers(s.uses[t].stage)
    requires Refers(u.stage) ==> u.id == s.uses[t].id && u.ref == s.uses[t].ref
    requires InGlobal(u.stage) <==> g == Some(t)
    requires g == s.global || (s.global == None && g == Some(t)) || (s.global == Some(t) && g == None)
    requires s.uses[t].stage != RelCounted && s.uses[t].stage != RelUnlocked
    ensures Inv(s.(global := g, uses := s.uses[t := u]))
  {
    GlobalMove(s.uses, t, u, s.global, g);
    RefMove(s.uses, t, u, s.idMap);
    SameUsers(s.uses, t, u, s.idMap);
    SameLockers(s.uses, t, u, s.mutexes);
    UsedMove(s.uses, t, u, s.idMap, s.global, g);
  }

  /** Creating the state of an absent id gives it a fresh, unlocked mutex. */
  lemma EntryHeap(s: State, id: Id)
    requires HeapInv(s.idMap, s.mutexes, s.nextRef)
    ensures var e := Entry(s, id); HeapInv(e.idMap, e.mutexes, e.nextRef)
  {}

  lemma EntryCounts(s: State, id: Id)
    requires RefInv(s.uses, s.idMap) && CountInv(s.uses, s.idMap)
    ensures RefInv(s.uses, Entry(s, id).idMap) && CountInv(s.uses, Entry(s, id).idMap)
  {
    if id !in s.idMap {
      assert Users(s.uses, id, Shared) == {} && Users(s.uses, id, Exclusive) == {};
    }
  }

  lemma EntryMutexes(s: State, id: Id)
    requires RefInv(s.uses, s.idMap) && HeapInv(s.idMap, s.mutexes, s.nextRef) && MutexInv(s.uses, s.mutexes)
    ensures MutexInv(s.uses, Entry(s, id).mutexes)
  {
    if id !in s.idMap {
      assert Lockers(s.uses, s.nextRef, Shared) == {} && Lockers(s.uses, s.nextRef, Exclusive) == {};
    }
  }

  /** Changing one id's counts leaves references and the heap alone. */
  lemma SameHeap(idMap: map<Id, IdState>, i: Id, e: IdState, mutexes: map<Ref, Mutex>, nextRef: Ref)
    requires HeapInv(idMap, mutexes, nextRef) && i in idMap && e.mutex == idMap[i].mutex
    ensures HeapInv(idMap[i := e], mutexes, nextRef)
  {}

  lemma SameRefs(uses: Uses, idMap: map<Id, IdState>, i: Id, e: IdState)
    requires RefInv(uses, idMap) && i in idMap && e.mutex == idMap[i].mutex
    ensures RefInv(uses, idMap[i := e])
  {}

  /** Raising or lowering a count together with the thread's membership. */
  lemma CountMove(uses: Uses, t: Tid, u: Use, idMap: map<Id, IdState>, d: int)
    requires CountInv(uses, idMap) && t in uses && u.id in idMap && u.id == uses[t].id && u.mode == uses[t].mode
    requires d == (if Counted(u.stage) then 1 else 0) - (if Counted(uses[t].stage) then 1 else 0)
    ensures CountInv(uses[t := u], idMap[u.id := Bump(idMap[u.id], u.mode, d)])
  {
    var uses', idMap' := uses[t := u], idMap[u.id := Bump(idMap[u.id], u.mode, d)];
    forall i | i in idMap'
      ensures idMap'[i].readers == |Users(uses', i, Shared)| && idMap'[i].writers == |Users(uses', i, Exclusive)|
    {
      UsersMove(uses, t, u, i, Shared);
      UsersMove(uses, t, u, i, Exclusive);
    }
  }

  /** Looking up the id's state changes nothing but that it is there. */
  lemma EntryKeeps(s: State, id: Id, e: State)
    requires Inv(s) && e == Entry(s, id)
    ensures RefInv(s.uses, e.idMap) && CountInv(s.uses, e.idMap) && MutexInv(s.uses, e.mutexes)
    ensures HeapInv(e.idMap, e.mutexes, e.nextRef)
    ensures id in e.idMap && forall i :: i in e.idMap && i != id ==> i in s.idMap && e.idMap[i] == s.idMap[i]
  {
    EntryHeap(s, id);
    EntryCounts(s, id);
    EntryMutexes(s, id);
  }

  lemma CountRefs(uses: Uses, t: Tid, u: Use, e: State, x: IdState)
    requires RefInv(uses, e.idMap) && HeapInv(e.idMap, e.mutexes, e.nextRef) && t in uses && u.id in e.idMap
    requires x.mutex == e.idMap[u.id].mutex == u.ref
    ensures RefInv(uses[t := u], e.idMap[u.id := x]) && HeapInv(e.idMap[u.id := x], e.mutexes, e.nextRef)
  {
    SameHeap(e.idMap, u.id, x, e.mutexes, e.nextRef);
    SameRefs(uses, e.idMap, u.id, x);
    RefMove(uses, t, u, e.idMap[u.id := x]);
  }

  /** Change a count and remember the mutex. */
  lemma CountEntry(s: State, t: Tid, u: Use, e: State, d: int)
    requires GlobalInv(s.uses, s.global) && UsedInv(s.uses, s.idMap, s.global) && t in s.uses && s.global == Some(t)
    requires CountInv(s.uses, e.idMap) && RefInv(s.uses, e.idMap) && HeapInv(e.idMap, e.mutexes, e.nextRef)
    requires MutexInv(s.uses, e.mutexes) && SameLock(s.uses[t], u)
    requires u.id == s.uses[t].id && u.mode == s.uses[t].mode && u.id in e.idMap && u.ref == e.idMap[u.id].mutex
    requires forall i :: i in e.idMap && i != u.id ==> i in s.idMap && e.idMap[i] == s.idMap[i]
    requires (s.uses[t].stage == AcqInGlobal && d == 1) || (s.uses[t].stage == RelInGlobal && d == -1)
    requires u.stage == if d == 1 then AcqCounted else RelCounted
    ensures Inv(State(s.global, e.idMap[u.id := Bump(e.idMap[u.id], u.mode, d)], e.mutexes, e.nextRef, s.uses[t := u]))
  {
    CountRefs(s.uses, t, u, e, Bump(e.idMap[u.id], u.mode, d));
    CountMove(s.uses, t, u, e.idMap, d);
    GlobalMove(s.uses, t, u, s.global, s.global);
    SameLockers(s.uses, t, u, e.mutexes);
    CountUsed(s.uses, t, u, s.idMap, e.idMap, d);
  }

  lemma StepCount(s: State, t: Tid, u: Use, e: State, d: int)
    requires Inv(s) && t in s.uses && s.global == Some(t) && e == Entry(s, s.uses[t].id)
    requires (s.uses[t].stage == AcqInGlobal && d == 1) || (s.uses[t].stage == RelInGlobal && d == -1)
    requires u == s.uses[t].(stage := if d == 1 then AcqCounted else RelCounted, ref := e.idMap[s.uses[t].id].mutex)
    ensures Inv(State(s.global, e.idMap[u.id := Bump(e.idMap[u.id], u.mode, d)], e.mutexes, e.nextRef, s.uses[t := u]))
  {
    EntryKeeps(s, u.id, e);
    CountEntry(s, t, u, e, d);
  }

  lemma CountUsed(uses: Uses, t: Tid, u: Use, idMap: map<Id, IdState>, entry: map<Id, IdState>, d: int)
    requires UsedInv(uses, idMap, Some(t)) && t in uses && u.id == uses[t].id && u.id in entry
    requires uses[t].stage != RelCounted && uses[t].stage != RelUnlocked
    requires forall i :: i in entry && i != u.id ==> i in idMap && entry[i] == idMap[i]
    requires d == -1 ==> u.stage == RelCounted
    requires d == 1 ==> entry[u.id].readers >= 0 && entry[u.id].writers >= 0
    requires d == 1 || d == -1
    ensures UsedInv(uses[t := u], entry[u.id := Bump(entry[u.id], u.mode, d)], Some(t))
  {}

  /** Locking or unlocking one mutex together with the thread's membership. */
  lemma MutexMove(uses: Uses, t: Tid, u: Use, mutexes: map<Ref, Mutex>)
    requires MutexInv(uses, mutexes) && t in uses && u.ref in mutexes
    requires u.ref == uses[t].ref && u.mode == uses[t].mode
    requires Locked(u.stage) != Locked(uses[t].stage)
    requires Locked(u.stage) ==> CanLock(mutexes[u.ref], u.mode)
    ensures MutexInv(uses[t := u], mutexes[u.ref := Turn(mutexes[u.ref], u)])
  {
    forall r | r in mutexes ensures MutexOk(
      (if r != u.ref then mutexes[r] else Turn(mutexes[r], u)),
      Lockers(uses[t := u], r, Shared), Lockers(uses[t := u], r, Exclusive))
    {
      LockersMove(uses, t, u, r, Shared);
      LockersMove(uses, t, u, r, Exclusive);
      assert t in Lockers(uses, r, u.mode) <==> IsLocker(uses[t], r, u.mode);
    }
  }

  lemma HeapSameOwners(idMap: map<Id, IdState>, m: map<Ref, Mutex>, r: Ref, x: Mutex, nextRef: Ref)
    requires HeapInv(idMap, m, nextRef) && r in m && x.owner == m[r].owner
    ensures HeapInv(idMap, m[r := x], nextRef)
  {}

  ghost function Turn(m: Mutex, u: Use): Mutex {
    if Locked(u.stage) then Lock(m, u.mode) else Unlock(m, u.mode)
  }

  lemma MutexStepUses(s: State, t: Tid, u: Use)
    requires GlobalInv(s.uses, s.global) && RefInv(s.uses, s.idMap)
    requires CountInv(s.uses, s.idMap) && UsedInv(s.uses, s.idMap, s.global)
    requires t in s.uses && (s.uses[t].stage == AcqWaiting || s.uses[t].stage == RelCounted)
    requires u == s.uses[t].(stage := if s.uses[t].stage == AcqWaiting then Holding else RelUnlocked)
    ensures GlobalInv(s.uses[t := u], s.global) && RefInv(s.uses[t := u], s.idMap)
    ensures CountInv(s.uses[t := u], s.idMap) && UsedInv(s.uses[t := u], s.idMap, s.global)
  {
    GlobalMove(s.uses, t, u, s.global, s.global);
    RefMove(s.uses, t, u, s.idMap);
    SameUsers(s.uses, t, u, s.idMap);
    UsedMove(s.uses, t, u, s.idMap, s.global, s.global);
  }

  lemma StepMutex(s: State, t: Tid, u: Use)
    requires Inv(s) && Enabled(s, t) && (s.uses[t].stage == AcqWaiting || s.uses[t].stage == RelCounted)
    requires u == s.uses[t].(stage := if s.uses[t].stage == AcqWaiting then Holding else RelUnlocked)
    ensures u.ref in s.mutexes
    ensures Inv(s.(mutexes := s.mutexes[u.ref := Turn(s.mutexes[u.ref], u)], uses := s.uses[t := u]))
  {
    MutexStepUses(s, t, u);
    MutexMove(s.uses, t, u, s.mutexes);
    HeapSameOwners(s.idMap, s.mutexes, u.ref, Turn(s.mutexes[u.ref], u), s.nextRef);
  }

  /** When both counts are zero, only the cleaning thread refers to the id. */
  lemma OnlyCleaner(uses: Uses, t: Tid, idMap: map<Id, IdState>, i: Id)
    requires GlobalInv(uses, Some(t)) && RefInv(uses, idMap) && CountInv(uses, idMap)
    requires i in idMap && idMap[i].readers == 0 && idMap[i].writers == 0
    ensures forall v :: v in uses && v != t && Refers(uses[v].stage) ==> uses[v].id != i
  {
    forall v | v in uses && v != t && Refers(uses[v].stage) ensures uses[v].id != i {
      assert v in Users(uses, uses[v].id, uses[v].mode);
    }
  }

  lemma CleanupUses(s: State, t: Tid, u: Use)
    requires GlobalInv(s.uses, s.global) && CountInv(s.uses, s.idMap) && MutexInv(s.uses, s.mutexes)
    requires t in s.uses && s.uses[t].stage == RelUnlocked && u == s.uses[t].(stage := RelCleaned)
    ensures GlobalInv(s.uses[t := u], s.global) && CountInv(s.uses[t := u], s.idMap)
    ensures MutexInv(s.uses[t := u], s.mutexes)
  {
    GlobalMove(s.uses, t, u, s.global, s.global);
    SameUsers(s.uses, t, u, s.idMap);
    SameLockers(s.uses, t, u, s.mutexes);
  }

  lemma StepCleanup(s: State, t: Tid, u: Use)
    requires Inv(s) && t in s.uses && s.uses[t].stage == RelUnlocked && u == s.uses[t].(stage := RelCleaned)
    ensures u.id in s.idMap
    ensures if s.idMap[u.id].readers == 0 && s.idMap[u.id].writers == 0
            then Inv(s.(idMap := s.idMap - {u.id}, mutexes := s.mutexes - {s.idMap[u.id].mutex},
                        uses := s.uses[t := u]))
            else Inv(s.(uses := s.uses[t := u]))
  {
    CleanupUses(s, t, u);
    if s.idMap[u.id].readers == 0 && s.idMap[u.id].writers == 0 {
      OnlyCleaner(s.uses, t, s.idMap, u.id);
      EraseId(s.uses, t, u, s.idMap, s.mutexes, s.nextRef, s.global);
    } else {
      RefMove(s.uses, t, u, s.idMap);
    }
  }

  lemma EraseId(uses: Uses, t: Tid, u: Use, idMap: map<Id, IdState>, mutexes: map<Ref, Mutex>, nextRef: Ref,
                g: Option<Tid>)
    requires RefInv(uses, idMap) && HeapInv(idMap, mutexes, nextRef) && UsedInv(uses, idMap, g)
    requires t in uses && g == Some(t) && u.id == uses[t].id && u.id in idMap && !Refers(u.stage)
    requires forall v :: v in uses && v != t && Refers(uses[v].stage) ==> uses[v].id != u.id
    ensures RefInv(uses[t := u], idMap - {u.id})
    ensures HeapInv(idMap - {u.id}, mutexes - {idMap[u.id].mutex}, nextRef)
    ensures UsedInv(uses[t := u], idMap - {u.id}, g)
  {}

  lemma CountStep(s: State, t: Tid, id: Id, mode: Mode)
    requires Inv(s) && Enabled(s, t) && (s.uses[t].stage == AcqInGlobal || s.uses[t].stage == RelInGlobal)
    ensures Inv(Next(s, t, id, mode))
  {
    var s', d := Next(s, t, id, mode), if s.uses[t].stage == AcqInGlobal then 1 else -1;
    StepCount(s, t, s'.uses[t], Entry(s, s.uses[t].id), d);
  }

  lemma QuietStep(s: State, t: Tid, id: Id, mode: Mode)
    requires Inv(s) && Enabled(s, t)
    requires var st := s.uses[t].stage;
             st.Idle? || st.AcqWantGlobal? || st.AcqCounted? || st.Holding? || st.RelWantGlobal? || st.RelCleaned?
    ensures Inv(Next(s, t, id, mode))
  {
    var s' := Next(s, t, id, mode);
    QuietNext(s, t, id, mode);
    QuietMove(s, t, s'.uses[t], s'.global);
  }

  lemma QuietNext(s: State, t: Tid, id: Id, mode: Mode)
    requires GlobalInv(s.uses, s.global) && Enabled(s, t)
    requires var st := s.uses[t].stage;
             st.Idle? || st.AcqWantGlobal? || st.AcqCounted? || st.Holding? || st.RelWantGlobal? || st.RelCleaned?
    ensures var s' := Next(s, t, id, mode);
            && t in s'.uses
            && var u, g := s'.uses[t], s'.global;
               && s' == s.(global := g, uses := s.uses[t := u])
               && SameUse(s.uses[t], u) && SameLock(s.uses[t], u)
               && (Refers(u.stage) <==> Refers(s.uses[t].stage))
               && (Refers(u.stage) ==> u.id == s.uses[t].id && u.ref == s.uses[t].ref)
               && (InGlobal(u.stage) <==> g == Some(t))
               && (g == s.global || (s.global == None && g == Some(t)) || (s.global == Some(t) && g == None))
  {
  }

  lemma CleanupStep(s: State, t: Tid, id: Id, mode: Mode)
    requires Inv(s) && Enabled(s, t) && s.uses[t].stage == RelUnlocked
    ensures Inv(Next(s, t, id, mode))
  {
    StepCleanup(s, t, s.uses[t].(stage := RelCleaned));
  }

  lemma MutexStep(s: State, t: Tid, id: Id, mode: Mode)
    requires Inv(s) && Enabled(s, t) && (s.uses[t].stage == AcqWaiting || s.uses[t].stage == RelCounted)
    ensures Inv(Next(s, t, id, mode))
  {
    StepMutex(s, t, s.uses[t].(stage := if s.uses[t].stage == AcqWaiting then Holding else RelUnlocked));
  }

  lemma StepKeepsInv(s: State, t: Tid, id: Id, mode: Mode)
    requires Inv(s) && Enabled(s, t)
    ensures Inv(Next(s, t, id, mode))
  {
    match s.uses[t].stage
    case AcqInGlobal => CountStep(s, t, id, mode);
    case RelInGlobal => CountStep(s, t, id, mode);
    case RelUnlocked => CleanupStep(s, t, id, mode);
    case AcqWaiting => MutexStep(s, t, id, mode);
    case RelCounted => MutexStep(s, t, id, mode);
    case _ => QuietStep(s, t, id, mode);
  }

  lemma {:induction false} InvInRuns(run: seq<State>, i: nat)
    requires IsRun(run) && i < |run|
    ensures Inv(run[i])
  {
    if i > 0 {
      InvInRuns(run, i - 1);
      assert Step(run[i - 1], run[i - 1 + 1]);
      var t, id, mode :| Enabled(run[i - 1], t) && run[i] == Next(run[i - 1], t, id, mode);
      StepKeepsInv(run[i - 1], t, id, mode);
    }
  }

  // ---- Main results, for every state of every run ----

  lemma WriterExcludes(s: State, t: Tid, v: Tid)
    requires Inv(s) && t != v && t in s.uses && v in s.uses && s.uses[t].id == s.uses[v].id
    requires Locked(s.uses[t].stage) && Locked(s.uses[v].stage)
    ensures s.uses[t].mode == Shared && s.uses[v].mode == Shared
  {
    var r := s.uses[t].ref;
    assert s.uses[v].ref == r;
    var readers, writers := Lockers(s.uses, r, Shared), Lockers(s.uses, r, Exclusive);
    assert MutexOk(s.mutexes[r], readers, writers);
    assert t in Lockers(s.uses, r, s.uses[t].mode) && v in Lockers(s.uses, r, s.uses[v].mode);
    assert {t, v} <= writers ==> |writers - {t, v}| == |writers| - 2;
  }

  /** A writer on an id excludes every other holder of that id, across any
      number of erasures and re-creations of the id's state. */
  lemma MutualExclusion(run: seq<State>, i: nat, t: Tid, v: Tid)
    requires IsRun(run) && i < |run| && t != v && t in run[i].uses && v in run[i].uses
    requires Locked(run[i].uses[t].stage) && Locked(run[i].uses[v].stage)
    requires run[i].uses[t].id == run[i].uses[v].id
    ensures run[i].uses[t].mode == Shared && run[i].uses[v].mode == Shared
  {
    InvInRuns(run, i);
    WriterExcludes(run[i], t, v);
  }

  /** A thread that holds, waits on or unlocks a per-id mutex finds it alive,
      and it is the same mutex for all threads on that id. */
  lemma MutexNeverErasedInUse(run: seq<State>, i: nat, t: Tid)
    requires IsRun(run) && i < |run| && t in run[i].uses && Refers(run[i].uses[t].stage)
    ensures run[i].uses[t].ref in run[i].mutexes
    ensures forall v :: v in run[i].uses && RefersTo(run[i].uses[v], run[i].uses[t].id)
                        ==> run[i].uses[v].ref == run[i].uses[t].ref
  {
    InvInRuns(run, i);
  }

  /** Counts equal holders plus waiters, and the map holds exactly the ids in
      use. */
  lemma CountsAreExact(run: seq<State>, i: nat, id: Id)
    requires IsRun(run) && i < |run|
    ensures id in run[i].idMap <==> exists t :: t in run[i].uses && RefersTo(run[i].uses[t], id)
    ensures id in run[i].idMap ==>
              && run[i].idMap[id].readers == |Users(run[i].uses, id, Shared)|
              && run[i].idMap[id].writers == |Users(run[i].uses, id, Exclusive)|
  {
    InvInRuns(run, i);
    if id in run[i].idMap {
      var t := SomeoneRefers(run[i], id);
    }
  }

  /** Nothing is left behind when all threads are idle. */
  lemma NoLeak(run: seq<State>, i: nat)
    requires IsRun(run) && i < |run|
    requires forall t :: t in run[i].uses ==> run[i].uses[t].stage == Idle
    ensures run[i].idMap == map[] && run[i].mutexes == map[]
  {
    forall id ensures id !in run[i].idMap {
      CountsAreExact(run, i, id);
    }
    InvInRuns(run, i);
    assert run[i].idMap.Keys == {} && run[i].mutexes.Keys == {};
  }

  lemma SomeoneRefers(s: State, id: Id) returns (t: Tid)
    requires Inv(s) && id in s.idMap
    ensures t in s.uses && RefersTo(s.uses[t], id)
  {
    if s.idMap[id].readers != 0 || s.idMap[id].writers != 0 {
      var m := if s.idMap[id].readers != 0 then Shared else Exclusive;
      assert Users(s.uses, id, m) != {};
      t :| t in Users(s.uses, id, m);
    } else {
      t := s.global.value;
    }
  }

  /** No thread waits for a per-id mutex while it holds the global one. */
  lemma WaitersDoNotHoldGlobal(run: seq<State>, i: nat, t: Tid)
    requires IsRun(run) && i < |run| && t in run[i].uses && run[i].uses[t].stage == AcqWaiting
    ensures run[i].global != Some(t)
  {
    InvInRuns(run, i);
  }

  /** The blocking rule of a mutex that makes readers queue behind writers. */
  ghost predicate EnabledFair(s: State, t: Tid) {
    && Enabled(s, t)
    && (s.uses[t].stage == AcqWaiting && s.uses[t].mode == Shared ==>
          forall v :: v in s.uses && s.uses[v].stage == AcqWaiting && s.uses[v].ref == s.uses[t].ref
                      ==> s.uses[v].mode == Shared)
  }

  lemma SomeoneCanStep(s: State, t: Tid) returns (v: Tid)
    requires Inv(s) && t in s.uses && s.uses[t].stage != Idle
    ensures v in s.uses && s.uses[v].stage != Idle && EnabledFair(s, v)
  {
    if s.global.Some? {
      v := s.global.value;
      assert InGlobal(s.uses[v].stage);
    } else if s.uses[t].stage == AcqWaiting {
      v := UnblockWaiter(s, t);
    } else {
      v := t;
    }
  }

  /** No deadlock: while some thread is not idle, some thread that is not idle
      can take a step, even if waiting writers hold back new readers. */
  lemma NoDeadlock(run: seq<State>, i: nat, t: Tid) returns (v: Tid)
    requires IsRun(run) && i < |run| && t in run[i].uses && run[i].uses[t].stage != Idle
    ensures v in run[i].uses && run[i].uses[v].stage != Idle && EnabledFair(run[i], v)
  {
    InvInRuns(run, i);
    v := SomeoneCanStep(run[i], t);
  }

  /** Thread `v` holds the id of thread `t`, or has yet to unlock it. */
  ghost predicate HoldsIdOf(uses: Uses, v: Tid, t: Tid)
    requires t in uses
  {
    v in uses && Locked(uses[v].stage) && uses[v].id == uses[t].id
  }

  /** A waiting reader is held up by nothing but a writer that holds its id, so that
      readers hold an id together; a waiting writer by anybody who holds it. */
  lemma WaiterCanLockIff(run: seq<State>, i: nat, t: Tid)
    requires IsRun(run) && i < |run| && t in run[i].uses && run[i].uses[t].stage == AcqWaiting
    ensures var uses := run[i].uses;
            Enabled(run[i], t) <==>
            forall v :: HoldsIdOf(uses, v, t) ==> uses[t].mode == Shared && uses[v].mode == Shared
  {
    InvInRuns(run, i);
    CanLockIff(run[i], t);
  }

  lemma CanLockIff(s: State, t: Tid)
    requires Inv(s) && t in s.uses && s.uses[t].stage == AcqWaiting
    ensures Enabled(s, t) <==>
            forall v :: HoldsIdOf(s.uses, v, t) ==> s.uses[t].mode == Shared && s.uses[v].mode == Shared
  {
    var r := s.uses[t].ref;
    var readers, writers := Lockers(s.uses, r, Shared), Lockers(s.uses, r, Exclusive);
    assert MutexOk(s.mutexes[r], readers, writers);
    forall v ensures HoldsIdOf(s.uses, v, t) <==> v in readers || v in writers {
      LockersOfId(s, t, v);
    }
    if readers != {} {
      var v :| v in readers;
    }
    if writers != {} {
      var v :| v in writers;
    }
  }

  lemma LockersOfId(s: State, t: Tid, v: Tid)
    requires RefInv(s.uses, s.idMap) && HeapInv(s.idMap, s.mutexes, s.nextRef)
    requires t in s.uses && s.uses[t].stage == AcqWaiting
    ensures var r := s.uses[t].ref;
            HoldsIdOf(s.uses, v, t) <==> v in Lockers(s.uses, r, Shared) || v in Lockers(s.uses, r, Exclusive)
  {
  }

  /** A thread that locks becomes a holder, beside those that hold the id already. */
  lemma ReadersHoldTogether(run: seq<State>, i: nat, t: Tid, v: Tid, id: Id, mode: Mode)
    requires IsRun(run) && i < |run| && t in run[i].uses && v in run[i].uses && t != v
    requires run[i].uses[t].stage == AcqWaiting && run[i].uses[t].mode == Shared && Enabled(run[i], t)
    requires run[i].uses[v].stage == Holding && run[i].uses[v].id == run[i].uses[t].id
    ensures var s := Next(run[i], t, id, mode);
            s.uses[t].stage == Holding && s.uses[v].stage == Holding && s.uses[t].id == s.uses[v].id
  {
  }

  lemma NoneIn(ts: set<Tid>)
    requires forall t :: t !in ts
    ensures ts == {}
  {}

  /** Behind a waiting thread there is a holder, or a waiter that can lock. */
  lemma UnblockWaiter(s: State, t: Tid) returns (v: Tid)
    requires Inv(s) && t in s.uses && s.uses[t].stage == AcqWaiting && s.global.None?
    ensures v in s.uses && s.uses[v].stage != Idle && EnabledFair(s, v)
  {
    var r := s.uses[t].ref;
    var readers, writers := Lockers(s.uses, r, Shared), Lockers(s.uses, r, Exclusive);
    assert MutexOk(s.mutexes[r], readers, writers);
    if w :| w in readers {
      v := w;
    } else if w :| w in writers {
      v := w;
    } else if w :| w in s.uses && s.uses[w].stage == AcqWaiting && s.uses[w].ref == r && s.uses[w].mode == Exclusive {
      NoneIn(readers);
      NoneIn(writers);
      v := w;
    } else {
      NoneIn(readers);
      NoneIn(writers);
      v := t;
    }
  }
}
