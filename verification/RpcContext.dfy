/** The life cycle of RPC contexts, as interleaved steps of the threads that
    poll the completion queue and of the RPC runtime. An event can be delivered
    to another thread before the sender of the request has written `status`. */
module RpcContext {
  import opened Status

  type Cid = nat
  type Tid = nat
  type Method = string

  datatype CallStatus = CREATE | PROCESS | FINISH

  datatype Kind = Arrival | SendDone

  datatype Event = Event(kind: Kind, ok: bool)

  /** Who has to move a context next. `owner` is the thread concerned in the
      phases Fresh, Taken, Replaced, Served and Finishing. This and the fields after it
      record history; no step depends on them. */
  datatype Phase =
    | Fresh        // allocated, not registered with the runtime yet
    | Listening    // registered, no request so far
    | Arrived      // arrival event in the completion queue
    | Taken        // a thread has the event, no successor registered yet
    | Replaced     // successor registered
    | Served       // handler has run
    | Sending      // reply handed to the runtime
    | Sent         // send-done event in the completion queue
    | Finishing    // a thread has the send-done event

  datatype Ctx = Ctx(rpc: Method, status: CallStatus, lock: Option<Tid>,
                     phase: Phase, owner: Tid, good: bool, runs: nat, sends: nat)

  datatype CreatePc = CWantLock | CLocked | CStarted | CWritten

  datatype HandlePc = WantLock | Locked | Successor | Handled | SendPosted | Marked | Unlocked

  /** What a thread is doing inside Proceed. A thread that creates a successor
      keeps the lock of the context it serves, `outer`, meanwhile. */
  datatype Thread =
    | Idle
    | Creating(c: Cid, cpc: CreatePc, outer: Option<(Cid, bool)>)
    | Handling(h: Cid, kind: Kind, ok: bool, pc: HandlePc)

  /** What became of a deleted context. */
  datatype Record = Record(good: bool, runs: nat, sends: nat)

  datatype State = State(ctxs: map<Cid, Ctx>, nextCid: Cid, listening: set<Cid>, sending: set<Cid>,
                         cq: map<Cid, Event>, threads: map<Tid, Thread>,
                         registered: map<Method, nat>, retired: map<Cid, Record>)

  ghost predicate Init(s: State) {
    && s.ctxs == map[] && s.listening == {} && s.sending == {} && s.cq == map[] && s.retired == map[]
    && s.registered == map[] && forall t :: t in s.threads ==> s.threads[t] == Idle
  }

  datatype Action =
    | Register(t: Tid, m: Method)      // new context, then Proceed(true)
    | Arrive(c: Cid, ok: bool)         // the runtime matches a request
    | SendComplete(c: Cid, ok: bool)   // the runtime has sent the reply
    | Poll(t: Tid, c: Cid)             // a thread takes an event, then Proceed(ok)
    | Run(t: Tid)                      // next step of a thread inside Proceed

  predicate Enabled(s: State, a: Action) {
    match a
    case Register(t, _) => t in s.threads && s.threads[t] == Idle
    case Arrive(c, _) => c in s.listening && c in s.ctxs
    case SendComplete(c, _) => c in s.sending && c in s.ctxs
    case Poll(t, c) => t in s.threads && s.threads[t] == Idle && c in s.cq && c in s.ctxs
    case Run(t) => t in s.threads && CanRun(s, s.threads[t])
  }

  /** Only taking a context's lock can block. */
  predicate CanRun(s: State, th: Thread) {
    match th
    case Idle => false
    case Creating(c, cpc, outer) =>
      c in s.ctxs && (outer.Some? ==> outer.value.0 in s.ctxs) && (cpc == CWantLock ==> s.ctxs[c].lock == None)
    case Handling(c, _, _, pc) => c in s.ctxs && (pc == WantLock ==> s.ctxs[c].lock == None)
  }

  function Put(s: State, c: Cid, x: Ctx, t: Tid, th: Thread): State {
    s.(ctxs := s.ctxs[c := x], threads := s.threads[t := th])
  }

  function NewCtx(s: State, t: Tid, m: Method, outer: Option<(Cid, bool)>): State {
    Put(s, s.nextCid, Ctx(m, CREATE, None, Fresh, t, false, 0, 0), t, Creating(s.nextCid, CWantLock, outer))
      .(nextCid := s.nextCid + 1)
  }

  function Count(s: State, m: Method): nat { if m in s.registered then s.registered[m] else 0 }

  /** start_request_fn_(this): the runtime may deliver the arrival from now on.
      It replaces the context being served, or is a registration of its own. */
  function StartRequest(s: State, t: Tid, c: Cid, outer: Option<(Cid, bool)>): State
    requires c in s.ctxs && (outer.Some? ==> outer.value.0 in s.ctxs)
  {
    var s1 := Put(s, c, s.ctxs[c].(phase := Listening), t, Creating(c, CStarted, outer))
              .(listening := s.listening + {c});
    var m := s.ctxs[c].rpc;
    if outer.Some? && outer.value.0 != c then
      var o := outer.value.0;
      s1.(ctxs := s1.ctxs[o := s1.ctxs[o].(phase := Replaced)])
    else s1.(registered := s.registered[m := Count(s, m) + 1])
  }

  function RunCreating(s: State, t: Tid, c: Cid, cpc: CreatePc, outer: Option<(Cid, bool)>): State
    requires CanRun(s, Creating(c, cpc, outer))
  {
    var x := s.ctxs[c];
    match cpc
    case CWantLock => Put(s, c, x.(lock := Some(t)), t, Creating(c, CLocked, outer))
    case CLocked => StartRequest(s, t, c, outer)
    case CStarted => Put(s, c, x.(status := PROCESS), t, Creating(c, CWritten, outer))
    case CWritten =>
      Put(s, c, x.(lock := None), t,
          if outer.Some? then Handling(outer.value.0, Arrival, outer.value.1, Successor) else Idle)
  }

  function RunHandling(s: State, t: Tid, c: Cid, kind: Kind, ok: bool, pc: HandlePc): State
    requires CanRun(s, Handling(c, kind, ok, pc))
  {
    var x := s.ctxs[c];
    match pc
    case WantLock => Put(s, c, x.(lock := Some(t)), t, Handling(c, kind, ok, Locked))
    case Locked => (
      match x.status
      case CREATE => StartRequest(s, t, c, None)
      case PROCESS => NewCtx(s, t, x.rpc, Some((c, ok)))
      case FINISH => Put(s, c, x.(lock := None), t, Handling(c, kind, ok, Unlocked)))
    case Successor =>
      if !ok then Put(s, c, x.(lock := None), t, Handling(c, kind, ok, Unlocked))
      else Put(s, c, x.(runs := x.runs + 1, phase := Served), t, Handling(c, kind, ok, Handled))
    case Handled =>
      Put(s, c, x.(sends := x.sends + 1, phase := Sending), t, Handling(c, kind, ok, SendPosted))
        .(sending := s.sending + {c})
    case SendPosted => Put(s, c, x.(status := FINISH), t, Handling(c, kind, ok, Marked))
    case Marked => Put(s, c, x.(lock := None), t, Idle)
    case Unlocked =>
      s.(ctxs := s.ctxs - {c}, threads := s.threads[t := Idle],
         retired := s.retired[c := Record(x.good, x.runs, x.sends)])
  }

  function Next(s: State, a: Action): State
    requires Enabled(s, a)
  {
    match a
    case Register(t, m) => NewCtx(s, t, m, None)
    case Arrive(c, ok) =>
      s.(ctxs := s.ctxs[c := s.ctxs[c].(phase := Arrived, good := ok)],
         listening := s.listening - {c}, cq := s.cq[c := Event(Arrival, ok)])
    case SendComplete(c, ok) =>
      s.(ctxs := s.ctxs[c := s.ctxs[c].(phase := Sent)],
         sending := s.sending - {c}, cq := s.cq[c := Event(SendDone, ok)])
    case Poll(t, c) =>
      var e := s.cq[c];
      Put(s, c, s.ctxs[c].(phase := if e.kind == Arrival then Taken else Finishing, owner := t),
          t, Handling(c, e.kind, e.ok, WantLock)).(cq := s.cq - {c})
    case Run(t) =>
      match s.threads[t]
      case Creating(c, cpc, outer) => RunCreating(s, t, c, cpc, outer)
      case Handling(c, kind, ok, pc) => RunHandling(s, t, c, kind, ok, pc)
  }

  ghost predicate IsRun(run: seq<State>, acts: seq<Action>) {
    && |run| == |acts| + 1 && Init(run[0])
    && forall i :: 0 <= i < |acts| ==> Enabled(run[i], acts[i]) && run[i + 1] == Next(run[i], acts[i])
  }

  // ---- Invariant ----

  predicate BeforeReply(p: Phase) { p.Listening? || p.Arrived? || p.Taken? }
  predicate Owned(p: Phase) { p.Fresh? || p.Taken? || p.Replaced? || p.Served? || p.Finishing? }
  predicate AfterReply(p: Phase) { p.Sending? || p.Sent? || p.Finishing? }

  /** A thread inside Proceed refers to a live context in the matching phase. */
  ghost predicate ThreadOk(ctxs: map<Cid, Ctx>, t: Tid, th: Thread) {
    match th
    case Idle => true
    case Creating(c, cpc, outer) =>
      && c in ctxs
      && (match cpc
          case CWantLock => ctxs[c].phase == Fresh && ctxs[c].owner == t && ctxs[c].lock == None
          case CLocked => ctxs[c].phase == Fresh && ctxs[c].owner == t && ctxs[c].lock == Some(t)
          case CStarted => BeforeReply(ctxs[c].phase) && ctxs[c].lock == Some(t) && ctxs[c].status == CREATE
          case CWritten => BeforeReply(ctxs[c].phase) && ctxs[c].lock == Some(t) && ctxs[c].status == PROCESS)
      && (outer.Some? ==>
            var o := outer.value.0;
            && o in ctxs && o != c && ctxs[o].lock == Some(t) && ctxs[o].status == PROCESS && ctxs[o].owner == t
            && ctxs[o].good == outer.value.1 && ctxs[o].rpc == ctxs[c].rpc
            && ctxs[o].phase == if cpc == CWantLock || cpc == CLocked then Taken else Replaced)
    case Handling(c, kind, ok, pc) =>
      && c in ctxs
      && (kind == Arrival ==> ctxs[c].good == ok)
      && (match pc
          case WantLock => ctxs[c].owner == t && ctxs[c].phase == if kind == Arrival then Taken else Finishing
          case Locked =>
            && ctxs[c].owner == t && ctxs[c].lock == Some(t)
            && ctxs[c].phase == (if kind == Arrival then Taken else Finishing)
            && ctxs[c].status == if kind == Arrival then PROCESS else FINISH
          case Successor =>
            kind == Arrival && ctxs[c].owner == t && ctxs[c].lock == Some(t) && ctxs[c].phase == Replaced
            && ctxs[c].status == PROCESS
          case Handled =>
            kind == Arrival && ok && ctxs[c].owner == t && ctxs[c].lock == Some(t) && ctxs[c].phase == Served
            && ctxs[c].status == PROCESS
          case SendPosted =>
            kind == Arrival && AfterReply(ctxs[c].phase) && ctxs[c].lock == Some(t) && ctxs[c].status == PROCESS
          case Marked =>
            kind == Arrival && AfterReply(ctxs[c].phase) && ctxs[c].lock == Some(t) && ctxs[c].status == FINISH
          case Unlocked =>
            && ctxs[c].owner == t && ctxs[c].lock == None
            && ((kind == Arrival && !ok && ctxs[c].phase == Replaced) || (kind == SendDone
                && ctxs[c].phase == Finishing)))
  }

  /** The thread is inside the critical section of context `c`. */
  predicate Holds(th: Thread, c: Cid) {
    match th
    case Idle => false
    case Creating(x, cpc, outer) => (x == c && cpc != CWantLock) || (outer.Some? && outer.value.0 == c)
    case Handling(x, _, _, pc) => x == c && pc != WantLock && pc != Unlocked
  }

  /** The thread has the context in the phase it owns. */
  predicate Owns(th: Thread, c: Cid, p: Phase) {
    match th
    case Idle => false
    case Creating(x, cpc, outer) =>
      || (x == c && p == Fresh && (cpc == CWantLock || cpc == CLocked))
      || (outer.Some? && outer.value.0 == c && p == if cpc == CWantLock || cpc == CLocked then Taken else Replaced)
    case Handling(x, kind, _, pc) =>
      && x == c
      && (match p
          case Taken => kind == Arrival && (pc == WantLock || pc == Locked)
          case Replaced => kind == Arrival && (pc == Successor || pc == Unlocked)
          case Served => kind == Arrival && pc == Handled
          case Finishing => kind == SendDone && (pc == WantLock || pc == Locked || pc == Unlocked)
          case _ => false)
  }

  /** A context agrees with the threads, the runtime and the queue. */
  ghost predicate CtxOk(s: State, c: Cid, x: Ctx) {
    && c < s.nextCid
    && (x.phase == Listening <==> c in s.listening)
    && (x.phase == Sending <==> c in s.sending)
    && (x.phase == Arrived <==> c in s.cq && s.cq[c].kind == Arrival)
    && (x.phase == Sent <==> c in s.cq && s.cq[c].kind == SendDone)
    && (x.phase == Arrived ==> s.cq[c].ok == x.good)
    && (x.lock.Some? ==> x.lock.value in s.threads && Holds(s.threads[x.lock.value], c))
    && (Owned(x.phase) ==> x.owner in s.threads && Owns(s.threads[x.owner], c, x.phase))
    && (x.phase == Fresh ==> x.status == CREATE)
    && (x.lock.None? && BeforeReply(x.phase) ==> x.status == PROCESS)
    && (x.lock.None? && AfterReply(x.phase) ==> x.status == FINISH)
    && WorkOk(x)
  }

  /** How often the handler ran and a reply was sent, by phase. */
  ghost predicate WorkOk(x: Ctx) {
    if AfterReply(x.phase) then x.good && x.runs == 1 && x.sends == 1
    else x.sends == 0 && x.runs == (if x.phase == Served then 1 else 0) && (x.phase == Served ==> x.good)
  }

  /** A deleted context whose request was good ran its handler once and sent one
      reply; any other did neither. */
  ghost predicate RecordOk(r: Record) {
    if r.good then r.runs == 1 && r.sends == 1 else r.runs == 0 && r.sends == 0
  }

  ghost predicate RuntimeOk(s: State) {
    && s.listening <= s.ctxs.Keys && s.sending <= s.ctxs.Keys && s.cq.Keys <= s.ctxs.Keys
    && s.retired.Keys !! s.ctxs.Keys
    && (forall c :: c in s.retired ==> c < s.nextCid && RecordOk(s.retired[c]))
  }

  /** The contexts that listen for a method, or have received a request that is
      not replaced yet. */
  ghost function Listeners(ctxs: map<Cid, Ctx>, m: Method): set<Cid> {
    set c | c in ctxs && ctxs[c].rpc == m && BeforeReply(ctxs[c].phase)
  }

  ghost predicate CountOk(s: State) {
    forall m :: |Listeners(s.ctxs, m)| == Count(s, m)
  }

  ghost predicate ThreadsOk(ctxs: map<Cid, Ctx>, threads: map<Tid, Thread>) {
    forall t :: t in threads ==> ThreadOk(ctxs, t, threads[t])
  }

  ghost predicate CtxsOk(s: State) {
    forall c :: c in s.ctxs ==> CtxOk(s, c, s.ctxs[c])
  }

  ghost predicate Inv(s: State) {
    ThreadsOk(s.ctxs, s.threads) && CtxsOk(s) && RuntimeOk(s) && CountOk(s)
  }

  lemma ListenersMove(ctxs: map<Cid, Ctx>, c: Cid, x: Ctx, m: Method)
    ensures |Listeners(ctxs[c := x], m)| == |Listeners(ctxs, m)|
            + (if x.rpc == m && BeforeReply(x.phase) then 1 else 0)
            - (if c in ctxs && ctxs[c].rpc == m && BeforeReply(ctxs[c].phase) then 1 else 0)
  {
    var a, b := Listeners(ctxs, m), Listeners(ctxs[c := x], m);
    assert b == if x.rpc == m && BeforeReply(x.phase) then a + {c} else a - {c};
  }

  // ---- What one step does to threads and contexts it is not about ----

  /** A change of one context that leaves thread `u`'s view of it intact. */
  ghost predicate Safe(x: Ctx, x': Ctx, u: Tid) {
    && x'.rpc == x.rpc
    && (x.owner == u && Owned(x.phase) ==>
          && x'.phase == x.phase && x'.owner == u && x'.good == x.good
          && (x.lock == None || x.lock == Some(u) ==> x'.lock == x.lock && x'.status == x.status))
    && (x.lock == Some(u) ==>
          && x'.lock == Some(u) && x'.status == x.status
          && BeforeReply(x'.phase) == BeforeReply(x.phase) && AfterReply(x'.phase) == AfterReply(x.phase)
          && (AfterReply(x.phase) ==> x'.good == x.good))
  }

  lemma OtherThread(ctxs: map<Cid, Ctx>, c: Cid, x': Ctx, u: Tid, th: Thread)
    requires c in ctxs && ThreadOk(ctxs, u, th) && Safe(ctxs[c], x', u)
    ensures ThreadOk(ctxs[c := x'], u, th)
  {}

  /** Every thread but `t` stays in order when `c` changes safely. */
  lemma OtherThreads(s: State, c: Cid, x': Ctx, t: Tid, th: Thread)
    requires c in s.ctxs && t in s.threads && ThreadOk(s.ctxs[c := x'], t, th)
    requires ThreadsOk(s.ctxs, s.threads) && forall u :: u != t ==> Safe(s.ctxs[c], x', u)
    ensures ThreadsOk(s.ctxs[c := x'], s.threads[t := th])
  {
    forall u | u in s.threads && u != t ensures ThreadOk(s.ctxs[c := x'], u, s.threads[u]) {
      OtherThread(s.ctxs, c, x', u, s.threads[u]);
    }
  }

  /** A context the step is not about stays in order. */
  lemma OtherCtx(s: State, s': State, t: Tid, th: Thread, d: Cid, x: Ctx)
    requires CtxOk(s, d, x) && s'.nextCid >= s.nextCid && s'.threads == s.threads[t := th]
    requires (d in s'.listening <==> d in s.listening) && (d in s'.sending <==> d in s.sending)
    requires (d in s'.cq <==> d in s.cq) && (d in s.cq ==> s'.cq[d] == s.cq[d])
    requires x.lock == Some(t) ==> Holds(th, d)
    requires x.owner == t && Owned(x.phase) ==> Owns(th, d, x.phase)
    ensures CtxOk(s', d, x)
  {}

  /** No thread but `t` refers to a context that `t` owns and nobody else locks. */
  lemma NotReferenced(ctxs: map<Cid, Ctx>, c: Cid, t: Tid, u: Tid, th: Thread)
    requires c in ctxs && ThreadOk(ctxs, u, th) && u != t
    requires ctxs[c].owner == t && Owned(ctxs[c].phase) && (ctxs[c].lock == None || ctxs[c].lock == Some(t))
    ensures ThreadOk(ctxs - {c}, u, th)
  {}

  /** `c` may have entered or left the runtime's sets; no other context did. */
  ghost predicate SameElsewhere(s: State, s': State, c: Cid) {
    && s'.nextCid == s.nextCid && s'.registered == s.registered && s'.retired == s.retired
    && s.listening - {c} == s'.listening - {c} && s.sending - {c} == s'.sending - {c}
    && s.cq - {c} == s'.cq - {c}
  }

  lemma SameMembership(s: State, s': State, c: Cid, d: Cid)
    requires SameElsewhere(s, s', c) && d != c
    ensures (d in s'.listening <==> d in s.listening) && (d in s'.sending <==> d in s.sending)
    ensures (d in s'.cq <==> d in s.cq) && (d in s.cq ==> s'.cq[d] == s.cq[d])
  {
    assert d in s.listening - {c} <==> d in s'.listening - {c};
    assert d in s.sending - {c} <==> d in s'.sending - {c};
    assert d in s.cq - {c} <==> d in s'.cq - {c};
    assert d in s.cq ==> (s.cq - {c})[d] == (s'.cq - {c})[d];
  }

  lemma SameRuntime(s: State, s': State, c: Cid)
    requires RuntimeOk(s) && SameElsewhere(s, s', c) && c in s.ctxs && s'.ctxs.Keys == s.ctxs.Keys
    ensures RuntimeOk(s')
  {
    forall d | d in s'.listening || d in s'.sending || d in s'.cq ensures d in s'.ctxs {
      if d != c {
        SameMembership(s, s', c, d);
      }
    }
  }

  lemma SameCount(s: State, s': State, c: Cid, x': Ctx)
    requires CountOk(s) && c in s.ctxs && s'.ctxs == s.ctxs[c := x'] && s'.registered == s.registered
    requires x'.rpc == s.ctxs[c].rpc && BeforeReply(x'.phase) == BeforeReply(s.ctxs[c].phase)
    ensures CountOk(s')
  {
    forall m ensures |Listeners(s'.ctxs, m)| == Count(s', m) {
      ListenersMove(s.ctxs, c, x', m);
      assert |Listeners(s.ctxs, m)| == Count(s, m);
    }
  }

  /** What the moved thread holds or owns besides `c`, it still does. */
  ghost predicate KeepsOuter(th: Thread, th': Thread, c: Cid) {
    && (forall d :: d != c && Holds(th, d) ==> Holds(th', d))
    && (forall d, p :: d != c && Owns(th, d, p) ==> Owns(th', d, p))
  }

  /** What a step of thread `t` on context `c` has to see to. */
  ghost predicate GoodMove(s: State, s': State, c: Cid, t: Tid) {
    && c in s.ctxs && t in s.threads && c in s'.ctxs && t in s'.threads
    && s'.ctxs == s.ctxs[c := s'.ctxs[c]] && s'.threads == s.threads[t := s'.threads[t]]
    && SameElsewhere(s, s', c)
    && ThreadOk(s'.ctxs, t, s'.threads[t]) && CtxOk(s', c, s'.ctxs[c])
    && (forall u :: u != t ==> Safe(s.ctxs[c], s'.ctxs[c], u))
    && KeepsOuter(s.threads[t], s'.threads[t], c)
    && BeforeReply(s'.ctxs[c].phase) == BeforeReply(s.ctxs[c].phase) && s'.ctxs[c].rpc == s.ctxs[c].rpc
  }

  lemma OtherCtxs(s: State, s': State, c: Cid, t: Tid)
    requires CtxsOk(s) && c in s.ctxs && t in s.threads && c in s'.ctxs && t in s'.threads
    requires s'.ctxs == s.ctxs[c := s'.ctxs[c]] && s'.threads == s.threads[t := s'.threads[t]]
    requires SameElsewhere(s, s', c) && CtxOk(s', c, s'.ctxs[c]) && KeepsOuter(s.threads[t], s'.threads[t], c)
    ensures CtxsOk(s')
  {
    forall d | d in s.ctxs && d != c ensures CtxOk(s', d, s.ctxs[d]) {
      SameMembership(s, s', c, d);
      OtherCtx(s, s', t, s'.threads[t], d, s.ctxs[d]);
    }
  }

  lemma ThreadStep(s: State, s': State, c: Cid, t: Tid)
    requires Inv(s) && GoodMove(s, s', c, t)
    ensures Inv(s')
  {
    OtherThreads(s, c, s'.ctxs[c], t, s'.threads[t]);
    OtherCtxs(s, s', c, t);
    SameRuntime(s, s', c);
    SameCount(s, s', c, s'.ctxs[c]);
  }

  /** What a step of the runtime on context `c` has to see to. */
  ghost predicate GoodEvent(s: State, s': State, c: Cid) {
    && c in s.ctxs && c in s'.ctxs && s'.ctxs == s.ctxs[c := s'.ctxs[c]] && s'.threads == s.threads
    && SameElsewhere(s, s', c) && CtxOk(s', c, s'.ctxs[c])
    && (forall u :: Safe(s.ctxs[c], s'.ctxs[c], u))
    && BeforeReply(s'.ctxs[c].phase) == BeforeReply(s.ctxs[c].phase) && s'.ctxs[c].rpc == s.ctxs[c].rpc
  }

  lemma RuntimeThreads(s: State, s': State, c: Cid)
    requires ThreadsOk(s.ctxs, s.threads) && c in s.ctxs && c in s'.ctxs && s'.ctxs == s.ctxs[c := s'.ctxs[c]]
    requires forall u :: Safe(s.ctxs[c], s'.ctxs[c], u)
    ensures ThreadsOk(s'.ctxs, s.threads)
  {
    forall u | u in s.threads ensures ThreadOk(s'.ctxs, u, s.threads[u]) {
      OtherThread(s.ctxs, c, s'.ctxs[c], u, s.threads[u]);
    }
  }

  lemma RuntimeCtxs(s: State, s': State, c: Cid)
    requires CtxsOk(s) && GoodEvent(s, s', c)
    ensures CtxsOk(s')
  {
    forall d | d in s.ctxs && d != c ensures CtxOk(s', d, s.ctxs[d]) {
      SameMembership(s, s', c, d);
      RuntimeOther(s, s', d, s.ctxs[d]);
    }
  }

  lemma RuntimeStep(s: State, s': State, c: Cid)
    requires Inv(s) && GoodEvent(s, s', c)
    ensures Inv(s')
  {
    RuntimeThreads(s, s', c);
    RuntimeCtxs(s, s', c);
    SameRuntime(s, s', c);
    SameCount(s, s', c, s'.ctxs[c]);
  }

  lemma RuntimeOther(s: State, s': State, d: Cid, x: Ctx)
    requires CtxOk(s, d, x) && s'.nextCid >= s.nextCid && s'.threads == s.threads
    requires (d in s'.listening <==> d in s.listening) && (d in s'.sending <==> d in s.sending)
    requires (d in s'.cq <==> d in s.cq) && (d in s.cq ==> s'.cq[d] == s.cq[d])
    ensures CtxOk(s', d, x)
  {}

  lemma ArriveMoves(s: State, c: Cid, ok: bool)
    requires Enabled(s, Arrive(c, ok)) && CtxOk(s, c, s.ctxs[c])
    ensures GoodEvent(s, Next(s, Arrive(c, ok)), c)
  {
    assert Next(s, Arrive(c, ok)).cq - {c} == s.cq - {c};
  }

  lemma SendCompleteMoves(s: State, c: Cid, ok: bool)
    requires Enabled(s, SendComplete(c, ok)) && CtxOk(s, c, s.ctxs[c])
    ensures GoodEvent(s, Next(s, SendComplete(c, ok)), c)
  {
    assert Next(s, SendComplete(c, ok)).cq - {c} == s.cq - {c};
  }

  lemma PollMoves(s: State, t: Tid, c: Cid)
    requires Enabled(s, Poll(t, c)) && CtxOk(s, c, s.ctxs[c])
    ensures GoodMove(s, Next(s, Poll(t, c)), c, t)
  {
    assert Next(s, Poll(t, c)).cq - {c} == s.cq - {c};
  }

  lemma NewThreads(s: State, t: Tid, m: Method, outer: Option<(Cid, bool)>)
    requires ThreadsOk(s.ctxs, s.threads) && t in s.threads && s.nextCid !in s.ctxs
    requires outer.None? ==> s.threads[t] == Idle
    requires outer.Some? ==> s.threads[t] == Handling(outer.value.0, Arrival, outer.value.1, Locked)
                             && m == s.ctxs[outer.value.0].rpc
    ensures var s' := NewCtx(s, t, m, outer); ThreadsOk(s'.ctxs, s'.threads)
  {
    var s' := NewCtx(s, t, m, outer);
    assert ThreadOk(s.ctxs, t, s.threads[t]);
    forall u | u in s.threads && u != t ensures ThreadOk(s'.ctxs, u, s.threads[u]) {
      AddCtx(s.ctxs, s.nextCid, s'.ctxs[s.nextCid], u, s.threads[u]);
    }
  }

  lemma NewCtxs(s: State, t: Tid, m: Method, outer: Option<(Cid, bool)>)
    requires CtxsOk(s) && RuntimeOk(s) && t in s.threads && s.nextCid !in s.ctxs
    requires outer.None? ==> s.threads[t] == Idle
    requires outer.Some? ==> s.threads[t] == Handling(outer.value.0, Arrival, outer.value.1, Locked)
    ensures CtxsOk(NewCtx(s, t, m, outer))
  {
    var s' := NewCtx(s, t, m, outer);
    forall d | d in s.ctxs ensures CtxOk(s', d, s.ctxs[d]) {
      OtherCtx(s, s', t, s'.threads[t], d, s.ctxs[d]);
    }
  }

  lemma NewCounts(s: State, t: Tid, m: Method, outer: Option<(Cid, bool)>)
    requires CountOk(s) && s.nextCid !in s.ctxs
    ensures CountOk(NewCtx(s, t, m, outer))
  {
    var s' := NewCtx(s, t, m, outer);
    forall m' ensures |Listeners(s'.ctxs, m')| == Count(s', m') {
      ListenersMove(s.ctxs, s.nextCid, s'.ctxs[s.nextCid], m');
      assert |Listeners(s.ctxs, m')| == Count(s, m');
    }
  }

  lemma NewRuntime(s: State, t: Tid, m: Method, outer: Option<(Cid, bool)>)
    requires RuntimeOk(s)
    ensures RuntimeOk(NewCtx(s, t, m, outer))
  {
    assert s.nextCid !in s.retired;
  }

  /** A new context owned by `t`; what `t` held or owned, it still does. */
  lemma NewCtxKeeps(s: State, t: Tid, m: Method, outer: Option<(Cid, bool)>)
    requires Inv(s) && t in s.threads
    requires outer.None? ==> s.threads[t] == Idle
    requires outer.Some? ==> s.threads[t] == Handling(outer.value.0, Arrival, outer.value.1, Locked)
                             && m == s.ctxs[outer.value.0].rpc
    ensures Inv(NewCtx(s, t, m, outer))
  {
    assert s.nextCid !in s.ctxs;
    NewThreads(s, t, m, outer);
    NewCtxs(s, t, m, outer);
    NewCounts(s, t, m, outer);
    NewRuntime(s, t, m, outer);
  }

  lemma AddCtx(ctxs: map<Cid, Ctx>, c: Cid, x: Ctx, u: Tid, th: Thread)
    requires c !in ctxs && ThreadOk(ctxs, u, th)
    ensures ThreadOk(ctxs[c := x], u, th)
  {}

  ghost predicate Deleting(s: State, t: Tid) {
    && t in s.threads && s.threads[t].Handling? && s.threads[t].pc == Unlocked && s.threads[t].h in s.ctxs
    && ThreadOk(s.ctxs, t, s.threads[t])
  }

  lemma DeleteThreads(s: State, t: Tid)
    requires Deleting(s, t) && ThreadsOk(s.ctxs, s.threads)
    ensures ThreadsOk(s.ctxs - {s.threads[t].h}, s.threads[t := Idle])
  {
    var c := s.threads[t].h;
    forall u | u in s.threads && u != t ensures ThreadOk(s.ctxs - {c}, u, s.threads[u]) {
      NotReferenced(s.ctxs, c, t, u, s.threads[u]);
    }
  }

  lemma DeleteCtxs(s: State, t: Tid)
    requires Deleting(s, t) && CtxsOk(s)
    ensures CtxsOk(Next(s, Run(t)))
  {
    var s' := Next(s, Run(t));
    forall d | d in s'.ctxs ensures CtxOk(s', d, s.ctxs[d]) {
      OtherCtx(s, s', t, Idle, d, s.ctxs[d]);
    }
  }

  lemma DeleteCounts(s: State, t: Tid)
    requires Deleting(s, t) && CountOk(s)
    ensures CountOk(Next(s, Run(t)))
  {
    var s' := Next(s, Run(t));
    forall m ensures |Listeners(s'.ctxs, m)| == Count(s', m) {
      assert Listeners(s'.ctxs, m) == Listeners(s.ctxs, m);
      assert |Listeners(s.ctxs, m)| == Count(s, m);
    }
  }

  lemma DeleteRuntime(s: State, t: Tid)
    requires Deleting(s, t) && CtxOk(s, s.threads[t].h, s.ctxs[s.threads[t].h]) && RuntimeOk(s)
    ensures RuntimeOk(Next(s, Run(t)))
  {
  }

  lemma DeleteKeeps(s: State, t: Tid)
    requires Inv(s) && t in s.threads && s.threads[t].Handling? && s.threads[t].pc == Unlocked
    ensures CanRun(s, s.threads[t]) && Inv(Next(s, Run(t)))
  {
    assert Deleting(s, t);
    DeleteThreads(s, t);
    DeleteCtxs(s, t);
    DeleteCounts(s, t);
    DeleteRuntime(s, t);
  }

  /** Registering a context that nobody replaces adds a listener. */
  lemma StartCounts(s: State, t: Tid, c: Cid)
    requires CountOk(s) && c in s.ctxs && s.ctxs[c].phase == Fresh
    ensures CountOk(StartRequest(s, t, c, None))
  {
    var s' := StartRequest(s, t, c, None);
    forall m ensures |Listeners(s'.ctxs, m)| == Count(s', m) {
      ListenersMove(s.ctxs, c, s'.ctxs[c], m);
      assert |Listeners(s.ctxs, m)| == Count(s, m);
    }
  }

  ghost predicate Starting(s: State, t: Tid, c: Cid) {
    && t in s.threads && s.threads[t] == Creating(c, CLocked, None) && c in s.ctxs
    && ThreadOk(s.ctxs, t, s.threads[t]) && CtxOk(s, c, s.ctxs[c])
  }

  lemma StartThreads(s: State, t: Tid, c: Cid)
    requires Starting(s, t, c) && ThreadsOk(s.ctxs, s.threads)
    ensures var s' := StartRequest(s, t, c, None); ThreadsOk(s'.ctxs, s'.threads)
  {
    var s' := StartRequest(s, t, c, None);
    OtherThreads(s, c, s'.ctxs[c], t, s'.threads[t]);
  }

  lemma StartedCtx(s: State, t: Tid, c: Cid)
    requires Starting(s, t, c)
    ensures var s' := StartRequest(s, t, c, None); CtxOk(s', c, s'.ctxs[c])
  {
  }

  lemma StartCtxs(s: State, t: Tid, c: Cid)
    requires Starting(s, t, c) && CtxsOk(s)
    ensures CtxsOk(StartRequest(s, t, c, None))
  {
    var s' := StartRequest(s, t, c, None);
    StartedCtx(s, t, c);
    forall d | d in s.ctxs && d != c ensures CtxOk(s', d, s.ctxs[d]) {
      OtherCtx(s, s', t, s'.threads[t], d, s.ctxs[d]);
    }
  }

  lemma StartKeeps(s: State, t: Tid, c: Cid)
    requires Inv(s) && t in s.threads && s.threads[t] == Creating(c, CLocked, None)
    ensures Inv(StartRequest(s, t, c, None))
  {
    assert Starting(s, t, c);
    StartThreads(s, t, c);
    StartCtxs(s, t, c);
    StartCounts(s, t, c);
  }

  /** Registering a successor: one listener comes, the replaced one goes. */
  lemma ReplaceCounts(s: State, t: Tid, c: Cid, o: Cid, ok: bool)
    requires CountOk(s) && c in s.ctxs && o in s.ctxs && c != o && s.ctxs[c].rpc == s.ctxs[o].rpc
    requires s.ctxs[c].phase == Fresh && s.ctxs[o].phase == Taken
    ensures CountOk(StartRequest(s, t, c, Some((o, ok))))
  {
    var s' := StartRequest(s, t, c, Some((o, ok)));
    forall m ensures |Listeners(s'.ctxs, m)| == Count(s', m) {
      var mid := s.ctxs[c := s'.ctxs[c]];
      ListenersMove(s.ctxs, c, s'.ctxs[c], m);
      ListenersMove(mid, o, s'.ctxs[o], m);
      assert s'.ctxs == mid[o := s'.ctxs[o]];
      assert |Listeners(s.ctxs, m)| == Count(s, m);
    }
  }

  lemma ReplaceThreads(s: State, t: Tid, c: Cid, o: Cid, ok: bool, u: Tid)
    requires Inv(s) && t in s.threads && s.threads[t] == Creating(c, CLocked, Some((o, ok))) && u in s.threads
    ensures var s' := StartRequest(s, t, c, Some((o, ok))); ThreadOk(s'.ctxs, u, s'.threads[u])
  {
    var s' := StartRequest(s, t, c, Some((o, ok)));
    var x', y' := s'.ctxs[c], s'.ctxs[o];
    var mid := s.ctxs[c := x'];
    assert s'.ctxs == mid[o := y'];
    assert CtxOk(s, c, s.ctxs[c]);
    if u != t {
      OtherThread(s.ctxs, c, x', u, s.threads[u]);
      OtherThread(mid, o, y', u, s.threads[u]);
    }
  }

  /** The new context and the one it replaces. */
  lemma ReplacedPair(s: State, t: Tid, c: Cid, o: Cid, ok: bool)
    requires t in s.threads && s.threads[t] == Creating(c, CLocked, Some((o, ok))) && c in s.ctxs && o in s.ctxs
    requires ThreadOk(s.ctxs, t, s.threads[t]) && CtxOk(s, c, s.ctxs[c]) && CtxOk(s, o, s.ctxs[o])
    ensures var s' := StartRequest(s, t, c, Some((o, ok))); CtxOk(s', c, s'.ctxs[c]) && CtxOk(s', o, s'.ctxs[o])
  {
  }

  lemma ReplacedOther(s: State, t: Tid, c: Cid, o: Cid, ok: bool, d: Cid)
    requires t in s.threads && s.threads[t] == Creating(c, CLocked, Some((o, ok))) && c in s.ctxs && o in s.ctxs
    requires c != o && d in s.ctxs && d != c && d != o && CtxOk(s, d, s.ctxs[d])
    ensures var s' := StartRequest(s, t, c, Some((o, ok))); d in s'.ctxs && CtxOk(s', d, s'.ctxs[d])
  {
    var s' := StartRequest(s, t, c, Some((o, ok)));
    OtherCtx(s, s', t, s'.threads[t], d, s.ctxs[d]);
  }

  lemma ReplaceCtxs(s: State, t: Tid, c: Cid, o: Cid, ok: bool, d: Cid)
    requires Inv(s) && t in s.threads && s.threads[t] == Creating(c, CLocked, Some((o, ok))) && d in s.ctxs
    ensures var s' := StartRequest(s, t, c, Some((o, ok))); CtxOk(s', d, s'.ctxs[d])
  {
    assert ThreadOk(s.ctxs, t, s.threads[t]);
    assert CtxOk(s, c, s.ctxs[c]) && CtxOk(s, o, s.ctxs[o]) && CtxOk(s, d, s.ctxs[d]);
    if d == c || d == o {
      ReplacedPair(s, t, c, o, ok);
    } else {
      ReplacedOther(s, t, c, o, ok, d);
    }
  }

  lemma ReplaceKeeps(s: State, t: Tid, c: Cid, o: Cid, ok: bool)
    requires Inv(s) && t in s.threads && s.threads[t] == Creating(c, CLocked, Some((o, ok)))
    ensures Inv(StartRequest(s, t, c, Some((o, ok))))
  {
    var s' := StartRequest(s, t, c, Some((o, ok)));
    forall u | u in s'.threads ensures ThreadOk(s'.ctxs, u, s'.threads[u]) {
      ReplaceThreads(s, t, c, o, ok, u);
    }
    forall d | d in s'.ctxs ensures CtxOk(s', d, s'.ctxs[d]) {
      ReplaceCtxs(s, t, c, o, ok, d);
    }
    assert s'.ctxs.Keys == s.ctxs.Keys;
    ReplaceCounts(s, t, c, o, ok);
  }

  lemma CreateLocks(s: State, t: Tid, c: Cid, outer: Option<(Cid, bool)>)
    requires t in s.threads && s.threads[t] == Creating(c, CWantLock, outer) && CanRun(s, s.threads[t])
    requires CtxOk(s, c, s.ctxs[c]) && ThreadOk(s.ctxs, t, s.threads[t])
    ensures GoodMove(s, RunCreating(s, t, c, CWantLock, outer), c, t)
  {
  }

  lemma CreateMarks(s: State, t: Tid, c: Cid, outer: Option<(Cid, bool)>)
    requires t in s.threads && s.threads[t] == Creating(c, CStarted, outer) && CanRun(s, s.threads[t])
    requires CtxOk(s, c, s.ctxs[c]) && ThreadOk(s.ctxs, t, s.threads[t])
    ensures GoodMove(s, RunCreating(s, t, c, CStarted, outer), c, t)
  {
  }

  lemma CreateUnlocks(s: State, t: Tid, c: Cid, outer: Option<(Cid, bool)>)
    requires t in s.threads && s.threads[t] == Creating(c, CWritten, outer) && CanRun(s, s.threads[t])
    requires CtxOk(s, c, s.ctxs[c]) && ThreadOk(s.ctxs, t, s.threads[t])
    ensures GoodMove(s, RunCreating(s, t, c, CWritten, outer), c, t)
  {
  }

  lemma CreatingKeeps(s: State, t: Tid, c: Cid, cpc: CreatePc, outer: Option<(Cid, bool)>)
    requires Inv(s) && t in s.threads && s.threads[t] == Creating(c, cpc, outer) && CanRun(s, s.threads[t])
    requires cpc != CLocked
    ensures Inv(RunCreating(s, t, c, cpc, outer))
  {
    assert CtxOk(s, c, s.ctxs[c]) && ThreadOk(s.ctxs, t, s.threads[t]);
    match cpc {
      case CWantLock => CreateLocks(s, t, c, outer);
      case CStarted => CreateMarks(s, t, c, outer);
      case CWritten => CreateUnlocks(s, t, c, outer);
    }
    ThreadStep(s, RunCreating(s, t, c, cpc, outer), c, t);
  }

  lemma HandleLocks(s: State, t: Tid, c: Cid, kind: Kind, ok: bool)
    requires t in s.threads && s.threads[t] == Handling(c, kind, ok, WantLock) && CanRun(s, s.threads[t])
    requires CtxOk(s, c, s.ctxs[c]) && ThreadOk(s.ctxs, t, s.threads[t])
    ensures GoodMove(s, RunHandling(s, t, c, kind, ok, WantLock), c, t)
  {
  }

  lemma HandleSent(s: State, t: Tid, c: Cid, ok: bool)
    requires t in s.threads && s.threads[t] == Handling(c, SendDone, ok, Locked) && CanRun(s, s.threads[t])
    requires CtxOk(s, c, s.ctxs[c]) && ThreadOk(s.ctxs, t, s.threads[t])
    ensures GoodMove(s, RunHandling(s, t, c, SendDone, ok, Locked), c, t)
  {
  }

  lemma HandleRuns(s: State, t: Tid, c: Cid, kind: Kind, ok: bool)
    requires t in s.threads && s.threads[t] == Handling(c, kind, ok, Successor) && CanRun(s, s.threads[t])
    requires CtxOk(s, c, s.ctxs[c]) && ThreadOk(s.ctxs, t, s.threads[t])
    ensures GoodMove(s, RunHandling(s, t, c, kind, ok, Successor), c, t)
  {
  }

  lemma HandleSends(s: State, t: Tid, c: Cid, kind: Kind, ok: bool)
    requires t in s.threads && s.threads[t] == Handling(c, kind, ok, Handled) && CanRun(s, s.threads[t])
    requires CtxOk(s, c, s.ctxs[c]) && ThreadOk(s.ctxs, t, s.threads[t])
    ensures GoodMove(s, RunHandling(s, t, c, kind, ok, Handled), c, t)
  {
  }

  lemma HandleMarks(s: State, t: Tid, c: Cid, kind: Kind, ok: bool)
    requires t in s.threads && s.threads[t] == Handling(c, kind, ok, SendPosted) && CanRun(s, s.threads[t])
    requires CtxOk(s, c, s.ctxs[c]) && ThreadOk(s.ctxs, t, s.threads[t])
    ensures GoodMove(s, RunHandling(s, t, c, kind, ok, SendPosted), c, t)
  {
  }

  lemma HandleUnlocks(s: State, t: Tid, c: Cid, kind: Kind, ok: bool)
    requires t in s.threads && s.threads[t] == Handling(c, kind, ok, Marked) && CanRun(s, s.threads[t])
    requires CtxOk(s, c, s.ctxs[c]) && ThreadOk(s.ctxs, t, s.threads[t])
    ensures GoodMove(s, RunHandling(s, t, c, kind, ok, Marked), c, t)
  {
  }

  lemma HandlingKeeps(s: State, t: Tid, c: Cid, kind: Kind, ok: bool, pc: HandlePc)
    requires Inv(s) && t in s.threads && s.threads[t] == Handling(c, kind, ok, pc) && CanRun(s, s.threads[t])
    requires pc != Unlocked && !(pc == Locked && kind == Arrival)
    ensures Inv(RunHandling(s, t, c, kind, ok, pc))
  {
    assert CtxOk(s, c, s.ctxs[c]) && ThreadOk(s.ctxs, t, s.threads[t]);
    match pc {
      case WantLock => HandleLocks(s, t, c, kind, ok);
      case Locked => HandleSent(s, t, c, ok);
      case Successor => HandleRuns(s, t, c, kind, ok);
      case Handled => HandleSends(s, t, c, kind, ok);
      case SendPosted => HandleMarks(s, t, c, kind, ok);
      case Marked => HandleUnlocks(s, t, c, kind, ok);
    }
    ThreadStep(s, RunHandling(s, t, c, kind, ok, pc), c, t);
  }

  lemma RunKeeps(s: State, t: Tid)
    requires Inv(s) && Enabled(s, Run(t))
    ensures Inv(Next(s, Run(t)))
  {
    match s.threads[t]
    case Creating(c, cpc, outer) =>
      if cpc != CLocked {
        CreatingKeeps(s, t, c, cpc, outer);
      } else if outer.None? {
        StartKeeps(s, t, c);
      } else {
        ReplaceKeeps(s, t, c, outer.value.0, outer.value.1);
      }
    case Handling(c, kind, ok, pc) =>
      if pc == Unlocked {
        DeleteKeeps(s, t);
      } else if pc == Locked && kind == Arrival {
        NewCtxKeeps(s, t, s.ctxs[c].rpc, Some((c, ok)));
      } else {
        HandlingKeeps(s, t, c, kind, ok, pc);
      }
  }

  lemma StepKeepsInv(s: State, a: Action)
    requires Inv(s) && Enabled(s, a)
    ensures Inv(Next(s, a))
  {
    match a
    case Register(t, m) => NewCtxKeeps(s, t, m, None);
    case Arrive(c, ok) =>
      ArriveMoves(s, c, ok);
      RuntimeStep(s, Next(s, a), c);
    case SendComplete(c, ok) =>
      SendCompleteMoves(s, c, ok);
      RuntimeStep(s, Next(s, a), c);
    case Poll(t, c) =>
      PollMoves(s, t, c);
      ThreadStep(s, Next(s, a), c, t);
    case Run(t) => RunKeeps(s, t);
  }

  lemma {:induction false} InvInRuns(run: seq<State>, acts: seq<Action>, i: nat)
    requires IsRun(run, acts) && i < |run|
    ensures Inv(run[i])
  {
    if i == 0 {
      forall m ensures |Listeners(run[0].ctxs, m)| == Count(run[0], m) {
        assert Listeners(run[0].ctxs, m) == {};
      }
    } else {
      InvInRuns(run, acts, i - 1);
      assert run[i - 1 + 1] == Next(run[i - 1], acts[i - 1]);
      StepKeepsInv(run[i - 1], acts[i - 1]);
    }
  }

  // ---- Main results, for every state of every run ----

  /** Listeners are conserved: per method, the contexts that wait for a request
      plus those delivered and not yet replaced are as many as were registered. */
  lemma ListenersConserved(run: seq<State>, acts: seq<Action>, i: nat, m: Method)
    requires IsRun(run, acts) && i < |run|
    ensures |Listeners(run[i].ctxs, m)| == Count(run[i], m)
    ensures forall c :: c in Listeners(run[i].ctxs, m) ==>
              || c in run[i].listening
              || (c in run[i].cq && run[i].cq[c].kind == Arrival)
              || (run[i].ctxs[c].owner in run[i].threads && Owns(run[i].threads[run[i].ctxs[c].owner], c, Taken))
    ensures forall c :: c in run[i].listening ==>
              c in run[i].ctxs && (run[i].ctxs[c].rpc == m ==> c in Listeners(run[i].ctxs, m))
  {
    InvInRuns(run, acts, i);
    assert CountOk(run[i]);
    forall c | c in run[i].ctxs ensures CtxOk(run[i], c, run[i].ctxs[c]) {}
  }

  /** The lock makes an arrival event find PROCESS and a send-done event find
      FINISH, however early they are delivered. */
  lemma EventSeesItsStatus(run: seq<State>, acts: seq<Action>, i: nat, t: Tid)
    requires IsRun(run, acts) && i < |run| && t in run[i].threads
    requires run[i].threads[t].Handling? && run[i].threads[t].pc == Locked
    ensures run[i].threads[t].h in run[i].ctxs
    ensures run[i].ctxs[run[i].threads[t].h].status
         == if run[i].threads[t].kind == Arrival then PROCESS else FINISH
  {
    InvInRuns(run, acts, i);
    assert ThreadOk(run[i].ctxs, t, run[i].threads[t]);
  }

  predicate Mentions(th: Thread, c: Cid) {
    match th
    case Idle => false
    case Creating(x, _, outer) => x == c || (outer.Some? && outer.value.0 == c)
    case Handling(x, _, _, _) => x == c
  }

  /** A thread inside Proceed refers only to live contexts, and at most one
      thread is in the critical section of a context. */
  lemma OnlyLiveContextsTouched(run: seq<State>, acts: seq<Action>, i: nat, t: Tid, c: Cid)
    requires IsRun(run, acts) && i < |run| && t in run[i].threads && Mentions(run[i].threads[t], c)
    ensures c in run[i].ctxs && c !in run[i].retired
    ensures forall u :: u in run[i].threads && u != t && Holds(run[i].threads[t], c) ==> !Holds(run[i].threads[u], c)
  {
    var s := run[i];
    InvInRuns(run, acts, i);
    assert ThreadOk(s.ctxs, t, s.threads[t]);
    forall u | u in s.threads && u != t && Holds(s.threads[t], c) ensures !Holds(s.threads[u], c) {
      assert ThreadOk(s.ctxs, u, s.threads[u]);
    }
  }

  /** When a thread is about to delete a context, no other thread refers to it,
      no event for it is pending and none can come. */
  lemma DeleterIsAlone(run: seq<State>, acts: seq<Action>, i: nat, t: Tid, u: Tid)
    requires IsRun(run, acts) && i < |run| && t in run[i].threads && u in run[i].threads && t != u
    requires run[i].threads[t].Handling? && run[i].threads[t].pc == Unlocked
    ensures var c := run[i].threads[t].h;
            && !Mentions(run[i].threads[u], c)
            && c !in run[i].listening && c !in run[i].sending && c !in run[i].cq
  {
    var s, c := run[i], run[i].threads[t].h;
    InvInRuns(run, acts, i);
    assert ThreadOk(s.ctxs, t, s.threads[t]) && ThreadOk(s.ctxs, u, s.threads[u]);
    assert CtxOk(s, c, s.ctxs[c]);
    NotReferenced(s.ctxs, c, t, u, s.threads[u]);
  }

  /** A deleted context with a good request ran its handler once and sent one
      reply; with a failed one it did neither. Deletions are final. */
  lemma OneHandlerOneReply(run: seq<State>, acts: seq<Action>, i: nat, c: Cid)
    requires IsRun(run, acts) && i < |run| && c in run[i].retired
    ensures RecordOk(run[i].retired[c]) && c !in run[i].ctxs
    ensures c !in run[i].listening && c !in run[i].sending && c !in run[i].cq
    ensures forall t :: t in run[i].threads ==> !Mentions(run[i].threads[t], c)
  {
    InvInRuns(run, acts, i);
    forall t | t in run[i].threads ensures !Mentions(run[i].threads[t], c) {
      assert ThreadOk(run[i].ctxs, t, run[i].threads[t]);
    }
  }

  /** A thread inside Proceed is never stuck: it can run, or the thread whose
      lock it waits for can. */
  lemma ProceedMakesProgress(run: seq<State>, acts: seq<Action>, i: nat, t: Tid) returns (u: Tid)
    requires IsRun(run, acts) && i < |run| && t in run[i].threads && run[i].threads[t] != Idle
    ensures Enabled(run[i], Run(u))
  {
    var s := run[i];
    InvInRuns(run, acts, i);
    assert ThreadOk(s.ctxs, t, s.threads[t]);
    u := t;
    if s.threads[t].Handling? && s.threads[t].pc == WantLock && s.ctxs[s.threads[t].h].lock.Some? {
      assert CtxOk(s, s.threads[t].h, s.ctxs[s.threads[t].h]);
      u := s.ctxs[s.threads[t].h].lock.value;
      assert ThreadOk(s.ctxs, u, s.threads[u]);
    }
  }
}
