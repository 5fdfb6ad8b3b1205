/** The thread pool as interleaved steps of workers, producers and the thread
    that shuts it down: a counting semaphore, a queue under a lock, and null
    items that tell workers to stop. */
module ThreadPool {
  import opened Status

  type Item = nat

  /** A queue element; None is the null work item. */
  type Work = Option<Item>

  datatype Stage =
    | Waiting              // in sem_wait
    | Popping              // past sem_wait, about to take the queue lock
    | Running(item: Item)
    | Done

  datatype Worker = Worker(stage: Stage, nulls: nat)

  datatype Closer =
    | NotStarted
    | Enqueueing(k: nat)   // k nulls enqueued and posted
    | Posting(k: nat)      // null number k + 1 enqueued, not yet posted
    | Joining(k: nat)      // k workers joined
    | Closed

  /** `producers` holds those that have enqueued but not posted; `log` and
      `popped` record everything ever enqueued and dequeued, in order. */
  datatype State = State(queue: seq<Work>, sem: nat, workers: seq<Worker>, producers: set<nat>, closer: Closer,
                         log: seq<Work>, popped: seq<Work>, ran: multiset<Item>, fault: bool)

  ghost predicate Init(s: State) {
    && s.queue == [] && s.sem == 0 && s.producers == {} && s.closer == NotStarted
    && s.log == [] && s.popped == [] && s.ran == multiset{} && !s.fault
    && forall w :: 0 <= w < |s.workers| ==> s.workers[w] == Worker(Waiting, 0)
  }

  datatype Action =
    | Enqueue(producer: nat, item: Item)
    | Post(producer: nat)
    | SemWait(worker: nat)
    | Pop(worker: nat)
    | Finish(worker: nat)
    | Close

  predicate Enabled(s: State, a: Action) {
    match a
    case Enqueue(p, _) => p !in s.producers
    case Post(p) => p in s.producers
    case SemWait(w) => w < |s.workers| && s.workers[w].stage == Waiting && s.sem > 0
    case Pop(w) => w < |s.workers| && s.workers[w].stage == Popping
    case Finish(w) => w < |s.workers| && s.workers[w].stage.Running?
    case Close =>
      match s.closer
      case Joining(k) => k < |s.workers| ==> s.workers[k].stage == Done
      case Closed => false
      case _ => true
  }

  function Push(s: State, x: Work): State {
    s.(queue := s.queue + [x], log := s.log + [x])
  }

  function SetWorker(s: State, w: nat, x: Worker): State
    requires w < |s.workers|
  {
    s.(workers := s.workers[w := x])
  }

  function Take(s: State, w: nat): State
    requires Enabled(s, Pop(w))
  {
    if s.queue == [] then s.(fault := true) else
      var x := s.queue[0];
      var s' := s.(queue := s.queue[1..], popped := s.popped + [x]);
      if x.None? then SetWorker(s', w, Worker(Done, s.workers[w].nulls + 1))
      else SetWorker(s', w, s.workers[w].(stage := Running(x.value)))
  }

  function CloseStep(s: State): State
    requires Enabled(s, Close)
  {
    var n := |s.workers|;
    match s.closer
    case NotStarted => s.(closer := if n == 0 then Closed else Enqueueing(0))
    case Enqueueing(k) => if k < n then Push(s, None).(closer := Posting(k)) else s.(closer := Joining(0))
    case Posting(k) => s.(sem := s.sem + 1, closer := Enqueueing(k + 1))
    case Joining(k) => s.(closer := if k < n then Joining(k + 1) else Closed)
  }

  function Next(s: State, a: Action): State
    requires Enabled(s, a)
  {
    match a
    case Enqueue(p, item) => Push(s, Some(item)).(producers := s.producers + {p})
    case Post(p) => s.(sem := s.sem + 1, producers := s.producers - {p})
    case SemWait(w) => SetWorker(s.(sem := s.sem - 1), w, s.workers[w].(stage := Popping))
    case Pop(w) => Take(s, w)
    case Finish(w) =>
      SetWorker(s.(ran := s.ran + multiset{s.workers[w].stage.item}), w, s.workers[w].(stage := Waiting))
    case Close => CloseStep(s)
  }

  ghost predicate IsRun(run: seq<State>, acts: seq<Action>) {
    && |run| == |acts| + 1 && Init(run[0])
    && forall i :: 0 <= i < |acts| ==> Enabled(run[i], acts[i]) && run[i + 1] == Next(run[i], acts[i])
  }

  // ---- Counting ----

  ghost function AtStage(ws: seq<Worker>, st: Stage): set<nat> {
    set w: nat | w < |ws| && ws[w].stage == st
  }

  lemma AtStageMove(ws: seq<Worker>, w: nat, x: Worker, st: Stage)
    requires w < |ws|
    ensures |AtStage(ws[w := x], st)|
         == |AtStage(ws, st)| + (if x.stage == st then 1 else 0) - (if ws[w].stage == st then 1 else 0)
  {
    Toggle(AtStage(ws, st), AtStage(ws[w := x], st), w);
  }

  lemma Toggle(a: set<nat>, b: set<nat>, w: nat)
    requires forall v :: v != w ==> (v in a <==> v in b)
    ensures |b| == |a| + (if w in b then 1 else 0) - (if w in a then 1 else 0)
  {
    assert b == if w in b then a + {w} else a - {w};
  }

  ghost function Nulls(s: seq<Work>): nat {
    if s == [] then 0 else Nulls(s[..|s| - 1]) + if s[|s| - 1].None? then 1 else 0
  }

  ghost function Items(s: seq<Work>): multiset<Item> {
    if s == [] then multiset{} else
      Items(s[..|s| - 1]) + if s[|s| - 1].None? then multiset{} else multiset{s[|s| - 1].value}
  }

  lemma PushLast<T>(a: seq<T>, b: seq<T>, x: T)
    ensures a + (b + [x]) == a + b + [x]
  {}

  lemma PopFirst<T>(a: seq<T>, b: seq<T>)
    requires b != []
    ensures a + [b[0]] + b[1..] == a + b
  {}

  lemma PushCounts(s: seq<Work>, x: Work)
    ensures Nulls(s + [x]) == Nulls(s) + if x.None? then 1 else 0
    ensures Items(s + [x]) == Items(s) + if x.None? then multiset{} else multiset{x.value}
  {
    assert (s + [x])[..|s|] == s;
  }

  lemma {:induction false} NullsConcat(a: seq<Work>, b: seq<Work>)
    ensures Nulls(a + b) == Nulls(a) + Nulls(b)
  {
    if b == [] {
      assert a + b == a;
    } else {
      var n := |b| - 1;
      assert (a + b)[..|a + b| - 1] == a + b[..n];
      NullsConcat(a, b[..n]);
    }
  }

  /** The items workers are running now. */
  ghost function InProgress(ws: seq<Worker>): multiset<Item> {
    if ws == [] then multiset{} else InProgress(ws[1..]) + Own(ws[0])
  }

  ghost function Own(w: Worker): multiset<Item> {
    if w.stage.Running? then multiset{w.stage.item} else multiset{}
  }

  lemma {:induction false} InProgressMove(ws: seq<Worker>, w: nat, x: Worker)
    requires w < |ws|
    ensures InProgress(ws[w := x]) + Own(ws[w]) == InProgress(ws) + Own(x)
  {
    var ws' := ws[w := x];
    if w == 0 {
      assert ws'[1..] == ws[1..];
      assert InProgress(ws') == InProgress(ws[1..]) + Own(x);
    } else {
      InProgressMove(ws[1..], w - 1, x);
      assert ws'[1..] == ws[1..][w - 1 := x];
      var r, r', a := InProgress(ws[1..]), InProgress(ws'[1..]), Own(ws[0]);
      assert r' + a + Own(ws[w]) == r' + Own(ws[w]) + a == r + Own(x) + a == r + a + Own(x);
    }
  }

  // ---- Invariant ----

  ghost function Unposted(producers: set<nat>, closer: Closer): nat {
    |producers| + if closer.Posting? then 1 else 0
  }

  /** The semaphore accounts for every queued item. */
  ghost predicate SemOk(queued: nat, sem: nat, ws: seq<Worker>, unposted: nat) {
    queued == sem + |AtStage(ws, Popping)| + unposted
  }

  ghost predicate SemInv(s: State) {
    SemOk(|s.queue|, s.sem, s.workers, Unposted(s.producers, s.closer))
  }

  ghost predicate LogInv(s: State) {
    s.log == s.popped + s.queue
  }

  ghost function NullsEnqueued(c: Closer, n: nat): nat {
    match c
    case NotStarted => 0
    case Enqueueing(k) => k
    case Posting(k) => k + 1
    case _ => n
  }

  ghost predicate CloserOk(log: seq<Work>, n: nat, c: Closer) {
    && Nulls(log) == NullsEnqueued(c, n)
    && (c.Enqueueing? || c.Joining? ==> c.k <= n)
    && (c.Posting? ==> c.k < n)
  }

  ghost predicate NullsTaken(popped: seq<Work>, ws: seq<Worker>) {
    && Nulls(popped) == |AtStage(ws, Done)|
    && (|ws| > 0 && |AtStage(ws, Done)| == |ws| ==> popped != [] && popped[|popped| - 1].None?)
  }

  ghost predicate NullInv(s: State) {
    CloserOk(s.log, |s.workers|, s.closer) && NullsTaken(s.popped, s.workers)
  }

  ghost predicate RanOk(ran: multiset<Item>, ws: seq<Worker>, popped: seq<Work>) {
    ran + InProgress(ws) == Items(popped)
  }

  ghost predicate RanInv(s: State) {
    RanOk(s.ran, s.workers, s.popped)
  }

  ghost predicate WorkersOk(ws: seq<Worker>, closer: Closer) {
    && (forall w :: 0 <= w < |ws| ==> ws[w].nulls == if ws[w].stage == Done then 1 else 0)
    && (closer.Joining? ==> forall w :: 0 <= w < closer.k && w < |ws| ==> ws[w].stage == Done)
    && (closer.Closed? ==> forall w :: 0 <= w < |ws| ==> ws[w].stage == Done)
  }

  ghost predicate WorkerInv(s: State) {
    !s.fault && WorkersOk(s.workers, s.closer)
  }

  ghost predicate Inv(s: State) {
    SemInv(s) && LogInv(s) && NullInv(s) && RanInv(s) && WorkerInv(s)
  }

  lemma StagesBounded(ws: seq<Worker>, st: Stage)
    ensures |AtStage(ws, st)| <= |ws|
    ensures |AtStage(ws, st)| == |ws| <==> forall w :: 0 <= w < |ws| ==> ws[w].stage == st
  {
    var a, all := AtStage(ws, st), Below(|ws|);
    assert a <= all && |all - a| == |all| - |a|;
    assert |a| == |ws| <==> all - a == {};
    if |a| == |ws| {
      forall w | 0 <= w < |ws| ensures ws[w].stage == st {
        assert w in all;
      }
    }
    if forall w :: 0 <= w < |ws| ==> ws[w].stage == st {
      assert all - a == {};
    }
  }

  ghost function Below(n: nat): (r: set<nat>)
    ensures |r| == n && forall w :: w in r <==> 0 <= w < n
  {
    if n == 0 then {} else Below(n - 1) + {n - 1}
  }

  lemma EnqueueKeeps(s: State, p: nat, item: Item)
    requires Inv(s) && p !in s.producers
    ensures Inv(Next(s, Enqueue(p, item)))
  {
    PushCounts(s.log, Some(item));
    PushLast(s.popped, s.queue, Some(item));
  }

  lemma InProgressSame(ws: seq<Worker>, w: nat, x: Worker)
    requires w < |ws| && !ws[w].stage.Running? && !x.stage.Running?
    ensures InProgress(ws[w := x]) == InProgress(ws)
  {
    InProgressMove(ws, w, x);
    assert InProgress(ws[w := x]) + multiset{} == InProgress(ws[w := x]);
    assert InProgress(ws) + multiset{} == InProgress(ws);
  }

  lemma SemWaitKeeps(s: State, w: nat)
    requires Inv(s) && Enabled(s, SemWait(w))
    ensures Inv(Next(s, SemWait(w)))
  {
    var x := s.workers[w].(stage := Popping);
    AtStageMove(s.workers, w, x, Popping);
    AtStageMove(s.workers, w, x, Done);
    InProgressSame(s.workers, w, x);
  }

  /** A worker past the semaphore always finds an item. */
  lemma QueueNotEmpty(s: State, w: nat)
    requires SemInv(s) && Enabled(s, Pop(w))
    ensures s.queue != []
  {
    assert w in AtStage(s.workers, Popping);
  }

  lemma MoreInProgress(ran: multiset<Item>, now: multiset<Item>, own: multiset<Item>, later: multiset<Item>)
    requires later + multiset{} == now + own
    ensures ran + later == ran + now + own
  {
    assert later + multiset{} == later;
  }

  lemma LessInProgress(ran: multiset<Item>, now: multiset<Item>, own: multiset<Item>, later: multiset<Item>)
    requires later + own == now + multiset{}
    ensures (ran + own) + later == ran + now
  {
    assert now + multiset{} == now;
    assert (ran + own) + later == ran + (later + own);
  }

  /** A worker with nothing in progress takes `q`. */
  lemma TakeKeepsRan(ran: multiset<Item>, ws: seq<Worker>, popped: seq<Work>, w: nat, x: Worker, q: Work)
    requires RanOk(ran, ws, popped) && w < |ws| && Own(ws[w]) == multiset{}
    requires Own(x) == if q.None? then multiset{} else multiset{q.value}
    ensures RanOk(ran, ws[w := x], popped + [q])
  {
    InProgressMove(ws, w, x);
    PushCounts(popped, q);
    MoreInProgress(ran, InProgress(ws), Own(x), InProgress(ws[w := x]));
  }

  lemma PopKeepsRan(s: State, w: nat)
    requires RanInv(s) && Enabled(s, Pop(w)) && s.queue != []
    ensures RanInv(Next(s, Pop(w)))
  {
    TakeKeepsRan(s.ran, s.workers, s.popped, w, Next(s, Pop(w)).workers[w], s.queue[0]);
  }

  lemma PopKeepsNulls(s: State, w: nat)
    requires Inv(s) && Enabled(s, Pop(w)) && s.queue != []
    ensures NullInv(Next(s, Pop(w))) && SemInv(Next(s, Pop(w)))
  {
    var s' := Next(s, Pop(w));
    var x, q := s'.workers[w], s.queue[0];
    AtStageMove(s.workers, w, x, Popping);
    AtStageMove(s.workers, w, x, Done);
    PushCounts(s.popped, q);
    StagesBounded(s'.workers, Done);
    assert s'.workers[w].stage == Done <==> q.None?;
  }

  lemma PopKeepsWorkers(s: State, w: nat)
    requires LogInv(s) && WorkerInv(s) && Enabled(s, Pop(w)) && s.queue != []
    ensures WorkerInv(Next(s, Pop(w))) && LogInv(Next(s, Pop(w)))
  {
    PopFirst(s.popped, s.queue);
  }

  lemma PopKeeps(s: State, w: nat)
    requires Inv(s) && Enabled(s, Pop(w))
    ensures Inv(Next(s, Pop(w)))
  {
    QueueNotEmpty(s, w);
    PopKeepsRan(s, w);
    PopKeepsNulls(s, w);
    PopKeepsWorkers(s, w);
  }

  lemma FinishKeepsRan(s: State, w: nat)
    requires RanInv(s) && Enabled(s, Finish(w))
    ensures RanInv(Next(s, Finish(w)))
  {
    var x, item := s.workers[w].(stage := Waiting), multiset{s.workers[w].stage.item};
    InProgressMove(s.workers, w, x);
    LessInProgress(s.ran, InProgress(s.workers), item, InProgress(s.workers[w := x]));
  }

  lemma FinishKeepsNulls(s: State, w: nat)
    requires SemInv(s) && NullInv(s) && Enabled(s, Finish(w))
    ensures SemInv(Next(s, Finish(w))) && NullInv(Next(s, Finish(w)))
  {
    var x := s.workers[w].(stage := Waiting);
    AtStageMove(s.workers, w, x, Popping);
    AtStageMove(s.workers, w, x, Done);
  }

  lemma FinishKeepsWorkers(s: State, w: nat)
    requires WorkerInv(s) && Enabled(s, Finish(w))
    ensures WorkerInv(Next(s, Finish(w)))
  {
  }

  lemma FinishKeeps(s: State, w: nat)
    requires Inv(s) && Enabled(s, Finish(w))
    ensures Inv(Next(s, Finish(w)))
  {
    FinishKeepsRan(s, w);
    FinishKeepsNulls(s, w);
    FinishKeepsWorkers(s, w);
  }

  lemma CloseKeepsNulls(s: State)
    requires NullInv(s) && Enabled(s, Close)
    ensures NullInv(CloseStep(s))
  {
    if s.closer.Enqueueing? && s.closer.k < |s.workers| {
      PushCounts(s.log, None);
    }
  }

  lemma CloseKeepsQueue(s: State)
    requires SemInv(s) && LogInv(s) && Enabled(s, Close)
    ensures SemInv(CloseStep(s)) && LogInv(CloseStep(s))
  {
    if s.closer.Enqueueing? && s.closer.k < |s.workers| {
      PushLast(s.popped, s.queue, None);
    }
  }

  lemma CloseKeeps(s: State)
    requires Inv(s) && Enabled(s, Close)
    ensures Inv(Next(s, Close))
  {
    CloseKeepsNulls(s);
    CloseKeepsQueue(s);
  }

  lemma StepKeepsInv(s: State, a: Action)
    requires Inv(s) && Enabled(s, a)
    ensures Inv(Next(s, a))
  {
    match a
    case Enqueue(p, item) => EnqueueKeeps(s, p, item);
    case Post(p) =>
    case SemWait(w) => SemWaitKeeps(s, w);
    case Pop(w) => PopKeeps(s, w);
    case Finish(w) => FinishKeeps(s, w);
    case Close => CloseKeeps(s);
  }

  lemma {:induction false} InProgressNone(ws: seq<Worker>)
    requires forall w :: 0 <= w < |ws| ==> !ws[w].stage.Running?
    ensures InProgress(ws) == multiset{}
  {
    if ws != [] {
      InProgressNone(ws[1..]);
    }
  }

  lemma {:induction false} InvInRuns(run: seq<State>, acts: seq<Action>, i: nat)
    requires IsRun(run, acts) && i < |run|
    ensures Inv(run[i])
  {
    if i == 0 {
      var s := run[0];
      InProgressNone(s.workers);
      assert AtStage(s.workers, Popping) == {} && AtStage(s.workers, Done) == {};
    } else {
      InvInRuns(run, acts, i - 1);
      assert run[i - 1 + 1] == Next(run[i - 1], acts[i - 1]);
      StepKeepsInv(run[i - 1], acts[i - 1]);
    }
  }

  // ---- Main results, for every state of every run ----

  /** The queue holds the semaphore's value, plus one item for each worker past
      the wait, plus one for each enqueuer that has not posted; so no worker
      ever pops from an empty queue. */
  lemma SemaphoreIsExact(run: seq<State>, acts: seq<Action>, i: nat)
    requires IsRun(run, acts) && i < |run|
    ensures |run[i].queue| == run[i].sem + |AtStage(run[i].workers, Popping)| + Unposted(run[i].producers,
        run[i].closer)
    ensures !run[i].fault
    ensures forall w :: Enabled(run[i], Pop(w)) ==> run[i].queue != []
  {
    InvInRuns(run, acts, i);
    forall w | Enabled(run[i], Pop(w)) ensures run[i].queue != [] {
      QueueNotEmpty(run[i], w);
    }
  }

  /** Once WaitAndCleanUp returns, every worker has consumed exactly one null,
      what was dequeued is the enqueue order up to and including the last null,
      and exactly the items before that null ran, once each. */
  lemma DrainIsExact(run: seq<State>, acts: seq<Action>, i: nat)
    requires IsRun(run, acts) && i < |run| && run[i].closer.Closed? && |run[i].workers| > 0
    ensures forall w :: 0 <= w < |run[i].workers| ==> run[i].workers[w] == Worker(Done, 1)
    ensures run[i].popped != [] && run[i].popped[|run[i].popped| - 1].None?
    ensures run[i].log == run[i].popped + run[i].queue
    ensures forall j :: 0 <= j < |run[i].queue| ==> run[i].queue[j].Some?
    ensures run[i].ran == Items(run[i].popped)
  {
    var s := run[i];
    InvInRuns(run, acts, i);
    StagesBounded(s.workers, Done);
    InProgressNone(s.workers);
    NullsConcat(s.popped, s.queue);
    assert Nulls(s.queue) == 0;
    NoNulls(s.queue);
    assert s.ran + multiset{} == s.ran;
  }

  lemma {:induction false} NoNulls(s: seq<Work>)
    requires Nulls(s) == 0
    ensures forall j :: 0 <= j < |s| ==> s[j].Some?
  {
    if s != [] {
      var init := s[..|s| - 1];
      NoNulls(init);
      forall j | 0 <= j < |s| ensures s[j].Some? {
        assert j < |init| ==> s[j] == init[j];
      }
    }
  }

  /** No deadlock: a clean-up that has begun and not returned, or a pending
      item, always leaves a step to take. */
  lemma CleanUpMakesProgress(run: seq<State>, acts: seq<Action>, i: nat) returns (a: Action)
    requires IsRun(run, acts) && i < |run| && !run[i].closer.NotStarted? && !run[i].closer.Closed?
    ensures !a.Enqueue? && Enabled(run[i], a)
  {
    var s := run[i];
    InvInRuns(run, acts, i);
    if Enabled(s, Close) {
      a := Close;
    } else {
      var k := s.closer.k;
      var w := s.workers[k];
      match w.stage
      case Popping => a := Pop(k);
      case Running(_) => a := Finish(k);
      case Waiting => a := WakeSomeone(s, k);
    }
  }

  /** A worker that still waits during the joins can be woken: its null is in
      the queue, so the semaphore is positive or somebody holds a claim. */
  lemma WakeSomeone(s: State, k: nat) returns (a: Action)
    requires Inv(s) && s.closer.Joining? && k < |s.workers| && s.workers[k].stage == Waiting
    ensures !a.Enqueue? && Enabled(s, a)
  {
    NullsConcat(s.popped, s.queue);
    StagesBounded(s.workers, Done);
    assert s.queue != [];
    if s.sem > 0 {
      a := SemWait(k);
    } else if p :| p in s.producers {
      a := Post(p);
    } else {
      assert s.producers == {};
      assert AtStage(s.workers, Popping) != {};
      var w :| w in AtStage(s.workers, Popping);
      a := Pop(w);
    }
  }
}
