/** The work-stealing thread pool: every worker owns a queue and a binary semaphore, and all share one
    counter of pending tasks. One step is one atomic operation, one locked queue operation, one semaphore
    operation or one task invocation; any number of threads call `execute`. */
module StealingPool {
  import opened Wrappers
  import opened Sums
  import Q = MpmcQueue
  import Runs

  type Handle = nat

  /** Where a thread inside `execute` stands. */
  datatype Enqueuer =
    | Idle
    | Adding(h: Handle, i: nat)     // queue chosen, about to fetch_add
    | Pushing(h: Handle, i: nat)    // counted, about to push
    | Releasing(i: nat)             // pushed, about to release the semaphore

  /** Where a worker thread stands. `own` tells a popped task from a stolen one. */
  datatype Worker =
    | Acquire
    | Pop
    | Took(h: Handle, own: bool)    // removed from a queue, about to fetch_sub
    | Invoke(h: Handle, own: bool)
    | Steal(j: nat)
    | Load
    | StopCheck
    | Exited

  datatype Pool = Pool(
    pending: int,
    queues: seq<seq<Handle>>,
    signals: seq<bool>,
    stops: seq<bool>,
    workers: seq<Worker>,
    enqueuers: seq<Enqueuer>,
    submitted: multiset<Handle>,    // history: non-null handles given to execute
    resumed: multiset<Handle>,      // history: handles invoked
    logs: seq<Q.History<Handle>>)   // history: what each queue has gone through

  datatype Step =
    | Execute(e: nat, arg: Option<Handle>, i: nat)
    | FetchAdd(e: nat)
    | Push(e: nat)
    | Release(e: nat)
    | AcquireSignal(w: nat)
    | PopOwn(w: nat)
    | StealNext(w: nat)
    | FetchSub(w: nat)
    | Resume(w: nat)
    | LoadPending(w: nat)
    | CheckStop(w: nat)
    | RequestStop(w: nat)
    | StopRelease(w: nat)

  ghost predicate Shape(s: Pool) {
    && 0 < |s.queues|
    && |s.signals| == |s.stops| == |s.workers| == |s.logs| == |s.queues|
    && (forall e :: 0 <= e < |s.enqueuers| ==> match s.enqueuers[e]
          case Idle => true
          case Adding(_, i) => i < |s.queues|
          case Pushing(_, i) => i < |s.queues|
          case Releasing(i) => i < |s.queues|)
    && forall w :: 0 <= w < |s.workers| && s.workers[w].Steal? ==> 1 <= s.workers[w].j < |s.queues|
  }

  ghost predicate Init(s: Pool) {
    && Shape(s)
    && s.pending == 0
    && s.submitted == s.resumed == multiset{}
    && (forall w :: 0 <= w < |s.queues| ==>
          s.queues[w] == [] && !s.signals[w] && !s.stops[w] && s.workers[w] == Acquire
          && s.logs[w] == Q.History([], [], [], []))
    && (forall e :: 0 <= e < |s.enqueuers| ==> s.enqueuers[e] == Idle)
  }

  /** The queue a worker looks at in round `j` of its stealing loop. */
  function Victim(n: nat, w: nat, j: nat): (r: nat)
    requires 0 < n
    ensures r < n
  {
    (w + j) % n
  }

  /** One stealing round looks at every other queue exactly once, and never at the worker's own. */
  lemma RoundVisitsEveryOtherQueueOnce(n: nat, w: nat, v: nat)
    requires w < n && v < n
    ensures v != w <==> exists j: nat :: 1 <= j < n && Victim(n, w, j) == v
    ensures forall j: nat, k: nat :: j < k < n ==> Victim(n, w, j) != Victim(n, w, k)
  {
    forall j: nat | j < n ensures Victim(n, w, j) == if w + j < n then w + j else w + j - n { Wrap(n, w + j); }
    if v != w {
      var j: nat := if v > w then v - w else v + n - w;
      assert 1 <= j < n && Victim(n, w, j) == v;
    }
  }

  lemma Wrap(n: nat, k: nat)
    requires 0 < n && k < 2 * n
    ensures k % n == if k < n then k else k - n
  {
  }

  function NextVictim(s: Pool, j: nat): Worker {
    if j < |s.queues| then Steal(j) else Load
  }

  ghost predicate Enabled(s: Pool, st: Step)
    requires Shape(s)
  {
    match st
    case Execute(e, _, i) => e < |s.enqueuers| && s.enqueuers[e] == Idle && i < |s.queues|
    case FetchAdd(e) => e < |s.enqueuers| && s.enqueuers[e].Adding?
    case Push(e) => e < |s.enqueuers| && s.enqueuers[e].Pushing?
    case Release(e) => e < |s.enqueuers| && s.enqueuers[e].Releasing?
    case AcquireSignal(w) => w < |s.workers| && s.workers[w].Acquire? && s.signals[w]
    case PopOwn(w) => w < |s.workers| && s.workers[w].Pop?
    case StealNext(w) => w < |s.workers| && s.workers[w].Steal?
    case FetchSub(w) => w < |s.workers| && s.workers[w].Took?
    case Resume(w) => w < |s.workers| && s.workers[w].Invoke?
    case LoadPending(w) => w < |s.workers| && s.workers[w].Load?
    case CheckStop(w) => w < |s.workers| && s.workers[w].StopCheck?
    case RequestStop(w) => w < |s.workers|
    case StopRelease(w) => w < |s.workers| && s.stops[w]
  }

  function SetEnqueuer(s: Pool, e: nat, c: Enqueuer): Pool
    requires e < |s.enqueuers|
  {
    s.(enqueuers := s.enqueuers[e := c])
  }

  function SetWorker(s: Pool, w: nat, c: Worker): Pool
    requires w < |s.workers|
  {
    s.(workers := s.workers[w := c])
  }

  /** One operation on queue `i` is entered in its history. */
  ghost function Log(s: Pool, i: nat, op: Q.Op<Handle>): Pool
    requires i < |s.logs|
  {
    s.(logs := s.logs[i := Q.After(s.logs[i], op)])
  }

  ghost function Apply(s: Pool, st: Step): Pool
    requires Shape(s) && Enabled(s, st)
  {
    match st
    case Execute(e, arg, i) =>
      (match arg
       case None => s
       case Some(h) => SetEnqueuer(s, e, Adding(h, i)).(submitted := s.submitted + multiset{h}))
    case FetchAdd(e) =>
      SetEnqueuer(s, e, Pushing(s.enqueuers[e].h, s.enqueuers[e].i)).(pending := s.pending + 1)
    case Push(e) =>
      var i := s.enqueuers[e].i;
      Log(SetEnqueuer(s, e, Releasing(i)).(queues := s.queues[i := s.queues[i] + [s.enqueuers[e].h]]),
          i, Q.Push(s.enqueuers[e].h))
    case Release(e) =>
      SetEnqueuer(s, e, Idle).(signals := s.signals[s.enqueuers[e].i := true])
    case AcquireSignal(w) =>
      SetWorker(s, w, Pop).(signals := s.signals[w := false])
    case PopOwn(w) =>
      var q := s.queues[w];
      if q == [] then SetWorker(s, w, NextVictim(s, 1))
      else Log(SetWorker(s, w, Took(q[0], true)).(queues := s.queues[w := q[1..]]), w, Q.Pop)
    case StealNext(w) =>
      var v := Victim(|s.queues|, w, s.workers[w].j);
      var q := s.queues[v];
      if q == [] then SetWorker(s, w, NextVictim(s, s.workers[w].j + 1))
      else Log(SetWorker(s, w, Took(q[|q| - 1], false)).(queues := s.queues[v := q[..|q| - 1]]), v, Q.Steal)
    case FetchSub(w) =>
      SetWorker(s, w, Invoke(s.workers[w].h, s.workers[w].own)).(pending := s.pending - 1)
    case Resume(w) =>
      SetWorker(s, w, if s.workers[w].own then Pop else Load).(resumed := s.resumed + multiset{s.workers[w].h})
    case LoadPending(w) =>
      SetWorker(s, w, if s.pending > 0 then Pop else StopCheck)
    case CheckStop(w) =>
      SetWorker(s, w, if s.stops[w] then Exited else Acquire)
    case RequestStop(w) =>
      s.(stops := s.stops[w := true])
    case StopRelease(w) =>
      s.(signals := s.signals[w := true])
  }

  ghost predicate Next(s: Pool, t: Pool) {
    Shape(s) && exists st :: Enabled(s, st) && t == Apply(s, st)
  }

  ghost predicate Reachable(s: Pool) {
    Runs.Reachable(Init, Next, s)
  }

  // ---- what each place holds ----

  function QueueLen(q: seq<Handle>): nat { |q| }
  function CountedPush(c: Enqueuer): nat { if c.Pushing? then 1 else 0 }
  function CountedTake(c: Worker): nat { if c.Took? then 1 else 0 }

  function InQueue(q: seq<Handle>): multiset<Handle> { multiset(q) }
  function InEnqueuer(c: Enqueuer): multiset<Handle> { if c.Adding? || c.Pushing? then multiset{c.h} else multiset{} }
  function InWorker(c: Worker): multiset<Handle> { if c.Took? || c.Invoke? then multiset{c.h} else multiset{} }

  /** The shared counter is exact: it covers queued tasks, pushes already counted, and takes not yet discounted. */
  ghost predicate CounterExact(s: Pool) {
    s.pending == Total(QueueLen, s.queues) + Total(CountedPush, s.enqueuers) + Total(CountedTake, s.workers)
  }

  /** Every handle submitted is in exactly one place. */
  ghost predicate HandlesConserved(s: Pool) {
    s.submitted == Gather(InEnqueuer, s.enqueuers) + Gather(InQueue, s.queues) + Gather(InWorker, s.workers) + s.resumed
  }

  ghost predicate Books(s: Pool) {
    CounterExact(s) && HandlesConserved(s)
  }

  ghost predicate InInnerLoop(c: Worker) {
    !c.Acquire? && !c.StopCheck? && !c.Exited?
  }

  ghost predicate BeingWoken(s: Pool, w: nat)
    requires Shape(s) && w < |s.queues|
  {
    s.signals[w] || exists e :: 0 <= e < |s.enqueuers| && s.enqueuers[e] == Releasing(w)
  }

  /** A live worker with work of its own is looking for it or will be woken. */
  ghost predicate Covered(s: Pool, w: nat)
    requires Shape(s) && w < |s.queues|
  {
    s.queues[w] != [] && !s.workers[w].Exited? ==> InInnerLoop(s.workers[w]) || BeingWoken(s, w)
  }

  /** No wakeup is lost. */
  ghost predicate NoLostWakeup(s: Pool)
    requires Shape(s)
  {
    forall w :: 0 <= w < |s.queues| ==> Covered(s, w)
  }

  /** Every queue is a deque whose history is that of the pushes, pops and steals made on it. */
  ghost predicate QueuesInOrder(s: Pool) {
    |s.logs| == |s.queues| && forall i :: 0 <= i < |s.queues| ==> Q.Holds(s.logs[i], s.queues[i])
  }

  ghost predicate Inv(s: Pool) {
    Shape(s) && Books(s) && NoLostWakeup(s) && QueuesInOrder(s)
  }

  // ---- the invariant is kept by every step ----

  lemma InitEstablishes(s: Pool)
    requires Init(s)
    ensures Inv(s)
  {
    TotalZero(QueueLen, s.queues);
    TotalZero(CountedPush, s.enqueuers);
    TotalZero(CountedTake, s.workers);
    GatherEmpty(InEnqueuer, s.enqueuers);
    GatherEmpty(InQueue, s.queues);
    GatherEmpty(InWorker, s.workers);
  }

  /** A worker that balances its own books, with one queue, keeps the global books balanced. */
  lemma WorkerAccounts(s: Pool, t: Pool, w: nat, v: nat)
    requires Books(s)
    requires t.enqueuers == s.enqueuers && t.submitted == s.submitted
    requires OnlyChanges(s.workers, t.workers, w) && OnlyChanges(s.queues, t.queues, v)
    requires t.pending - |t.queues[v]| - CountedTake(t.workers[w])
      == s.pending - |s.queues[v]| - CountedTake(s.workers[w])
    requires InWorker(t.workers[w]) + InQueue(t.queues[v]) + t.resumed
      == InWorker(s.workers[w]) + InQueue(s.queues[v]) + s.resumed
    ensures Books(t)
  {
    TotalChange(CountedTake, s.workers, t.workers, w);
    TotalChange(QueueLen, s.queues, t.queues, v);
    GatherChange(InWorker, s.workers, t.workers, w);
    GatherChange(InQueue, s.queues, t.queues, v);
    Rebalance(Gather(InWorker, s.workers), Gather(InWorker, t.workers), InWorker(s.workers[w]), InWorker(t.workers[w]),
              Gather(InQueue, s.queues), Gather(InQueue, t.queues), InQueue(s.queues[v]), InQueue(t.queues[v]),
              s.resumed, t.resumed);
    var f, x := Gather(InEnqueuer, s.enqueuers), Gather(InQueue, t.queues);
    var y, z := Gather(InWorker, t.workers), t.resumed;
    assert f + x + y + z == f + (y + x + z);
  }

  /** The same for a worker that leaves the queues alone. */
  lemma WorkerAloneAccounts(s: Pool, t: Pool, w: nat)
    requires Books(s)
    requires t.enqueuers == s.enqueuers && t.submitted == s.submitted && t.queues == s.queues
    requires OnlyChanges(s.workers, t.workers, w)
    requires t.pending - CountedTake(t.workers[w]) == s.pending - CountedTake(s.workers[w])
    requires InWorker(t.workers[w]) + t.resumed == InWorker(s.workers[w]) + s.resumed
    ensures Books(t)
  {
    TotalChange(CountedTake, s.workers, t.workers, w);
    GatherChange(InWorker, s.workers, t.workers, w);
    Exchange(Gather(InEnqueuer, s.enqueuers) + Gather(InQueue, s.queues),
             Gather(InWorker, s.workers), Gather(InWorker, t.workers),
             InWorker(s.workers[w]), InWorker(t.workers[w]), s.resumed, t.resumed);
  }

  /** The same for a thread inside `execute`. */
  lemma EnqueuerAccounts(s: Pool, t: Pool, e: nat, v: nat)
    requires Books(s)
    requires t.workers == s.workers && t.resumed == s.resumed
    requires OnlyChanges(s.enqueuers, t.enqueuers, e) && OnlyChanges(s.queues, t.queues, v)
    requires t.pending - |t.queues[v]| - CountedPush(t.enqueuers[e])
      == s.pending - |s.queues[v]| - CountedPush(s.enqueuers[e])
    requires InEnqueuer(t.enqueuers[e]) + InQueue(t.queues[v]) + s.submitted
      == InEnqueuer(s.enqueuers[e]) + InQueue(s.queues[v]) + t.submitted
    ensures Books(t)
  {
    TotalChange(CountedPush, s.enqueuers, t.enqueuers, e);
    TotalChange(QueueLen, s.queues, t.queues, v);
    GatherChange(InEnqueuer, s.enqueuers, t.enqueuers, e);
    GatherChange(InQueue, s.queues, t.queues, v);
    Rebalance(Gather(InEnqueuer, s.enqueuers), Gather(InEnqueuer, t.enqueuers),
              InEnqueuer(s.enqueuers[e]), InEnqueuer(t.enqueuers[e]),
              Gather(InQueue, s.queues), Gather(InQueue, t.queues), InQueue(s.queues[v]), InQueue(t.queues[v]),
              t.submitted, s.submitted);
    Regroup(Gather(InEnqueuer, s.enqueuers), Gather(InEnqueuer, t.enqueuers),
            Gather(InQueue, s.queues), Gather(InQueue, t.queues),
            s.submitted, t.submitted, Gather(InWorker, s.workers) + s.resumed);
    var x, y, z := Gather(InEnqueuer, t.enqueuers), Gather(InQueue, t.queues), Gather(InWorker, t.workers);
    assert x + y + z + t.resumed == x + y + (z + t.resumed);
  }

  ghost predicate Ready(s: Pool, st: Step) {
    Shape(s) && Enabled(s, st) && Books(s)
  }

  lemma ExecuteKeepsBooks(s: Pool, e: nat, arg: Option<Handle>, i: nat)
    requires Ready(s, Execute(e, arg, i))
    ensures Books(Apply(s, Execute(e, arg, i)))
  {
    EnqueuerAccounts(s, Apply(s, Execute(e, arg, i)), e, 0);
  }

  lemma FetchAddKeepsBooks(s: Pool, e: nat)
    requires Ready(s, FetchAdd(e))
    ensures Books(Apply(s, FetchAdd(e)))
  {
    EnqueuerAccounts(s, Apply(s, FetchAdd(e)), e, 0);
  }

  lemma ReleaseKeepsBooks(s: Pool, e: nat)
    requires Ready(s, Release(e))
    ensures Books(Apply(s, Release(e)))
  {
    EnqueuerAccounts(s, Apply(s, Release(e)), e, 0);
  }

  lemma PushKeepsBooks(s: Pool, e: nat)
    requires Ready(s, Push(e))
    ensures Books(Apply(s, Push(e)))
  {
    var i, h := s.enqueuers[e].i, s.enqueuers[e].h;
    assert InQueue(s.queues[i] + [h]) == InQueue(s.queues[i]) + multiset{h};
    EnqueuerAccounts(s, Apply(s, Push(e)), e, i);
  }

  /** Moving one handle from a queue into a worker's hands, from whichever end. */
  lemma TakeKeepsBooks(s: Pool, t: Pool, w: nat, v: nat, h: Handle, rest: seq<Handle>, own: bool)
    requires Books(s)
    requires w < |s.workers| && v < |s.queues|
    requires CountedTake(s.workers[w]) == 0 && InWorker(s.workers[w]) == multiset{}
    requires multiset(s.queues[v]) == multiset{h} + multiset(rest) && |s.queues[v]| == |rest| + 1
    requires t == SetWorker(s, w, Took(h, own)).(queues := s.queues[v := rest], logs := t.logs)
    ensures Books(t)
  {
    WorkerAccounts(s, t, w, v);
  }

  lemma PopOwnKeepsBooks(s: Pool, w: nat)
    requires Ready(s, PopOwn(w))
    ensures Books(Apply(s, PopOwn(w)))
  {
    var q, t := s.queues[w], Apply(s, PopOwn(w));
    if q == [] {
      WorkerAloneAccounts(s, t, w);
    } else {
      TakeFirst(q);
      TakeKeepsBooks(s, t, w, w, q[0], q[1..], true);
    }
  }

  lemma StealNextKeepsBooks(s: Pool, w: nat)
    requires Ready(s, StealNext(w))
    ensures Books(Apply(s, StealNext(w)))
  {
    var v, t := Victim(|s.queues|, w, s.workers[w].j), Apply(s, StealNext(w));
    var q := s.queues[v];
    if q == [] {
      WorkerAloneAccounts(s, t, w);
    } else {
      TakeLast(q);
      TakeKeepsBooks(s, t, w, v, q[|q| - 1], q[..|q| - 1], false);
    }
  }

  lemma AcquireSignalKeepsBooks(s: Pool, w: nat)
    requires Ready(s, AcquireSignal(w))
    ensures Books(Apply(s, AcquireSignal(w)))
  {
    WorkerAloneAccounts(s, Apply(s, AcquireSignal(w)), w);
  }

  lemma FetchSubKeepsBooks(s: Pool, w: nat)
    requires Ready(s, FetchSub(w))
    ensures Books(Apply(s, FetchSub(w)))
  {
    WorkerAloneAccounts(s, Apply(s, FetchSub(w)), w);
  }

  lemma ResumeKeepsBooks(s: Pool, w: nat)
    requires Ready(s, Resume(w))
    ensures Books(Apply(s, Resume(w)))
  {
    WorkerAloneAccounts(s, Apply(s, Resume(w)), w);
  }

  lemma LoadPendingKeepsBooks(s: Pool, w: nat)
    requires Ready(s, LoadPending(w))
    ensures Books(Apply(s, LoadPending(w)))
  {
    WorkerAloneAccounts(s, Apply(s, LoadPending(w)), w);
  }

  lemma CheckStopKeepsBooks(s: Pool, w: nat)
    requires Ready(s, CheckStop(w))
    ensures Books(Apply(s, CheckStop(w)))
  {
    WorkerAloneAccounts(s, Apply(s, CheckStop(w)), w);
  }

  lemma RequestStopKeepsBooks(s: Pool, w: nat)
    requires Ready(s, RequestStop(w))
    ensures Books(Apply(s, RequestStop(w)))
  {
  }

  lemma StopReleaseKeepsBooks(s: Pool, w: nat)
    requires Ready(s, StopRelease(w))
    ensures Books(Apply(s, StopRelease(w)))
  {
  }

  lemma StepKeepsBooks(s: Pool, st: Step)
    requires Ready(s, st)
    ensures Books(Apply(s, st))
  {
    match st
    case Execute(e, arg, i) => ExecuteKeepsBooks(s, e, arg, i);
    case FetchAdd(e) => FetchAddKeepsBooks(s, e);
    case Push(e) => PushKeepsBooks(s, e);
    case Release(e) => ReleaseKeepsBooks(s, e);
    case AcquireSignal(w) => AcquireSignalKeepsBooks(s, w);
    case PopOwn(w) => PopOwnKeepsBooks(s, w);
    case StealNext(w) => StealNextKeepsBooks(s, w);
    case FetchSub(w) => FetchSubKeepsBooks(s, w);
    case Resume(w) => ResumeKeepsBooks(s, w);
    case LoadPending(w) => LoadPendingKeepsBooks(s, w);
    case CheckStop(w) => CheckStopKeepsBooks(s, w);
    case RequestStop(w) => RequestStopKeepsBooks(s, w);
    case StopRelease(w) => StopReleaseKeepsBooks(s, w);
  }

  /** A counter at zero means there is nothing queued, nothing counted but unpushed and nothing taken but
      undiscounted. */
  lemma ZeroMeansEmpty(s: Pool)
    requires CounterExact(s)
    ensures s.pending >= 0
    ensures s.pending == 0 ==>
      && (forall i :: 0 <= i < |s.queues| ==> s.queues[i] == [])
      && (forall e :: 0 <= e < |s.enqueuers| ==> !s.enqueuers[e].Pushing?)
      && (forall w :: 0 <= w < |s.workers| ==> !s.workers[w].Took?)
  {
    if s.pending == 0 {
      forall i | 0 <= i < |s.queues| ensures s.queues[i] == [] { TotalAtLeast(QueueLen, s.queues, i); }
      forall e | 0 <= e < |s.enqueuers| ensures !s.enqueuers[e].Pushing? { TotalAtLeast(CountedPush, s.enqueuers, e); }
      forall w | 0 <= w < |s.workers| ensures !s.workers[w].Took? { TotalAtLeast(CountedTake, s.workers, w); }
    }
  }

  lemma EmptyMeansZero(s: Pool)
    requires CounterExact(s)
    requires forall i :: 0 <= i < |s.queues| ==> s.queues[i] == []
    requires forall e :: 0 <= e < |s.enqueuers| ==> !s.enqueuers[e].Pushing?
    requires forall w :: 0 <= w < |s.workers| ==> !s.workers[w].Took?
    ensures s.pending == 0
  {
    TotalZero(QueueLen, s.queues);
    TotalZero(CountedPush, s.enqueuers);
    TotalZero(CountedTake, s.workers);
  }

  lemma EnqueuerStepKeepsShape(s: Pool, st: Step)
    requires Shape(s) && Enabled(s, st)
    requires st.Execute? || st.FetchAdd? || st.Push? || st.Release?
    ensures Shape(Apply(s, st)) && |Apply(s, st).queues| == |s.queues|
  {
  }

  lemma WorkerStepKeepsShape(s: Pool, st: Step)
    requires Shape(s) && Enabled(s, st)
    requires !st.Execute? && !st.FetchAdd? && !st.Push? && !st.Release?
    ensures Shape(Apply(s, st)) && |Apply(s, st).queues| == |s.queues|
  {
  }

  lemma StepKeepsShape(s: Pool, st: Step)
    requires Shape(s) && Enabled(s, st)
    ensures Shape(Apply(s, st)) && |Apply(s, st).queues| == |s.queues|
  {
    if st.Execute? || st.FetchAdd? || st.Push? || st.Release? {
      EnqueuerStepKeepsShape(s, st);
    } else {
      WorkerStepKeepsShape(s, st);
    }
  }

  lemma EnqueuerStepKeepsWakeup(s: Pool, st: Step, w: nat)
    requires Shape(s) && Enabled(s, st) && w < |s.queues| && Covered(s, w)
    requires st.Execute? || st.FetchAdd? || st.Push? || st.Release?
    ensures Shape(Apply(s, st)) && Covered(Apply(s, st), w)
  {
    var t := Apply(s, st);
    if st.Push? && s.enqueuers[st.e].i == w {
      assert t.enqueuers[st.e] == Releasing(w);
    } else if s.queues[w] != [] && !InInnerLoop(s.workers[w]) && !s.workers[w].Exited? && !s.signals[w] {
      var e :| 0 <= e < |s.enqueuers| && s.enqueuers[e] == Releasing(w);
      assert t.signals[w] || t.enqueuers[e] == Releasing(w);
    }
  }

  lemma WorkerStepKeepsWakeup(s: Pool, st: Step, w: nat)
    requires Shape(s) && CounterExact(s) && Enabled(s, st) && w < |s.queues| && Covered(s, w)
    requires !st.Execute? && !st.FetchAdd? && !st.Push? && !st.Release?
    ensures Shape(Apply(s, st)) && Covered(Apply(s, st), w)
  {
    var t := Apply(s, st);
    StepKeepsShape(s, st);
    assert t.enqueuers == s.enqueuers;
    if st.LoadPending? { ZeroMeansEmpty(s); }
    if t.queues[w] != [] && !InInnerLoop(s.workers[w]) && !s.workers[w].Exited? && !s.signals[w] {
      var e :| 0 <= e < |s.enqueuers| && s.enqueuers[e] == Releasing(w);
      assert t.enqueuers[e] == Releasing(w);
    }
  }

  lemma StepKeepsCovered(s: Pool, st: Step, w: nat)
    requires Shape(s) && Enabled(s, st) && CounterExact(s) && w < |s.queues| && Covered(s, w)
    ensures Shape(Apply(s, st)) && Covered(Apply(s, st), w)
  {
    if st.Execute? || st.FetchAdd? || st.Push? || st.Release? {
      EnqueuerStepKeepsWakeup(s, st, w);
    } else {
      WorkerStepKeepsWakeup(s, st, w);
    }
  }

  /** A step is one operation of the deque on one queue, or touches no queue. */
  lemma StepKeepsOrder(s: Pool, st: Step)
    requires Shape(s) && Enabled(s, st) && QueuesInOrder(s)
    ensures QueuesInOrder(Apply(s, st))
  {
    match st
    case Push(e) =>
      var i := s.enqueuers[e].i;
      Q.PushHolds(s.logs[i], s.queues[i], s.enqueuers[e].h);
    case PopOwn(w) => if s.queues[w] != [] { Q.PopHolds(s.logs[w], s.queues[w]); }
    case StealNext(w) =>
      var v := Victim(|s.queues|, w, s.workers[w].j);
      if s.queues[v] != [] { Q.StealHolds(s.logs[v], s.queues[v]); }
    case _ =>
  }

  lemma StepKeepsInv(s: Pool, st: Step)
    requires Inv(s) && Enabled(s, st)
    ensures Inv(Apply(s, st))
  {
    StepKeepsShape(s, st);
    StepKeepsBooks(s, st);
    StepKeepsOrder(s, st);
    var t := Apply(s, st);
    forall w | 0 <= w < |t.queues| ensures Covered(t, w) { StepKeepsCovered(s, st, w); }
  }

  lemma ReachableInv(s: Pool)
    requires Reachable(s)
    ensures Inv(s)
  {
    forall a | Init(a) ensures Inv(a) { InitEstablishes(a); }
    forall a, b | Inv(a) && Next(a, b) ensures Inv(b) {
      var st :| Enabled(a, st) && b == Apply(a, st);
      StepKeepsInv(a, st);
    }
    Runs.InvariantIfReachable(Init, Next, Inv, s);
  }

  // ---- what holds in every reachable state ----

  lemma CounterIsExact(s: Pool)
    requires Reachable(s)
    ensures CounterExact(s) && s.pending >= 0
  {
    ReachableInv(s);
  }

  /** A worker that loads the counter leaves its inner loop exactly when nothing is queued anywhere, no push is
      announced and no take is still to be discounted. */
  lemma LeavesLoopExactlyWhenAllIsEmpty(s: Pool, w: nat)
    requires Reachable(s) && Shape(s) && Enabled(s, LoadPending(w))
    ensures Apply(s, LoadPending(w)).workers[w].StopCheck? <==>
      && (forall i :: 0 <= i < |s.queues| ==> s.queues[i] == [])
      && (forall e :: 0 <= e < |s.enqueuers| ==> !s.enqueuers[e].Pushing?)
      && (forall v :: 0 <= v < |s.workers| ==> !s.workers[v].Took?)
  {
    assert CounterExact(s) by { ReachableInv(s); }
    ZeroMeansEmpty(s);
    if && (forall i :: 0 <= i < |s.queues| ==> s.queues[i] == [])
       && (forall e :: 0 <= e < |s.enqueuers| ==> !s.enqueuers[e].Pushing?)
       && (forall v :: 0 <= v < |s.workers| ==> !s.workers[v].Took?) {
      EmptyMeansZero(s);
    }
  }

  /** Queue `i` holds, oldest first, handles pushed to it; what its owner has popped so far and what it still holds are
      in the order of their pushes, whatever thieves have taken meanwhile. */
  lemma OwnersPopInOrderOfPush(s: Pool, i: nat)
    requires Reachable(s) && Shape(s) && i < |s.queues|
    ensures var l, q := s.logs[i], s.queues[i];
      && (forall a, b :: 0 <= a < b < |l.popped| ==> l.popped[a] < l.popped[b])
      && (forall a, k :: 0 <= a < |l.popped| && 0 <= k < |l.held| ==> l.popped[a] < l.held[k])
      && (forall j, k :: 0 <= j < k < |l.held| ==> l.held[j] < l.held[k])
      && |q| == |l.held| && forall k :: 0 <= k < |q| ==> l.held[k] < |l.pushed| && q[k] == l.pushed[l.held[k]]
    ensures forall x: nat :: x < |s.logs[i].pushed| ==> Q.Places(s.logs[i], x) == 1
  {
    assert Q.Holds(s.logs[i], s.queues[i]) by { ReachableInv(s); }
    Q.HeldInOrder(s.logs[i], s.queues[i]);
  }

  /** No handle is lost and none is resumed more often than it was submitted. */
  lemma ExactlyOnce(s: Pool, h: Handle)
    requires Reachable(s)
    ensures s.submitted[h] ==
      Gather(InEnqueuer, s.enqueuers)[h] + Gather(InQueue, s.queues)[h] + Gather(InWorker, s.workers)[h] + s.resumed[h]
    ensures s.resumed[h] <= s.submitted[h]
  {
    ReachableInv(s);
  }

  lemma WakeupIsNeverLost(s: Pool, w: nat)
    requires Reachable(s) && Shape(s) && w < |s.queues|
    requires s.queues[w] != [] && !s.workers[w].Exited?
    ensures || InInnerLoop(s.workers[w]) || s.signals[w]
            || exists e :: 0 <= e < |s.enqueuers| && s.enqueuers[e] == Releasing(w)
  {
    ReachableInv(s);
    assert Covered(s, w);
  }

  /** Steps the pool takes by itself, as opposed to new calls from outside. */
  ghost predicate Internal(st: Step) {
    !st.Execute? && !st.RequestStop? && !st.StopRelease?
  }

  lemma WorkerCanMove(s: Pool, w: nat)
    requires Shape(s) && w < |s.workers|
    requires !s.workers[w].Exited? && (s.workers[w].Acquire? ==> s.signals[w])
    ensures exists st :: Internal(st) && Enabled(s, st)
  {
    var st := match s.workers[w]
      case Acquire => AcquireSignal(w)
      case Pop => PopOwn(w)
      case Took(_, _) => FetchSub(w)
      case Invoke(_, _) => Resume(w)
      case Steal(_) => StealNext(w)
      case Load => LoadPending(w)
      case _ => CheckStop(w);
    assert Internal(st) && Enabled(s, st);
  }

  lemma EnqueuerCanMove(s: Pool, e: nat)
    requires Shape(s) && e < |s.enqueuers| && s.enqueuers[e] != Idle
    ensures exists st :: Internal(st) && Enabled(s, st)
  {
    var st := match s.enqueuers[e]
      case Adding(_, _) => FetchAdd(e)
      case Pushing(_, _) => Push(e)
      case _ => Release(e);
    assert Internal(st) && Enabled(s, st);
  }

  lemma NothingIsLeft(s: Pool)
    requires HandlesConserved(s)
    requires forall e :: 0 <= e < |s.enqueuers| ==> s.enqueuers[e] == Idle
    requires forall w :: 0 <= w < |s.workers| ==> !s.workers[w].Took? && !s.workers[w].Invoke?
    requires forall w :: 0 <= w < |s.queues| ==> s.queues[w] == []
    ensures s.resumed == s.submitted
  {
    GatherEmpty(InEnqueuer, s.enqueuers);
    GatherEmpty(InQueue, s.queues);
    GatherEmpty(InWorker, s.workers);
  }

  lemma BooksOfIdlePool(s: Pool)
    requires Books(s)
    requires forall e :: 0 <= e < |s.enqueuers| ==> s.enqueuers[e] == Idle
    requires forall w :: 0 <= w < |s.workers| ==> s.workers[w] == Acquire
    requires forall w :: 0 <= w < |s.queues| ==> s.queues[w] == []
    ensures s.resumed == s.submitted && s.pending == 0
  {
    EmptyMeansZero(s);
    NothingIsLeft(s);
  }

  /** When every worker is blocked on its semaphore and no thread is inside `execute`, all the work is done. */
  lemma ParkedPoolHasDoneEverything(s: Pool)
    requires Reachable(s) && Shape(s)
    requires forall e :: 0 <= e < |s.enqueuers| ==> s.enqueuers[e] == Idle
    requires forall w :: 0 <= w < |s.workers| ==> s.workers[w] == Acquire && !s.signals[w]
    ensures s.resumed == s.submitted && s.pending == 0
    ensures forall w :: 0 <= w < |s.queues| ==> s.queues[w] == []
  {
    ReachableInv(s);
    forall w | 0 <= w < |s.queues| ensures s.queues[w] == [] { assert Covered(s, w); }
    BooksOfIdlePool(s);
  }

  /** The pool never gets stuck with work left: while some submitted handle has not been resumed and no worker has
      exited, some thread of the pool can take a step. So when all of them are blocked, everything has been resumed. */
  lemma NoDeadlockWhileWorkRemains(s: Pool)
    requires Reachable(s) && Shape(s)
    requires forall w :: 0 <= w < |s.workers| ==> !s.workers[w].Exited?
    requires s.resumed != s.submitted
    ensures exists st :: Internal(st) && Enabled(s, st)
  {
    if e: nat :| e < |s.enqueuers| && s.enqueuers[e] != Idle {
      EnqueuerCanMove(s, e);
    } else if w: nat :| w < |s.workers| && (s.workers[w].Acquire? ==> s.signals[w]) {
      WorkerCanMove(s, w);
    } else {
      ParkedPoolHasDoneEverything(s);
    }
  }

  // ---- when the pool can still resume everything submitted ----

  ghost predicate NextInternal(s: Pool, t: Pool) {
    Shape(s) && exists st: Step :: Internal(st) && Enabled(s, st) && t == Apply(s, st)
  }

  /** Some run of the pool's own steps resumes exactly what has been submitted. */
  ghost predicate CanFinish(s: Pool) {
    exists t :: Runs.Leads(NextInternal, s, t) && t.submitted == s.submitted && t.resumed == s.submitted
  }

  predicate BoundFor(c: Enqueuer, w: nat) {
    match c
    case Idle => false
    case Adding(_, i) => i == w
    case Pushing(_, i) => i == w
    case Releasing(i) => i == w
  }

  /** The worker's semaphore is up, or some thread inside `execute` will raise it. */
  ghost predicate CallComing(s: Pool, w: nat)
    requires w < |s.signals|
  {
    s.signals[w] || exists e :: 0 <= e < |s.enqueuers| && BoundFor(s.enqueuers[e], w)
  }

  /** The worker looks for tasks, or will once more: it waits, or will wait, for a call that is coming. */
  ghost predicate CanServe(s: Pool, w: nat)
    requires Shape(s)
  {
    && w < |s.workers|
    && var c := s.workers[w];
       InInnerLoop(c) || ((c.Acquire? || (c.StopCheck? && !s.stops[w])) && CallComing(s, w))
  }

  ghost predicate NobodyServes(s: Pool) {
    Shape(s) && forall w :: 0 <= w < |s.workers| ==> !CanServe(s, w)
  }

  // When nobody can serve, nobody ever will.

  lemma NoNewCall(s: Pool, st: Step, w: nat)
    requires Shape(s) && Enabled(s, st) && (st.FetchAdd? || st.Push? || st.Release?) && w < |s.workers|
    ensures CallComing(Apply(s, st), w) ==> CallComing(s, w)
  {
    var t := Apply(s, st);
    if e :| 0 <= e < |t.enqueuers| && BoundFor(t.enqueuers[e], w) {
      assert BoundFor(s.enqueuers[e], w);
    } else if t.signals[w] && st.Release? && s.enqueuers[st.e].i == w {
      assert BoundFor(s.enqueuers[st.e], w);
    }
  }

  lemma NobodyServesAfterEnqueuer(s: Pool, st: Step, w: nat)
    requires Shape(s) && Enabled(s, st) && (st.FetchAdd? || st.Push? || st.Release?)
    requires w < |s.workers| && !CanServe(s, w)
    ensures Shape(Apply(s, st)) && !CanServe(Apply(s, st), w)
  {
    EnqueuerStepKeepsShape(s, st);
    NoNewCall(s, st, w);
  }

  lemma NobodyServesAfterWorker(s: Pool, st: Step)
    requires NobodyServes(s) && Enabled(s, st) && Internal(st) && !st.FetchAdd? && !st.Push? && !st.Release?
    ensures NobodyServes(Apply(s, st)) && Apply(s, st).resumed == s.resumed
  {
    var t := Apply(s, st);
    WorkerStepKeepsShape(s, st);
    assert !CanServe(s, st.w);
    assert st.CheckStop?;
    forall w | 0 <= w < |t.workers| ensures !CanServe(t, w) {
      assert !CanServe(s, w);
      assert CallComing(t, w) <==> CallComing(s, w);
    }
  }

  lemma NobodyServesAfter(s: Pool, st: Step)
    requires NobodyServes(s) && Enabled(s, st) && Internal(st)
    ensures NobodyServes(Apply(s, st))
    ensures Apply(s, st).resumed == s.resumed && Apply(s, st).submitted == s.submitted
  {
    if st.FetchAdd? || st.Push? || st.Release? {
      forall w | 0 <= w < |s.workers| ensures Shape(Apply(s, st)) && !CanServe(Apply(s, st), w) {
        NobodyServesAfterEnqueuer(s, st, w);
      }
    } else {
      NobodyServesAfterWorker(s, st);
    }
  }

  lemma NobodyEverServes(s: Pool, t: Pool)
    requires NobodyServes(s) && Runs.Leads(NextInternal, s, t)
    ensures t.resumed == s.resumed
  {
    var stuck := (a: Pool) => NobodyServes(a) && a.resumed == s.resumed;
    forall a, b | stuck(a) && NextInternal(a, b) ensures stuck(b) {
      var st: Step :| Internal(st) && Enabled(a, st) && b == Apply(a, st);
      NobodyServesAfter(a, st);
    }
    Runs.KeptIfLeads(NextInternal, stuck, s, t);
  }

  // When somebody can, what is under way is carried through, and then that worker goes round until it finds a task.

  /** Steps left on the way of a handle: announced, pushed, queued, taken, invoked. */
  function EnqueuerWork(c: Enqueuer): nat {
    match c case Idle => 0 case Adding(_, _) => 7 case Pushing(_, _) => 6 case Releasing(_) => 1
  }
  function QueueWork(q: seq<Handle>): nat { 4 * |q| }
  function WorkerWork(c: Worker): nat { if c.Took? then 3 else if c.Invoke? then 2 else 0 }

  ghost function Undone(s: Pool): nat {
    Total(EnqueuerWork, s.enqueuers) + Total(QueueWork, s.queues) + Total(WorkerWork, s.workers)
  }

  /** A thread inside `execute` has moved on, together with at most one queue. */
  ghost predicate EnqueuerMoved(s: Pool, t: Pool, e: nat, v: nat) {
    && OnlyChanges(s.enqueuers, t.enqueuers, e) && OnlyChanges(s.queues, t.queues, v) && t.workers == s.workers
    && EnqueuerWork(t.enqueuers[e]) + QueueWork(t.queues[v]) < EnqueuerWork(s.enqueuers[e]) + QueueWork(s.queues[v])
  }

  lemma EnqueuerMoves(s: Pool, t: Pool, e: nat, v: nat)
    requires EnqueuerMoved(s, t, e, v)
    ensures Undone(t) < Undone(s)
  {
    TotalChange(EnqueuerWork, s.enqueuers, t.enqueuers, e);
    TotalChange(QueueWork, s.queues, t.queues, v);
  }

  /** A worker has moved on, together with at most one queue. */
  ghost predicate WorkerMoved(s: Pool, t: Pool, w: nat, v: nat) {
    && OnlyChanges(s.workers, t.workers, w) && OnlyChanges(s.queues, t.queues, v) && t.enqueuers == s.enqueuers
    && WorkerWork(t.workers[w]) + QueueWork(t.queues[v]) < WorkerWork(s.workers[w]) + QueueWork(s.queues[v])
  }

  lemma WorkerMoves(s: Pool, t: Pool, w: nat, v: nat)
    requires WorkerMoved(s, t, w, v)
    ensures Undone(t) < Undone(s)
  {
    TotalChange(WorkerWork, s.workers, t.workers, w);
    TotalChange(QueueWork, s.queues, t.queues, v);
  }

  lemma InternalKeeps(s: Pool, st: Step) returns (t: Pool)
    requires Inv(s) && Internal(st) && Enabled(s, st)
    ensures t == Apply(s, st) && NextInternal(s, t) && Inv(t)
  {
    t := Apply(s, st);
    StepKeepsInv(s, st);
  }

  lemma EnqueuerStepKeepsServer(s: Pool, st: Step, w: nat)
    requires Shape(s) && Enabled(s, st) && CanServe(s, w) && (st.FetchAdd? || st.Push? || st.Release?)
    ensures Shape(Apply(s, st)) && CanServe(Apply(s, st), w)
  {
    EnqueuerStepKeepsShape(s, st);
    var t := Apply(s, st);
    if !s.signals[w] && !InInnerLoop(s.workers[w]) {
      var e :| 0 <= e < |s.enqueuers| && BoundFor(s.enqueuers[e], w);
      assert t.signals[w] || BoundFor(t.enqueuers[e], w);
    }
  }

  lemma AnnounceMoves(s: Pool, st: Step)
    requires Shape(s) && Enabled(s, st) && (st.FetchAdd? || st.Release?)
    ensures EnqueuerMoved(s, Apply(s, st), st.e, 0)
  {
  }

  lemma PushMoves(s: Pool, e: nat)
    requires Shape(s) && Enabled(s, Push(e))
    ensures EnqueuerMoved(s, Apply(s, Push(e)), e, s.enqueuers[e].i)
  {
  }

  lemma EnqueuerAdvances(s: Pool, e: nat, w: nat) returns (t: Pool)
    requires Inv(s) && CanServe(s, w) && e < |s.enqueuers| && s.enqueuers[e] != Idle
    ensures NextInternal(s, t) && Inv(t) && CanServe(t, w) && Undone(t) < Undone(s)
  {
    var c := s.enqueuers[e];
    var st := if c.Adding? then FetchAdd(e) else if c.Pushing? then Push(e) else Release(e);
    EnqueuerStepKeepsServer(s, st, w);
    if c.Pushing? {
      PushMoves(s, e);
      EnqueuerMoves(s, Apply(s, st), e, c.i);
    } else {
      AnnounceMoves(s, st);
      EnqueuerMoves(s, Apply(s, st), e, 0);
    }
    t := InternalKeeps(s, st);
  }

  lemma HolderMoves(s: Pool, st: Step)
    requires Shape(s) && Enabled(s, st) && (st.FetchSub? || st.Resume?)
    ensures WorkerMoved(s, Apply(s, st), st.w, 0)
    ensures Shape(Apply(s, st)) && CanServe(Apply(s, st), st.w)
  {
    WorkerStepKeepsShape(s, st);
  }

  lemma HolderAdvances(s: Pool, w: nat) returns (t: Pool)
    requires Inv(s) && w < |s.workers| && (s.workers[w].Took? || s.workers[w].Invoke?)
    ensures NextInternal(s, t) && Inv(t) && CanServe(t, w) && Undone(t) < Undone(s)
  {
    var st := if s.workers[w].Took? then FetchSub(w) else Resume(w);
    HolderMoves(s, st);
    WorkerMoves(s, Apply(s, st), w, 0);
    t := InternalKeeps(s, st);
  }

  /** Nothing is in anybody's hands: what is not yet resumed is queued, and announced to the counter. */
  ghost predicate AllQueued(s: Pool) {
    && (forall e :: 0 <= e < |s.enqueuers| ==> s.enqueuers[e] == Idle)
    && (forall w :: 0 <= w < |s.workers| ==> !s.workers[w].Took? && !s.workers[w].Invoke?)
  }

  /** How many steps a worker is from looking at its victim of round `d`; round 0 is its own queue. */
  function StepsTo(n: nat, c: Worker, d: nat): nat {
    match c
    case Pop => d
    case Steal(j) => if j <= d then d - j else if j <= n then n + 1 - j + d else 0
    case Load => 1 + d
    case Acquire => 1 + d
    case StopCheck => 2 + d
    case _ => 0
  }

  /** What the worker does next. */
  function Turn(c: Worker, w: nat): Step
    requires !c.Took? && !c.Invoke? && !c.Exited?
  {
    match c
    case Pop => PopOwn(w)
    case Steal(_) => StealNext(w)
    case Load => LoadPending(w)
    case Acquire => AcquireSignal(w)
    case StopCheck => CheckStop(w)
  }

  ghost predicate Seeking(s: Pool, w: nat, d: nat) {
    && Shape(s) && AllQueued(s) && s.pending > 0 && CanServe(s, w)
    && d < |s.queues| && s.queues[Victim(|s.queues|, w, d)] != []
  }

  lemma TurnIsEnabled(s: Pool, w: nat, d: nat)
    requires Seeking(s, w, d)
    ensures Enabled(s, Turn(s.workers[w], w)) && Internal(Turn(s.workers[w], w))
    ensures s.workers[w].StopCheck? ==> s.signals[w]
  {
  }

  /** A turn takes a task, or leaves everything but the worker and its semaphore as it is, and the worker nearer. */
  ghost predicate TurnLeadsOn(s: Pool, t: Pool, w: nat, d: nat) {
    || (exists v :: WorkerMoved(s, t, w, v))
    || (t.queues == s.queues && t.enqueuers == s.enqueuers && OnlyChanges(s.workers, t.workers, w) && AllQueued(t)
        && StepsTo(|s.queues|, t.workers[w], d) < StepsTo(|s.queues|, s.workers[w], d))
  }

  lemma TurnCounts(s: Pool, t: Pool, w: nat, d: nat)
    requires w < |s.workers| && AllQueued(s) && TurnLeadsOn(s, t, w, d)
    ensures Undone(t) < Undone(s) || (Undone(t) == Undone(s) && AllQueued(t) && t.queues == s.queues
                                      && StepsTo(|s.queues|, t.workers[w], d) < StepsTo(|s.queues|, s.workers[w], d))
  {
    if v: nat :| WorkerMoved(s, t, w, v) {
      WorkerMoves(s, t, w, v);
    } else {
      TotalChange(WorkerWork, s.workers, t.workers, w);
    }
  }

  lemma PopLeadsOn(s: Pool, w: nat, d: nat)
    requires Seeking(s, w, d) && s.workers[w].Pop?
    ensures TurnLeadsOn(s, Apply(s, PopOwn(w)), w, d)
  {
    if s.queues[w] != [] {
      assert WorkerMoved(s, Apply(s, PopOwn(w)), w, w);
    } else {
      Wrap(|s.queues|, w + d);
    }
  }

  lemma StealLeadsOn(s: Pool, w: nat, d: nat)
    requires Seeking(s, w, d) && s.workers[w].Steal?
    ensures TurnLeadsOn(s, Apply(s, StealNext(w)), w, d)
  {
    var v := Victim(|s.queues|, w, s.workers[w].j);
    if s.queues[v] != [] {
      assert WorkerMoved(s, Apply(s, StealNext(w)), w, v);
    }
  }

  lemma WakingLeadsOn(s: Pool, w: nat, d: nat)
    requires Seeking(s, w, d) && (s.workers[w].Load? || s.workers[w].Acquire? || s.workers[w].StopCheck?)
    ensures TurnLeadsOn(s, Apply(s, Turn(s.workers[w], w)), w, d)
  {
  }

  lemma TurnKeepsServer(s: Pool, w: nat, d: nat)
    requires Seeking(s, w, d)
    ensures var t := Apply(s, Turn(s.workers[w], w)); Shape(t) && CanServe(t, w)
  {
    TurnIsEnabled(s, w, d);
    WorkerStepKeepsShape(s, Turn(s.workers[w], w));
  }

  lemma ServerAdvances(s: Pool, w: nat, d: nat) returns (t: Pool)
    requires Inv(s) && Seeking(s, w, d)
    ensures NextInternal(s, t) && Inv(t) && CanServe(t, w)
    ensures Undone(t) < Undone(s) || (Undone(t) == Undone(s) && AllQueued(t) && t.queues == s.queues
                                      && StepsTo(|s.queues|, t.workers[w], d) < StepsTo(|s.queues|, s.workers[w], d))
  {
    TurnIsEnabled(s, w, d);
    TurnKeepsServer(s, w, d);
    t := InternalKeeps(s, Turn(s.workers[w], w));
    assert TurnLeadsOn(s, t, w, d) by {
      if s.workers[w].Pop? { PopLeadsOn(s, w, d); }
      else if s.workers[w].Steal? { StealLeadsOn(s, w, d); }
      else { WakingLeadsOn(s, w, d); }
    }
    TurnCounts(s, t, w, d);
  }

  /** The pool has worked on from `start`: `w` can serve, and this much is left. */
  ghost predicate WorkedOn(start: Pool, s: Pool, w: nat) {
    Runs.Leads(NextInternal, start, s) && Inv(s) && CanServe(s, w)
  }

  lemma {:induction false} PoolFinishesFrom(start: Pool, s: Pool, w: nat) returns (t: Pool)
    requires WorkedOn(start, s, w)
    ensures Runs.Leads(NextInternal, start, t) && Inv(t) && t.resumed == t.submitted
    decreases Undone(s), 1, 0
  {
    if e: nat :| e < |s.enqueuers| && s.enqueuers[e] != Idle {
      var u := EnqueuerAdvances(s, e, w);
      Runs.LeadsStep(NextInternal, start, s, u);
      t := PoolFinishesFrom(start, u, w);
    } else if h: nat :| h < |s.workers| && (s.workers[h].Took? || s.workers[h].Invoke?) {
      var u := HolderAdvances(s, h);
      Runs.LeadsStep(NextInternal, start, s, u);
      t := PoolFinishesFrom(start, u, h);
    } else if v: nat :| v < |s.queues| && s.queues[v] != [] {
      ZeroMeansEmpty(s);
      var d := RoundOf(|s.queues|, w, v);
      t := ServerFinishesFrom(start, s, w, d);
    } else {
      NothingIsLeft(s);
      t := s;
    }
  }

  lemma RoundOf(n: nat, w: nat, v: nat) returns (d: nat)
    requires w < n && v < n
    ensures d < n && Victim(n, w, d) == v
  {
    d := 0;
    Wrap(n, w);
    if v != w {
      RoundVisitsEveryOtherQueueOnce(n, w, v);
      d :| 1 <= d < n && Victim(n, w, d) == v;
    }
  }

  lemma {:induction false} ServerFinishesFrom(start: Pool, s: Pool, w: nat, d: nat) returns (t: Pool)
    requires WorkedOn(start, s, w) && Seeking(s, w, d)
    ensures Runs.Leads(NextInternal, start, t) && Inv(t) && t.resumed == t.submitted
    decreases Undone(s), 0, StepsTo(|s.queues|, s.workers[w], d)
  {
    var u := ServerAdvances(s, w, d);
    Runs.LeadsStep(NextInternal, start, s, u);
    if Undone(u) < Undone(s) {
      t := PoolFinishesFrom(start, u, w);
    } else {
      ZeroMeansEmpty(u);
      t := ServerFinishesFrom(start, u, w, d);
    }
  }

  lemma ServedPoolFinishes(s: Pool, w: nat)
    requires Inv(s) && CanServe(s, w)
    ensures CanFinish(s)
  {
    Runs.LeadsNowhere(NextInternal, s);
    var t := PoolFinishesFrom(s, s, w);
    SubmittedStays(s, t);
  }

  lemma SubmittedStays(s: Pool, t: Pool)
    requires Runs.Leads(NextInternal, s, t)
    ensures t.submitted == s.submitted
  {
    var same := (a: Pool) => a.submitted == s.submitted;
    Runs.KeptIfLeads(NextInternal, same, s, t);
  }

  lemma UnservedPoolFinishesIff(s: Pool)
    requires NobodyServes(s)
    ensures CanFinish(s) <==> s.resumed == s.submitted
  {
    Runs.LeadsNowhere(NextInternal, s);
    if CanFinish(s) {
      var t :| Runs.Leads(NextInternal, s, t) && t.submitted == s.submitted && t.resumed == s.submitted;
      NobodyEverServes(s, t);
    }
  }

  /** Whatever stops have been requested: the pool's own steps can still resume everything submitted if and only if
      that has already happened, or some worker is in its inner loop or will enter it once more. */
  lemma CanFinishIffSomeoneServes(s: Pool)
    requires Reachable(s) && Shape(s)
    ensures CanFinish(s) <==> s.resumed == s.submitted || exists w :: CanServe(s, w)
  {
    ReachableInv(s);
    if w: nat :| CanServe(s, w) {
      ServedPoolFinishes(s, w);
    } else {
      UnservedPoolFinishesIff(s);
    }
  }

  /** Nobody has asked a worker to stop. */
  ghost predicate Running(s: Pool) {
    && (forall w :: 0 <= w < |s.stops| ==> !s.stops[w])
    && (forall w :: 0 <= w < |s.workers| ==> !s.workers[w].Exited?)
  }

  /** So from every reachable state in which nobody has asked to stop the pool can finish. */
  lemma PoolCanFinish(s: Pool)
    requires Reachable(s) && Shape(s) && Running(s)
    ensures CanFinish(s)
  {
    ReachableInv(s);
    CanFinishIffSomeoneServes(s);
    if e: nat :| e < |s.enqueuers| && s.enqueuers[e] != Idle {
      assert BoundFor(s.enqueuers[e], s.enqueuers[e].i);
      assert CanServe(s, s.enqueuers[e].i);
    } else if w: nat :| w < |s.workers| && (s.workers[w].Took? || s.workers[w].Invoke?) {
      assert CanServe(s, w);
    } else if w: nat :| w < |s.queues| && s.queues[w] != [] {
      assert Covered(s, w);
      assert CanServe(s, w);
    } else {
      NothingIsLeft(s);
    }
  }

  lemma AStopIsRequested() returns (s: Pool)
    ensures Reachable(s) && s == Pool(0, [[]], [true], [true], [Acquire], [Idle], multiset{}, multiset{}, s.logs)
    ensures |s.logs| == 1
  {
    s := Pool(0, [[]], [false], [false], [Acquire], [Idle], multiset{}, multiset{}, [Q.History([], [], [], [])]);
    Runs.ReachableInit(Init, Next, s);
    s := Advance(s, RequestStop(0));
    s := Advance(s, StopRelease(0));
  }

  /** A lone worker, asked to stop and woken, finds nothing and reads zero. */
  lemma AWorkerAboutToTestItsStop() returns (s: Pool)
    ensures Reachable(s) && s == Pool(0, [[]], [false], [true], [StopCheck], [Idle], multiset{}, multiset{}, s.logs)
    ensures |s.logs| == 1
  {
    s := AStopIsRequested();
    s := Advance(s, AcquireSignal(0));
    s := Advance(s, PopOwn(0));
    assert s.workers == [Load];
    s := Advance(s, LoadPending(0));
  }

  /** A task is announced meanwhile. */
  lemma ATaskIsAnnounced() returns (s: Pool)
    ensures Reachable(s) && |s.logs| == 1
    ensures s == Pool(1, [[]], [false], [true], [StopCheck], [Pushing(5, 0)], multiset{5}, multiset{}, s.logs)
  {
    s := AWorkerAboutToTestItsStop();
    s := Advance(s, Execute(0, Some(5), 0));
    s := Advance(s, FetchAdd(0));
  }

  lemma ATaskIsPushed() returns (s: Pool)
    ensures Reachable(s) && |s.logs| == 1
    ensures s == Pool(1, [[5]], [true], [true], [StopCheck], [Idle], multiset{5}, multiset{}, s.logs)
  {
    s := ATaskIsAnnounced();
    s := Advance(s, Push(0));
    assert s.queues[0] == [5];
    s := Advance(s, Release(0));
  }

  /** With a stop requested the pool need not finish: a task arrives between a lone worker's reading zero and its
      testing of the stop, and stays. */
  lemma AStoppedWorkerCanLeaveATask() returns (s: Pool)
    ensures Reachable(s) && Shape(s) && s.queues == [[5]] && s.submitted == multiset{5} && s.resumed == multiset{}
    ensures (forall st :: Internal(st) ==> !Enabled(s, st)) && !CanFinish(s)
  {
    s := ATaskIsPushed();
    s := Advance(s, CheckStop(0));
    assert s.workers == [Exited] && s.enqueuers == [Idle];
    CanFinishIffSomeoneServes(s);
  }

  /** Two calls of `execute` before the worker wakes release a semaphore that is already up, which the binary semaphore
      of the standard does not allow; here it stays up. */
  lemma ASignalCanBeRaisedTwice() returns (s: Pool)
    ensures Reachable(s) && Shape(s) && s.stops == [false] && s.signals == [true] && Enabled(s, Release(0))
  {
    s := ATaskIsReleased();
    s := Advance(s, Execute(0, Some(6), 0));
    s := Advance(s, FetchAdd(0));
    s := Advance(s, Push(0));
  }

  lemma ATaskIsReleased() returns (s: Pool)
    ensures Reachable(s) && Shape(s) && s.stops == [false] && s.signals == [true] && s.enqueuers == [Idle]
    ensures |s.queues| == |s.workers| == 1
  {
    s := Pool(0, [[]], [false], [false], [Acquire], [Idle], multiset{}, multiset{}, [Q.History([], [], [], [])]);
    Runs.ReachableInit(Init, Next, s);
    s := Advance(s, Execute(0, Some(5), 0));
    s := Advance(s, FetchAdd(0));
    s := Advance(s, Push(0));
    s := Advance(s, Release(0));
  }

  lemma Advance(s: Pool, st: Step) returns (t: Pool)
    requires Reachable(s) && Shape(s) && Enabled(s, st)
    ensures t == Apply(s, st) && Reachable(t) && Shape(t)
  {
    t := Apply(s, st);
    StepKeepsShape(s, st);
    Runs.ReachableStep(Init, Next, s, t);
  }

  // ---- the pool as the object whose fields the threads update ----

  /** The shared object. The ghost fields say where each thread stands and what has happened so far. */
  class StealingThreadPool {
    var mPendingTasks: int
    var mTasks: seq<seq<Handle>>
    var mSignals: seq<bool>
    var mStops: seq<bool>
    ghost var workers: seq<Worker>
    ghost var enqueuers: seq<Enqueuer>
    ghost var submitted: multiset<Handle>
    ghost var resumed: multiset<Handle>
    ghost var logs: seq<Q.History<Handle>>

    ghost function View(): Pool
      reads this
    {
      Pool(mPendingTasks, mTasks, mSignals, mStops, workers, enqueuers, submitted, resumed, logs)
    }

    ghost predicate Can(st: Step)
      reads this
    {
      Shape(View()) && Enabled(View(), st)
    }

    constructor (threadNum: nat, ghost clients: nat)
      requires 0 < threadNum
      ensures Init(View()) && Inv(View()) && |mTasks| == threadNum && |enqueuers| == clients
    {
      mPendingTasks := 0;
      mTasks := seq(threadNum, _ => []);
      mSignals := seq(threadNum, _ => false);
      mStops := seq(threadNum, _ => false);
      workers := seq(threadNum, _ => Acquire);
      enqueuers := seq(clients, _ => Idle);
      submitted, resumed := multiset{}, multiset{};
      logs := seq(threadNum, _ => Q.History([], [], [], []));
      new;
      InitEstablishes(View());
    }

    /** Entering `execute`; the caller stays outside when the handle is null. */
    method Begin(ghost e: nat, h: Option<Handle>, ghost i: nat)
      requires Can(Execute(e, h, i))
      modifies `submitted, `enqueuers
      ensures View() == Apply(old(View()), Execute(e, h, i))
      ensures h.None? ==> View() == old(View())
      ensures h.Some? ==> enqueuers[e] == Adding(h.value, i) && submitted == old(submitted) + multiset{h.value}
    {
      if h.None? {
        return;
      }
      submitted := submitted + multiset{h.value};
      enqueuers := enqueuers[e := Adding(h.value, i)];
    }

    method CountTask(ghost e: nat)
      requires Can(FetchAdd(e))
      modifies `mPendingTasks, `enqueuers
      ensures View() == Apply(old(View()), FetchAdd(e)) && mPendingTasks == old(mPendingTasks) + 1
    {
      mPendingTasks := mPendingTasks + 1;
      enqueuers := enqueuers[e := Pushing(enqueuers[e].h, enqueuers[e].i)];
    }

    method PushTask(ghost e: nat, h: Handle, i: nat)
      requires Can(Push(e)) && enqueuers[e] == Pushing(h, i)
      modifies `mTasks, `enqueuers, `logs
      ensures View() == Apply(old(View()), Push(e))
      ensures mTasks == old(mTasks)[i := old(mTasks)[i] + [h]]
    {
      mTasks := mTasks[i := mTasks[i] + [h]];
      logs := logs[i := Q.After(logs[i], Q.Push(h))];
      enqueuers := enqueuers[e := Releasing(i)];
    }

    method ReleaseSignal(ghost e: nat, i: nat)
      requires Can(Release(e)) && enqueuers[e] == Releasing(i)
      modifies `mSignals, `enqueuers
      ensures View() == Apply(old(View()), Release(e)) && mSignals == old(mSignals)[i := true]
    {
      mSignals := mSignals[i := true];
      enqueuers := enqueuers[e := Idle];
    }

    method TakeSignal(w: nat)
      requires Can(AcquireSignal(w))
      modifies `mSignals, `workers
      ensures View() == Apply(old(View()), AcquireSignal(w))
      ensures old(mSignals)[w] && mSignals == old(mSignals)[w := false]
    {
      mSignals := mSignals[w := false];
      workers := workers[w := Pop];
    }

    method PopFront(w: nat) returns (task: Option<Handle>)
      requires Can(PopOwn(w))
      modifies `mTasks, `workers, `logs
      ensures View() == Apply(old(View()), PopOwn(w))
      ensures task.None? <==> old(mTasks[w]) == []
      ensures task.Some? ==> workers[w] == Took(task.value, true) && old(mTasks[w]) == [task.value] + mTasks[w]
    {
      if mTasks[w] == [] {
        task := None;
        workers := workers[w := NextVictim(View(), 1)];
      } else {
        task := Some(mTasks[w][0]);
        mTasks := mTasks[w := mTasks[w][1..]];
        logs := logs[w := Q.After(logs[w], Q.Pop)];
        workers := workers[w := Took(task.value, true)];
      }
    }

    method StealBack(w: nat, j: nat) returns (task: Option<Handle>)
      requires Can(StealNext(w)) && workers[w] == Steal(j)
      modifies `mTasks, `workers, `logs
      ensures View() == Apply(old(View()), StealNext(w))
      ensures task.None? <==> old(mTasks)[Victim(|old(mTasks)|, w, j)] == []
      ensures task.Some? ==> workers[w] == Took(task.value, false)
      ensures task.Some? ==> var v := Victim(|mTasks|, w, j);
        |mTasks| == |old(mTasks)| && old(mTasks)[v] == mTasks[v] + [task.value]
    {
      var v := Victim(|mTasks|, w, j);
      var q := mTasks[v];
      if q == [] {
        task := None;
        workers := workers[w := NextVictim(View(), j + 1)];
      } else {
        task := Some(q[|q| - 1]);
        mTasks := mTasks[v := q[..|q| - 1]];
        logs := logs[v := Q.After(logs[v], Q.Steal)];
        workers := workers[w := Took(task.value, false)];
      }
    }

    method Discount(ghost w: nat, h: Handle, own: bool)
      requires Can(FetchSub(w)) && workers[w] == Took(h, own)
      modifies `mPendingTasks, `workers
      ensures View() == Apply(old(View()), FetchSub(w)) && workers[w] == Invoke(h, own)
      ensures mPendingTasks == old(mPendingTasks) - 1
    {
      mPendingTasks := mPendingTasks - 1;
      workers := workers[w := Invoke(h, own)];
    }

    /** The task is invoked; what it does is its own affair. An owner pops again, a thief goes on to read the
        counter. */
    method InvokeTask(ghost w: nat, h: Handle, own: bool) returns (popAgain: bool)
      requires Can(Resume(w)) && workers[w] == Invoke(h, own)
      modifies `workers, `resumed
      ensures View() == Apply(old(View()), Resume(w)) && resumed == old(resumed) + multiset{h}
      ensures popAgain == own && (popAgain <==> workers[w] == Pop)
    {
      popAgain := own;
      resumed := resumed + multiset{h};
      workers := workers[w := if own then Pop else Load];
    }

    method ReadPending(ghost w: nat) returns (again: bool)
      requires Can(LoadPending(w))
      modifies `workers
      ensures View() == Apply(old(View()), LoadPending(w))
      ensures (again <==> workers[w] == Pop) && (again <==> mPendingTasks > 0)
    {
      again := mPendingTasks > 0;
      workers := workers[w := if again then Pop else StopCheck];
    }

    method TestStop(w: nat) returns (stop: bool)
      requires Can(CheckStop(w))
      modifies `workers
      ensures View() == Apply(old(View()), CheckStop(w))
      ensures (stop <==> workers[w] == Exited) && stop == mStops[w]
    {
      stop := mStops[w];
      workers := workers[w := if stop then Exited else Acquire];
    }

    /** The destructor asks a worker to stop, then raises its semaphore. */
    method AskToStop(w: nat)
      requires Can(RequestStop(w))
      modifies `mStops
      ensures View() == Apply(old(View()), RequestStop(w)) && mStops == old(mStops)[w := true]
    {
      mStops := mStops[w := true];
    }

    method ReleaseToStop(w: nat)
      requires Can(StopRelease(w))
      modifies `mSignals
      ensures View() == Apply(old(View()), StopRelease(w)) && mSignals == old(mSignals)[w := true]
    {
      mSignals := mSignals[w := true];
    }
  }
}
