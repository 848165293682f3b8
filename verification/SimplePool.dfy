/** The simple thread pool: one locked queue and an atomic count of tasks that `execute` raises after its push. One
    step is one atomic operation or one lock region; the lock is explicit because a worker tests the running flag
    while holding it. */
module SimplePool {
  import opened Wrappers
  import opened Sums
  import Runs

  type Handle = nat

  /** The count is a 64-bit unsigned integer. */
  const WORD := 0x1_0000_0000_0000_0000

  datatype Enqueuer = Idle | Pushing(h: Handle) | Counting

  datatype Worker =
    | Top                   // about to test the running flag
    | Blocked               // waiting for a task or for the end
    | Locked                // the wait has returned, holding the lock
    | Resuming(h: Handle)
    | FrontOfEmpty          // would read the front of an empty queue
    | Exited

  /** Where the thread in `waitEmpty` stands. */
  datatype Waiter =
    | Calling
    | Marked                // has set the waiting flag, about to test the count under the lock
    | Asleep                // found tasks, in the wait of the condition variable
    | Notified              // woken, about to test again
    | Returned

  datatype State = State(
    tasks: seq<Handle>,
    total: nat,
    running: bool,
    waiting: bool,
    lock: Option<nat>,
    enqueuers: seq<Enqueuer>,
    workers: seq<Worker>,
    waiter: Waiter,
    pushed: seq<Handle>,    // history: tasks in the order they were queued
    taken: seq<Handle>)     // history: tasks in the order workers took them

  datatype Step =
    | Execute(e: nat, arg: Option<Handle>)
    | Push(e: nat)
    | Count(e: nat)
    | Look(w: nat)
    | Acquire(w: nat)
    | Decide(w: nat)
    | Finish(w: nat)
    | BeginWait
    | TestTotal
    | WakeSpuriously
    | StopRunning

  ghost predicate Init(s: State) {
    && s.pushed == s.taken == []
    && s.tasks == [] && s.total == 0 && s.running && !s.waiting && s.lock == None && s.waiter == Calling
    && (forall e :: 0 <= e < |s.enqueuers| ==> s.enqueuers[e] == Idle)
    && (forall w :: 0 <= w < |s.workers| ==> s.workers[w] == Top)
  }

  ghost predicate Enabled(s: State, st: Step) {
    match st
    case Execute(e, _) => e < |s.enqueuers| && s.enqueuers[e].Idle?
    case Push(e) => e < |s.enqueuers| && s.enqueuers[e].Pushing? && s.lock == None
    case Count(e) => e < |s.enqueuers| && s.enqueuers[e].Counting?
    case Look(w) => w < |s.workers| && s.workers[w].Top?
    case Acquire(w) => w < |s.workers| && s.workers[w].Blocked? && s.lock == None && (s.tasks != [] || !s.running)
    case Decide(w) => w < |s.workers| && s.workers[w].Locked?
    case Finish(w) => w < |s.workers| && s.workers[w].Resuming? && s.lock == None
    case BeginWait => s.waiter.Calling?
    case TestTotal => (s.waiter.Marked? || s.waiter.Notified?) && s.lock == None
    case WakeSpuriously => s.waiter.Asleep?
    case StopRunning => true
  }

  function Increment(total: nat): nat { (total + 1) % WORD }
  function Decrement(total: nat): nat { (total + WORD - 1) % WORD }

  ghost function SetEnqueuer(s: State, e: nat, c: Enqueuer): State
    requires e < |s.enqueuers|
  {
    s.(enqueuers := s.enqueuers[e := c])
  }

  ghost function SetWorker(s: State, w: nat, c: Worker): State
    requires w < |s.workers|
  {
    s.(workers := s.workers[w := c])
  }

  ghost function Apply(s: State, st: Step): State
    requires Enabled(s, st)
  {
    match st
    case Execute(e, arg) => (match arg case None => s case Some(h) => SetEnqueuer(s, e, Pushing(h)))
    case Push(e) =>
      var h := s.enqueuers[e].h;
      SetEnqueuer(s, e, Counting).(tasks := s.tasks + [h], pushed := s.pushed + [h])
    case Count(e) => SetEnqueuer(s, e, Idle).(total := Increment(s.total))
    case Look(w) => SetWorker(s, w, if s.running then Blocked else Exited)
    case Acquire(w) => SetWorker(s, w, Locked).(lock := Some(w))
    case Decide(w) =>
      if !s.running then SetWorker(s, w, Top).(lock := None)
      else if s.tasks == [] then SetWorker(s, w, FrontOfEmpty)
      else
        SetWorker(s, w, Resuming(s.tasks[0])).(tasks := s.tasks[1..], taken := s.taken + [s.tasks[0]], lock := None)
    case Finish(w) =>
      SetWorker(s, w, Top).(
        total := Decrement(s.total), waiter := if s.waiting && s.waiter.Asleep? then Notified else s.waiter)
    case BeginWait => s.(waiter := Marked, waiting := true)
    case TestTotal => if s.total == 0 then s.(waiter := Returned, waiting := false) else s.(waiter := Asleep)
    case WakeSpuriously => s.(waiter := Notified)
    case StopRunning => s.(running := false)
  }

  ghost predicate Next(s: State, t: State) {
    exists st :: Enabled(s, st) && t == Apply(s, st)
  }

  ghost predicate Reachable(s: State) {
    Runs.Reachable(Init, Next, s)
  }

  // ---- the invariant ----

  function IsCounting(c: Enqueuer): nat { if c.Counting? then 1 else 0 }
  function IsResuming(c: Worker): nat { if c.Resuming? then 1 else 0 }

  /** Pushed but not yet counted. */
  ghost function Uncounted(s: State): nat { Total(IsCounting, s.enqueuers) }

  /** Queued or running. */
  ghost function Unfinished(s: State): nat { |s.tasks| + Total(IsResuming, s.workers) }

  /** The count is exact up to pushes not yet counted, modulo the word size. */
  ghost predicate CountExact(s: State) {
    s.total < WORD && s.total == (Unfinished(s) - Uncounted(s)) % WORD
  }

  ghost predicate LockFits(s: State) {
    && (s.lock.Some? ==> s.lock.value < |s.workers| && s.workers[s.lock.value].Locked?)
    && (forall w :: 0 <= w < |s.workers| ==> !s.workers[w].FrontOfEmpty?)
    && (forall w :: 0 <= w < |s.workers| && s.workers[w].Locked? ==> s.lock == Some(w) && (s.tasks != [] || !s.running))
  }

  /** The waiting flag is up while a thread waits, and workers leave only when told. */
  ghost predicate FlagsFit(s: State) {
    && (s.waiting <==> s.waiter.Marked? || s.waiter.Asleep? || s.waiter.Notified?)
    && (forall w :: 0 <= w < |s.workers| && s.workers[w].Exited? ==> !s.running)
  }

  /** Tasks are taken in the order they were queued, and what was queued and not taken is still there. */
  ghost predicate InOrder(s: State) {
    s.pushed == s.taken + s.tasks
  }

  ghost predicate Inv(s: State) {
    CountExact(s) && LockFits(s) && FlagsFit(s) && InOrder(s)
  }

  lemma ModStep(total: nat, n: int)
    requires total < WORD && total == n % WORD
    ensures Increment(total) == (n + 1) % WORD && Increment(total) < WORD
    ensures Decrement(total) == (n - 1) % WORD && Decrement(total) < WORD
  {
  }

  lemma CountKeepsCount(s: State, e: nat)
    requires CountExact(s) && Enabled(s, Count(e))
    ensures CountExact(Apply(s, Count(e)))
  {
    TotalUpdate(IsCounting, s.enqueuers, e, Idle);
    ModStep(s.total, Unfinished(s) - Uncounted(s));
  }

  lemma FinishKeepsCount(s: State, w: nat)
    requires CountExact(s) && Enabled(s, Finish(w))
    ensures CountExact(Apply(s, Finish(w)))
  {
    TotalUpdate(IsResuming, s.workers, w, Top);
    ModStep(s.total, Unfinished(s) - Uncounted(s));
  }

  lemma StepKeepsCount(s: State, st: Step)
    requires Inv(s) && Enabled(s, st)
    ensures CountExact(Apply(s, st))
  {
    match st
    case Execute(e, arg) => if arg.Some? { TotalUpdate(IsCounting, s.enqueuers, e, Pushing(arg.value)); }
    case Push(e) => TotalUpdate(IsCounting, s.enqueuers, e, Counting);
    case Count(e) => CountKeepsCount(s, e);
    case Finish(w) => FinishKeepsCount(s, w);
    case BeginWait =>
    case TestTotal =>
    case WakeSpuriously =>
    case StopRunning =>
    case _ => TotalUpdate(IsResuming, s.workers, st.w, Apply(s, st).workers[st.w]);
  }

  lemma StepKeepsLock(s: State, st: Step)
    requires Inv(s) && Enabled(s, st)
    ensures LockFits(Apply(s, st)) && FlagsFit(Apply(s, st))
  {
  }

  lemma StepKeepsInv(s: State, st: Step)
    requires Inv(s) && Enabled(s, st)
    ensures Inv(Apply(s, st))
  {
    StepKeepsCount(s, st);
    StepKeepsLock(s, st);
    StepKeepsOrder(s, st);
  }

  lemma StepKeepsOrder(s: State, st: Step)
    requires InOrder(s) && Enabled(s, st)
    ensures InOrder(Apply(s, st))
  {
    if st.Push? {
      assert s.taken + (s.tasks + [s.enqueuers[st.e].h]) == (s.taken + s.tasks) + [s.enqueuers[st.e].h];
    } else if st.Decide? && s.running && s.tasks != [] {
      MoveHead(s.taken, s.tasks);
    }
  }

  lemma InitEstablishes(s: State)
    requires Init(s)
    ensures Inv(s)
  {
    TotalZero(IsCounting, s.enqueuers);
    TotalZero(IsResuming, s.workers);
  }

  lemma ReachableInv(s: State)
    requires Reachable(s)
    ensures Inv(s)
  {
    forall a | Init(a) ensures Inv(a) { InitEstablishes(a); }
    forall a, b | Inv(a) && Next(a, b) ensures Inv(b) {
      var st :| Enabled(a, st) && b == Apply(a, st);
      StepKeepsInv(a, st);
    }
    Runs.InvariantIfReachable(Init, Next, Inv, s);
  }

  // ---- what holds in every reachable state ----

  lemma TakenInOrderOfPush(s: State)
    requires Reachable(s)
    ensures s.pushed == s.taken + s.tasks
  {
    ReachableInv(s);
  }

  lemma CountIsExactModuloWord(s: State)
    requires Reachable(s)
    ensures (s.total + Uncounted(s)) % WORD == Unfinished(s) % WORD
  {
    ReachableInv(s);
    ModSum(s.total, Unfinished(s), Uncounted(s));
  }

  lemma ModSum(total: nat, a: nat, b: nat)
    requires total == (a - b) % WORD
    ensures (total + b) % WORD == a % WORD
  {
  }

  /** When the wait's test succeeds, everything has run if and only if no push is still uncounted. */
  lemma WaitEmptyMeansDoneIffNothingUncounted(s: State)
    requires Reachable(s) && Enabled(s, TestTotal) && Apply(s, TestTotal).waiter.Returned?
    requires Unfinished(s) < WORD && Uncounted(s) < WORD
    ensures (s.tasks == [] && forall w :: 0 <= w < |s.workers| ==> !s.workers[w].Resuming?) <==>
            (forall e :: 0 <= e < |s.enqueuers| ==> !s.enqueuers[e].Counting?)
  {
    ReachableInv(s);
    assert Unfinished(s) == Uncounted(s);
    if forall e :: 0 <= e < |s.enqueuers| ==> !s.enqueuers[e].Counting? {
      TotalZero(IsCounting, s.enqueuers);
      forall w | 0 <= w < |s.workers| ensures !s.workers[w].Resuming? { TotalAtLeast(IsResuming, s.workers, w); }
    }
    if s.tasks == [] && forall w :: 0 <= w < |s.workers| ==> !s.workers[w].Resuming? {
      TotalZero(IsResuming, s.workers);
      forall e | 0 <= e < |s.enqueuers| ensures !s.enqueuers[e].Counting? { TotalAtLeast(IsCounting, s.enqueuers, e); }
    }
  }

  /** A task pushed and not yet counted lets the wait return while it is still queued. */
  lemma WaitCanMissAnUncountedTask(h: Handle) returns (s: State)
    ensures Reachable(s) && s.waiter.Returned? && s.tasks == [h]
  {
    var s0 := State([], 0, true, false, None, [Idle], [], Calling, [], []);
    Runs.ReachableInit(Init, Next, s0);
    var s1 := Advance(s0, Execute(0, Some(h)));
    var s2 := Advance(s1, Push(0));
    var s3 := Advance(s2, BeginWait);
    s := Advance(s3, TestTotal);
  }

  lemma Advance(s: State, st: Step) returns (t: State)
    requires Reachable(s) && Enabled(s, st)
    ensures t == Apply(s, st) && Reachable(t)
  {
    t := Apply(s, st);
    assert Next(s, t);
    Runs.ReachableStep(Init, Next, s, t);
  }

  /** No worker reads the front of an empty queue: the flag only falls, so a wait that ended on a fallen flag finds it
      fallen again. */
  lemma FrontIsNeverEmpty(s: State, w: nat)
    requires Reachable(s) && Enabled(s, Decide(w)) && s.running
    ensures s.tasks != []
  {
    ReachableInv(s);
  }

  lemma OneWorkerHoldsTheLock(s: State, v: nat, w: nat)
    requires Reachable(s) && v < |s.workers| && w < |s.workers| && s.workers[v].Locked? && s.workers[w].Locked?
    ensures v == w
  {
    ReachableInv(s);
  }

  // ---- when a sleeping wait can still return ----

  /** Steps of those already under way, without new tasks or luck. */
  ghost predicate NextInternal(s: State, t: State) {
    exists st: Step ::
      !st.Execute? && !st.StopRunning? && !st.WakeSpuriously? && Enabled(s, st) && t == Apply(s, st)
  }

  ghost predicate CanReturn(s: State) {
    exists t :: Runs.Leads(NextInternal, s, t) && t.waiter.Returned?
  }

  ghost predicate SomeEnqueuer(s: State, e: nat) { e < |s.enqueuers| && s.enqueuers[e].Pushing? }
  ghost predicate SomeWorker(s: State, w: nat) { w < |s.workers| && s.workers[w].Resuming? }

  /** Some task is still to be finished: queued, running or about to be pushed. */
  ghost predicate TaskLeft(s: State) {
    s.tasks != [] || (exists w :: SomeWorker(s, w)) || (exists e :: SomeEnqueuer(s, e))
  }

  /** Without a task left, nobody wakes the waiter: raising the count notifies only the workers. */
  lemma NobodyWakesAfter(s: State, st: Step)
    requires s.waiter.Asleep? && !TaskLeft(s)
    requires Enabled(s, st) && !st.Execute? && !st.StopRunning? && !st.WakeSpuriously?
    ensures Apply(s, st).waiter.Asleep? && !TaskLeft(Apply(s, st))
  {
    var t := Apply(s, st);
    if st.Push? { assert SomeEnqueuer(s, st.e); }
    if st.Finish? { assert SomeWorker(s, st.w); }
    forall w ensures !SomeWorker(t, w) { assert !SomeWorker(s, w); }
    forall e ensures !SomeEnqueuer(t, e) { assert !SomeEnqueuer(s, e); }
  }

  lemma NobodyEverWakes(s: State, t: State)
    requires s.waiter.Asleep? && !TaskLeft(s) && Runs.Leads(NextInternal, s, t)
    ensures t.waiter.Asleep?
  {
    var stuck := (a: State) => a.waiter.Asleep? && !TaskLeft(a);
    forall a, b | stuck(a) && NextInternal(a, b) ensures stuck(b) {
      var st: Step :| !st.Execute? && !st.StopRunning? && !st.WakeSpuriously? && Enabled(a, st) && b == Apply(a, st);
      NobodyWakesAfter(a, st);
    }
    Runs.KeptIfLeads(NextInternal, stuck, s, t);
  }

  function EnqueuerWork(c: Enqueuer): nat { match c case Idle => 0 case Pushing(_) => 8 case Counting => 1 }
  function WorkerWork(c: Worker): nat { match c case Resuming(_) => 4 case Top => 2 case Blocked => 1 case _ => 0 }

  /** A bound on the steps until everything under way is done and counted. */
  ghost function Work(s: State): nat {
    Total(EnqueuerWork, s.enqueuers) + 6 * |s.tasks| + Total(WorkerWork, s.workers)
  }

  /** The waiter will test the count again: it has been notified, or it will be. */
  ghost predicate WillTest(s: State) {
    s.waiter.Notified? || (s.waiter.Asleep? && TaskLeft(s))
  }

  ghost predicate Goes(s: State, t: State) {
    && NextInternal(s, t) && Inv(t) && t.running && |t.workers| == |s.workers| && WillTest(t) && Work(t) < Work(s)
  }

  ghost predicate Waits(s: State) {
    Inv(s) && s.running && 0 < |s.workers| && WillTest(s)
  }

  lemma EnqueuerGoes(s: State, e: nat) returns (t: State)
    requires Waits(s) && s.lock == None && e < |s.enqueuers| && !s.enqueuers[e].Idle?
    ensures Goes(s, t)
  {
    var st := if s.enqueuers[e].Pushing? then Push(e) else Count(e);
    t := Apply(s, st);
    StepKeepsInv(s, st);
    TotalUpdate(EnqueuerWork, s.enqueuers, e, t.enqueuers[e]);
    if w :| SomeWorker(s, w) { assert SomeWorker(t, w); }
    if d :| SomeEnqueuer(s, d) && d != e { assert SomeEnqueuer(t, d); }
  }

  lemma FinisherGoes(s: State, w: nat) returns (t: State)
    requires Waits(s) && s.lock == None && SomeWorker(s, w)
    ensures Goes(s, t)
  {
    t := Apply(s, Finish(w));
    StepKeepsInv(s, Finish(w));
    TotalUpdate(WorkerWork, s.workers, w, Top);
  }

  lemma LockHolderGoes(s: State) returns (t: State)
    requires Waits(s) && s.lock.Some?
    ensures Goes(s, t)
  {
    var w := s.lock.value;
    t := Apply(s, Decide(w));
    StepKeepsInv(s, Decide(w));
    TotalUpdate(WorkerWork, s.workers, w, t.workers[w]);
    assert SomeWorker(t, w);
  }

  lemma TakerGoes(s: State, w: nat) returns (t: State)
    requires Waits(s) && s.lock == None && s.tasks != [] && w < |s.workers| && !s.workers[w].Resuming?
    ensures Goes(s, t)
  {
    var st := if s.workers[w].Top? then Look(w) else Acquire(w);
    t := Apply(s, st);
    StepKeepsInv(s, st);
    TotalUpdate(WorkerWork, s.workers, w, t.workers[w]);
  }

  /** With nothing under way the count is zero and the wait returns. */
  lemma WaitEnds(s: State) returns (t: State)
    requires Waits(s) && s.lock == None && !TaskLeft(s) && forall e :: 0 <= e < |s.enqueuers| ==> s.enqueuers[e].Idle?
    ensures NextInternal(s, t) && t.waiter.Returned?
  {
    forall w | 0 <= w < |s.workers| ensures IsResuming(s.workers[w]) == 0 { assert !SomeWorker(s, w); }
    TotalZero(IsResuming, s.workers);
    TotalZero(IsCounting, s.enqueuers);
    t := Apply(s, TestTotal);
  }

  lemma {:induction false} WaitReturnsFrom(start: State, s: State) returns (t: State)
    requires Runs.Leads(NextInternal, start, s) && Waits(s)
    ensures Runs.Leads(NextInternal, start, t) && t.waiter.Returned?
    decreases Work(s)
  {
    var u;
    if s.lock.Some? {
      u := LockHolderGoes(s);
    } else if e: nat :| e < |s.enqueuers| && !s.enqueuers[e].Idle? {
      u := EnqueuerGoes(s, e);
    } else if w: nat :| SomeWorker(s, w) {
      u := FinisherGoes(s, w);
    } else if s.tasks != [] {
      assert !SomeWorker(s, 0);
      u := TakerGoes(s, 0);
    } else {
      t := WaitEnds(s);
      Runs.LeadsStep(NextInternal, start, s, t);
      return;
    }
    Runs.LeadsStep(NextInternal, start, s, u);
    t := WaitReturnsFrom(start, u);
  }

  /** A wait that sleeps can still return, without new tasks or a spurious wakeup, if and only if some task is left to
      be finished and there is a worker. That a push is still to be counted does not help it. */
  lemma SleepingWaitCanReturnIff(s: State)
    requires Reachable(s) && s.running && s.waiter.Asleep?
    ensures CanReturn(s) <==> TaskLeft(s) && 0 < |s.workers|
  {
    ReachableInv(s);
    Runs.LeadsNowhere(NextInternal, s);
    if TaskLeft(s) && 0 < |s.workers| {
      var t := WaitReturnsFrom(s, s);
    } else if !TaskLeft(s) {
      forall t | Runs.Leads(NextInternal, s, t) ensures t.waiter.Asleep? { NobodyEverWakes(s, t); }
    } else {
      forall t | Runs.Leads(NextInternal, s, t) ensures t.waiter.Asleep? { NobodyFinishesWithoutWorkers(s, t); }
    }
  }

  lemma NobodyFinishesWithoutWorkers(s: State, t: State)
    requires s.waiter.Asleep? && s.workers == [] && Runs.Leads(NextInternal, s, t)
    ensures t.waiter.Asleep?
  {
    var stuck := (a: State) => a.waiter.Asleep? && a.workers == [];
    Runs.KeptIfLeads(NextInternal, stuck, s, t);
  }

  /** A task is pushed and run before it is counted: the count wraps, the waiter goes to sleep over it, and the late
      count brings it to zero and tells nobody. Everything is done, and the wait cannot return. */
  lemma WaitCanSleepOverZero(h: Handle) returns (s: State)
    ensures Reachable(s) && s.waiter.Asleep? && s.total == 0 && s.tasks == [] && s.running
    ensures s.enqueuers == [Idle] && s.workers == [Top] && !CanReturn(s)
  {
    s := ATaskRunsUncounted(h);
    s := Advance(s, BeginWait);
    s := Advance(s, TestTotal);
    s := Advance(s, Count(0));
    assert s.enqueuers == [Idle] && s.workers == [Top];
    SleepingWaitCanReturnIff(s);
  }

  lemma ATaskIsPushed(h: Handle) returns (s: State)
    ensures Reachable(s) && s == State([h], 0, true, false, None, [Counting], [Blocked], Calling, [h], [])
  {
    s := State([], 0, true, false, None, [Idle], [Top], Calling, [], []);
    Runs.ReachableInit(Init, Next, s);
    s := Advance(s, Execute(0, Some(h)));
    s := Advance(s, Push(0));
    s := Advance(s, Look(0));
  }

  lemma ATaskRunsUncounted(h: Handle) returns (s: State)
    ensures Reachable(s) && s == State([], WORD - 1, true, false, None, [Counting], [Top], Calling, [h], [h])
  {
    s := ATaskIsPushed(h);
    s := Advance(s, Acquire(0));
    s := Advance(s, Decide(0));
    s := Advance(s, Finish(0));
  }

  // ---- the pool as the object the threads update ----

  class ThreadPool {
    var mTasks: seq<Handle>
    var mTaskTotal: nat
    var mRunning: bool
    var mWaiting: bool
    ghost var lock: Option<nat>
    ghost var enqueuers: seq<Enqueuer>
    ghost var workers: seq<Worker>
    ghost var waiter: Waiter
    ghost var pushed: seq<Handle>
    ghost var taken: seq<Handle>

    ghost function View(): State
      reads this
    {
      State(mTasks, mTaskTotal, mRunning, mWaiting, lock, enqueuers, workers, waiter, pushed, taken)
    }

    constructor (threadCount: nat, ghost clients: nat)
      ensures Init(View()) && Inv(View()) && |workers| == threadCount && |enqueuers| == clients
    {
      mTasks, mTaskTotal, mRunning, mWaiting := [], 0, true, false;
      lock, waiter, pushed, taken := None, Calling, [], [];
      enqueuers, workers := seq(clients, _ => Idle), seq(threadCount, _ => Top);
      new;
      InitEstablishes(View());
    }

    /** Entering `execute`; the caller stays outside when the handle is null. */
    method Begin(ghost e: nat, h: Option<Handle>)
      requires Enabled(View(), Execute(e, h))
      modifies `enqueuers
      ensures View() == Apply(old(View()), Execute(e, h))
      ensures if h.None? then View() == old(View()) else enqueuers[e] == Pushing(h.value)
    {
      if h.Some? {
        enqueuers := enqueuers[e := Pushing(h.value)];
      }
    }

    method PushTask(ghost e: nat, h: Handle)
      requires Enabled(View(), Push(e)) && enqueuers[e] == Pushing(h)
      modifies `mTasks, `enqueuers, `pushed
      ensures View() == Apply(old(View()), Push(e)) && mTasks == old(mTasks) + [h]
    {
      mTasks, pushed := mTasks + [h], pushed + [h];
      enqueuers := enqueuers[e := Counting];
    }

    method CountTask(ghost e: nat)
      requires Inv(View()) && Enabled(View(), Count(e))
      modifies `mTaskTotal, `enqueuers
      ensures View() == Apply(old(View()), Count(e))
      ensures mTaskTotal == if old(mTaskTotal) == WORD - 1 then 0 else old(mTaskTotal) + 1
    {
      mTaskTotal := (mTaskTotal + 1) % WORD;
      enqueuers := enqueuers[e := Idle];
    }

    /** The test of the worker's loop. */
    method TestRunning(ghost w: nat) returns (goesOn: bool)
      requires Enabled(View(), Look(w))
      modifies `workers
      ensures View() == Apply(old(View()), Look(w))
      ensures goesOn == mRunning && workers[w] == if goesOn then Blocked else Exited
    {
      goesOn := mRunning;
      workers := workers[w := if goesOn then Blocked else Exited];
    }

    /** The worker's wait may return, with the lock, only over a task or at the end. */
    method WaitForTask(ghost w: nat)
      requires Enabled(View(), Acquire(w))
      modifies `workers, `lock
      ensures View() == Apply(old(View()), Acquire(w))
      ensures old(lock) == None && lock == Some(w) && (mTasks != [] || !mRunning)
    {
      workers, lock := workers[w := Locked], Some(w);
    }

    /** The destructor, after its `waitEmpty`. */
    method StopWorkers()
      modifies `mRunning
      ensures View() == Apply(old(View()), StopRunning) && !mRunning
    {
      mRunning := false;
    }

    /** What a worker does once its wait has returned. */
    method TakeTask(ghost w: nat) returns (found: bool, task: Handle)
      requires Inv(View()) && Enabled(View(), Decide(w))
      modifies `mTasks, `workers, `lock, `taken
      ensures View() == Apply(old(View()), Decide(w)) && lock == None
      ensures found == mRunning && (found <==> workers[w] == Resuming(task))
      ensures if found then old(mTasks) == [task] + mTasks else mTasks == old(mTasks) && workers[w] == Top
    {
      found, task := mRunning, 0;
      if found {
        task := mTasks[0];
        mTasks, taken := mTasks[1..], taken + [task];
      }
      workers := workers[w := if found then Resuming(task) else Top];
      lock := None;
    }

    /** Back from a task, under the lock: discounts it and notifies a waiting thread. */
    method DiscountTask(ghost w: nat) returns (notifies: bool)
      requires Inv(View()) && Enabled(View(), Finish(w))
      modifies `mTaskTotal, `workers, `waiter
      ensures View() == Apply(old(View()), Finish(w))
      ensures mTaskTotal == if old(mTaskTotal) == 0 then WORD - 1 else old(mTaskTotal) - 1
      ensures (notifies <==> mWaiting) && (notifies ==> !waiter.Asleep?)
    {
      mTaskTotal := (mTaskTotal + WORD - 1) % WORD;
      workers := workers[w := Top];
      notifies := mWaiting;
      if notifies && waiter.Asleep? {
        waiter := Notified;
      }
    }

    method StartWaiting()
      requires waiter == Calling
      modifies `mWaiting, `waiter
      ensures View() == Apply(old(View()), BeginWait) && mWaiting && waiter == Marked
    {
      mWaiting := true;
      waiter := Marked;
    }

    /** The test of the wait, under the lock. */
    method TestEmpty() returns (empty: bool)
      requires Enabled(View(), TestTotal)
      modifies `mWaiting, `waiter
      ensures View() == Apply(old(View()), TestTotal)
      ensures (empty <==> mTaskTotal == 0) && waiter == (if empty then Returned else Asleep)
      ensures mWaiting == (old(mWaiting) && !empty)
    {
      empty := mTaskTotal == 0;
      if empty {
        mWaiting := false;
      }
      waiter := if empty then Returned else Asleep;
    }
  }
}
