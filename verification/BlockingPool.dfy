/** The self-sizing pool for blocking work. Everything it shares is touched under one lock, so one step is one lock
    region; tasks run outside it. */
module BlockingPool {
  import opened Sums
  import Runs

  type Handle = nat

  datatype Thread =
    | Created               // started by growPool, not yet in its loop
    | Resuming(h: Handle)   // running a task, without the lock
    | Waiting               // in wait_for
    | Serving               // holding the lock, not counted as idle
    | Gone

  datatype State = State(
    queue: seq<Handle>,
    idle: int,
    count: int,
    limit: nat,
    threads: seq<Thread>,
    pushed: seq<Handle>,            // history: handles in the order given to execute
    taken: seq<Handle>,             // history: handles in the order threads took them
    resumed: multiset<Handle>)      // history: handles whose resumption has returned

  datatype Step =
    | Execute(h: Handle)
    | Enter(t: nat)
    | Return(t: nat)
    | Wake(t: nat, timedOut: bool)

  ghost predicate Init(s: State) {
    s.queue == s.pushed == s.taken == [] && s.idle == 0 && s.count == 0 && s.threads == [] && s.resumed == multiset{}
  }

  /** growPool: start threads while there are more than five tasks per idle thread. */
  function Grow(s: State): (g: State)
    ensures g == s.(idle := g.idle, count := g.count, threads := g.threads)
    ensures s.threads <= g.threads
    decreases s.limit - s.count
  {
    if |s.queue| > s.idle * 5 && s.count < s.limit then Grow(StartThread(s)) else s
  }

  function StartThread(s: State): State {
    s.(count := s.count + 1, idle := s.idle + 1, threads := s.threads + [Created])
  }

  function SetThread(s: State, t: nat, c: Thread): State
    requires t < |s.threads|
  {
    s.(threads := s.threads[t := c])
  }

  /** What a serving thread does with the lock: grow and take the head, or go back to waiting. */
  function Serve(s: State, t: nat): State
    requires t < |s.threads|
  {
    if s.queue != [] then
      SetThread(Grow(s), t, Resuming(s.queue[0])).(queue := s.queue[1..], taken := s.taken + [s.queue[0]])
    else SetThread(s, t, Waiting).(idle := s.idle + 1)
  }

  ghost predicate Enabled(s: State, st: Step) {
    match st
    case Execute(_) => true
    case Enter(t) => t < |s.threads| && s.threads[t].Created?
    case Return(t) => t < |s.threads| && s.threads[t].Resuming?
    case Wake(t, _) => t < |s.threads| && s.threads[t].Waiting?
  }

  /** The state in which thread `t` has the lock and has stopped counting as idle. */
  function StopIdling(s: State, t: nat): State
    requires t < |s.threads|
  {
    SetThread(s, t, Serving).(idle := s.idle - 1)
  }

  /** The state in which thread `t` is back from its task and has the lock. */
  ghost function Returning(s: State, t: nat): State
    requires t < |s.threads| && s.threads[t].Resuming?
  {
    SetThread(s, t, Serving).(resumed := s.resumed + multiset{s.threads[t].h})
  }

  ghost function Apply(s: State, st: Step): State
    requires Enabled(s, st)
  {
    match st
    case Execute(h) => Grow(s.(queue := s.queue + [h], pushed := s.pushed + [h]))
    case Enter(t) => Serve(StopIdling(s, t), t)
    case Return(t) => Serve(Returning(s, t), t)
    case Wake(t, timedOut) =>
      if timedOut && s.queue == [] then SetThread(s, t, Gone).(idle := s.idle - 1, count := s.count - 1)
      else Serve(StopIdling(s, t), t)
  }

  ghost predicate Next(s: State, t: State) {
    exists st :: Enabled(s, st) && t == Apply(s, st)
  }

  ghost predicate Reachable(s: State) {
    Runs.Reachable(Init, Next, s)
  }

  // ---- the invariant ----

  function IsIdle(c: Thread): nat { if c.Created? || c.Waiting? then 1 else 0 }
  function IsLive(c: Thread): nat { if c.Gone? then 0 else 1 }
  function InHand(c: Thread): multiset<Handle> { if c.Resuming? then multiset{c.h} else multiset{} }

  /** The two counters count what they are named for. */
  ghost predicate CountsExact(s: State) {
    s.idle == Total(IsIdle, s.threads) && s.count == Total(IsLive, s.threads)
  }

  /** There is an idle thread for every five queued tasks, unless the thread limit is reached. */
  ghost predicate Sized(s: State) {
    s.count <= s.limit && (|s.queue| <= 5 * s.idle || s.count == s.limit)
  }

  ghost predicate Conserved(s: State) {
    && s.pushed == s.taken + s.queue
    && multiset(s.taken) == Gather(InHand, s.threads) + s.resumed
  }

  ghost predicate Inv(s: State) {
    && CountsExact(s) && Sized(s) && Conserved(s)
    && forall t :: 0 <= t < |s.threads| ==> !s.threads[t].Serving?
  }

  lemma {:induction false} GrowKeepsCounts(s: State)
    requires CountsExact(s) && s.count <= s.limit
    ensures CountsExact(Grow(s)) && Sized(Grow(s))
    ensures forall t :: |s.threads| <= t < |Grow(s).threads| ==> Grow(s).threads[t] == Created
    ensures Gather(InHand, Grow(s).threads) == Gather(InHand, s.threads)
    decreases s.limit - s.count
  {
    if |s.queue| > s.idle * 5 && s.count < s.limit {
      TotalAppend(IsIdle, s.threads, Created);
      TotalAppend(IsLive, s.threads, Created);
      GatherAppend(InHand, s.threads, Created);
      GrowKeepsCounts(StartThread(s));
      forall t | |s.threads| <= t < |Grow(s).threads| ensures Grow(s).threads[t] == Created {
        if t == |s.threads| {
          assert StartThread(s).threads <= Grow(s).threads && StartThread(s).threads[t] == Created;
        }
      }
    }
  }

  /** growPool starts no more threads than the queue calls for. */
  lemma {:induction false} GrowIsMinimal(s: State)
    ensures Grow(s) != s ==> |s.queue| > 5 * (Grow(s).idle - 1) && Grow(s).count <= s.limit
    ensures Grow(s).idle - s.idle == Grow(s).count - s.count == |Grow(s).threads| - |s.threads|
    decreases s.limit - s.count
  {
    if |s.queue| > s.idle * 5 && s.count < s.limit {
      GrowIsMinimal(StartThread(s));
    }
  }

  lemma ThreadChanges(s: State, t: nat, c: Thread)
    requires t < |s.threads|
    ensures Total(IsIdle, s.threads[t := c]) + IsIdle(s.threads[t]) == Total(IsIdle, s.threads) + IsIdle(c)
    ensures Total(IsLive, s.threads[t := c]) + IsLive(s.threads[t]) == Total(IsLive, s.threads) + IsLive(c)
  {
    TotalUpdate(IsIdle, s.threads, t, c);
    TotalUpdate(IsLive, s.threads, t, c);
  }

  /** A thread that balances what it holds against what was taken and resumed keeps every handle accounted for. */
  lemma HandsChange(s: State, t: nat, c: Thread, taken: seq<Handle>, resumed: multiset<Handle>)
    requires t < |s.threads| && multiset(s.taken) == Gather(InHand, s.threads) + s.resumed
    requires multiset(taken) + InHand(s.threads[t]) + s.resumed == multiset(s.taken) + InHand(c) + resumed
    ensures multiset(taken) == Gather(InHand, s.threads[t := c]) + resumed
  {
    var before, after := Gather(InHand, s.threads), Gather(InHand, s.threads[t := c]);
    assert after + InHand(s.threads[t]) == before + InHand(c) by { GatherUpdate(InHand, s.threads, t, c); }
    forall h ensures multiset(taken)[h] == (after + resumed)[h] {
      assert (after + InHand(s.threads[t]))[h] == (before + InHand(c))[h];
      assert (multiset(taken) + InHand(s.threads[t]) + s.resumed)[h] == (multiset(s.taken) + InHand(c) + resumed)[h];
    }
  }

  /** A state in which only thread `t` has the lock. */
  ghost predicate ServingOnly(s: State, t: nat) {
    && t < |s.threads| && s.threads[t].Serving?
    && CountsExact(s) && s.count <= s.limit && Conserved(s)
    && forall u :: 0 <= u < |s.threads| && u != t ==> !s.threads[u].Serving?
  }

  lemma GrowKeepsServing(s: State, t: nat)
    requires ServingOnly(s, t)
    ensures ServingOnly(Grow(s), t) && Sized(Grow(s))
  {
    var g := Grow(s);
    GrowKeepsCounts(s);
    forall u | 0 <= u < |g.threads| && u != t ensures !g.threads[u].Serving? {
      if u < |s.threads| { assert g.threads[u] == s.threads[u]; }
    }
    assert g.threads[t] == s.threads[t];
  }

  lemma TakeHeadKeepsInv(g: State, t: nat)
    requires ServingOnly(g, t) && Sized(g) && g.queue != []
    ensures Inv(SetThread(g, t, Resuming(g.queue[0])).(queue := g.queue[1..], taken := g.taken + [g.queue[0]]))
  {
    var h := g.queue[0];
    MoveHead(g.taken, g.queue);
    ThreadChanges(g, t, Resuming(h));
    HandsChange(g, t, Resuming(h), g.taken + [h], g.resumed);
  }

  lemma ServeKeepsInv(s: State, t: nat)
    requires ServingOnly(s, t)
    ensures Inv(Serve(s, t))
  {
    if s.queue != [] {
      GrowKeepsServing(s, t);
      TakeHeadKeepsInv(Grow(s), t);
    } else {
      ThreadChanges(s, t, Waiting);
      HandsChange(s, t, Waiting, s.taken, s.resumed);
    }
  }

  lemma StopIdlingServes(s: State, t: nat)
    requires Inv(s) && t < |s.threads| && IsIdle(s.threads[t]) == 1
    ensures ServingOnly(StopIdling(s, t), t)
  {
    ThreadChanges(s, t, Serving);
    HandsChange(s, t, Serving, s.taken, s.resumed);
  }

  lemma ExitKeepsInv(s: State, t: nat)
    requires Inv(s) && s.queue == [] && Enabled(s, Wake(t, true))
    ensures Inv(Apply(s, Wake(t, true)))
  {
    ThreadChanges(s, t, Gone);
    HandsChange(s, t, Gone, s.taken, s.resumed);
  }

  lemma StepKeepsInv(s: State, st: Step)
    requires Inv(s) && Enabled(s, st)
    ensures Inv(Apply(s, st))
  {
    match st
    case Execute(h) => ExecuteKeepsInv(s, h);
    case Enter(t) => StopIdlingServes(s, t); ServeKeepsInv(StopIdling(s, t), t);
    case Return(t) => ReturnKeepsInv(s, t);
    case Wake(t, timedOut) =>
      if timedOut && s.queue == [] {
        ExitKeepsInv(s, t);
      } else {
        StopIdlingServes(s, t);
        ServeKeepsInv(StopIdling(s, t), t);
      }
  }

  lemma ExecuteKeepsInv(s: State, h: Handle)
    requires Inv(s)
    ensures Inv(Apply(s, Execute(h)))
  {
    var p := s.(queue := s.queue + [h], pushed := s.pushed + [h]);
    GrowKeepsCounts(p);
    assert s.taken + s.queue + [h] == s.taken + (s.queue + [h]);
    forall u | 0 <= u < |Grow(p).threads| ensures !Grow(p).threads[u].Serving? {
      if u < |s.threads| { assert Grow(p).threads[u] == s.threads[u]; }
    }
  }

  lemma ReturningServes(s: State, t: nat)
    requires Inv(s) && Enabled(s, Return(t))
    ensures ServingOnly(Returning(s, t), t)
  {
    ThreadChanges(s, t, Serving);
    HandsChange(s, t, Serving, s.taken, s.resumed + multiset{s.threads[t].h});
  }

  lemma ReturnKeepsInv(s: State, t: nat)
    requires Inv(s) && Enabled(s, Return(t))
    ensures Inv(Apply(s, Return(t)))
  {
    ReturningServes(s, t);
    ServeKeepsInv(Returning(s, t), t);
  }

  lemma InitEstablishes(s: State)
    requires Init(s)
    ensures Inv(s)
  {
  }

  lemma ReachableInv(s: State)
    requires Reachable(s)
    ensures Inv(s)
  {
    forall a | Init(a) ensures Inv(a) { InitEstablishes(a); }
    forall a, b | Inv(a) && Next(a, b) ensures Inv(b) {
      var st :| Enabled(a, st) && b == Apply(a, st);
      StepKeepsInv(a, st);
    }
    Runs.InvariantIfReachable(Init, Next, Inv, s);
  }

  // ---- what holds whenever the lock is free ----

  lemma CountersAreExact(s: State)
    requires Reachable(s)
    ensures s.idle == Total(IsIdle, s.threads) && s.count == Total(IsLive, s.threads)
    ensures 0 <= s.idle && 0 <= s.count <= s.limit
  {
    ReachableInv(s);
  }

  /** The counters a step decrements are positive before it. */
  lemma CountersNeverUnderflow(s: State, st: Step)
    requires Reachable(s) && Enabled(s, st)
    ensures st.Enter? || st.Wake? ==> s.idle > 0
    ensures st.Wake? ==> s.count > 0
  {
    ReachableInv(s);
    if !st.Execute? {
      TotalAtLeast(IsIdle, s.threads, st.t);
      TotalAtLeast(IsLive, s.threads, st.t);
    }
  }

  lemma PoolIsSized(s: State)
    requires Reachable(s)
    ensures |s.queue| <= 5 * s.idle || s.count == s.limit
  {
    ReachableInv(s);
  }

  /** With a positive limit and work queued some thread is alive, and has a step. */
  lemma SomeThreadCanServe(s: State) returns (st: Step)
    requires Inv(s) && s.queue != [] && s.limit > 0
    ensures !st.Execute? && Enabled(s, st) && !s.threads[st.t].Gone?
  {
    if s.idle > 0 {
      var i := TotalPositive(IsIdle, s.threads);
      TotalAtLeast(IsLive, s.threads, i);
    }
    var t := TotalPositive(IsLive, s.threads);
    st := match s.threads[t]
      case Created => Enter(t)
      case Resuming(_) => Return(t)
      case _ => Wake(t, false);
  }

  /** Whichever live thread gets the lock while work is queued takes its head. */
  lemma ServingTakesTheHead(s: State, st: Step)
    requires Enabled(s, st) && !st.Execute? && s.queue != []
    ensures var t := Apply(s, st);
      && t.taken == s.taken + [s.queue[0]] && t.queue == s.queue[1..] && t.pushed == s.pushed && t.limit == s.limit
      && t.resumed == s.resumed + (if st.Return? then multiset{s.threads[st.t].h} else multiset{})
  {
  }

  /** With a positive limit, queued work always has a live thread, and whichever live thread next gets the lock takes
      the head of the queue, whatever it was doing. */
  lemma QueuedWorkIsServed(s: State)
    requires Reachable(s) && s.queue != [] && s.limit > 0
    ensures exists t :: 0 <= t < |s.threads| && !s.threads[t].Gone?
    ensures forall st :: Enabled(s, st) && !st.Execute? ==>
      Apply(s, st).taken == s.taken + [s.queue[0]] && Apply(s, st).queue == s.queue[1..]
    ensures exists st :: Enabled(s, st) && !st.Execute?
  {
    ReachableInv(s);
    var st := SomeThreadCanServe(s);
    forall st | Enabled(s, st) && !st.Execute?
      ensures Apply(s, st).taken == s.taken + [s.queue[0]] && Apply(s, st).queue == s.queue[1..]
    {
      ServingTakesTheHead(s, st);
    }
  }

  // ---- when the threads can resume everything ----

  ghost predicate NextOfThreads(s: State, t: State) {
    exists st: Step :: !st.Execute? && Enabled(s, st) && t == Apply(s, st)
  }

  /** Some run of the threads resumes exactly what has been given to `execute`. */
  ghost predicate CanResumeAll(s: State) {
    exists t :: Runs.Leads(NextOfThreads, s, t) && t.pushed == s.pushed && t.resumed == multiset(s.pushed)
  }

  /** How many takes and returns are left. */
  ghost function Left(s: State): int {
    2 * |s.pushed| - |s.taken| - |s.resumed|
  }

  lemma LeftIsNatural(s: State)
    requires Conserved(s)
    ensures Left(s) >= 0
  {
    assert |multiset(s.taken)| == |Gather(InHand, s.threads)| + |s.resumed|;
    assert |multiset(s.taken)| == |s.taken|;
  }

  lemma ReturningAdvances(s: State, t: nat)
    requires Enabled(s, Return(t))
    ensures var u := Apply(s, Return(t)); Left(u) < Left(s) && u.pushed == s.pushed && u.limit == s.limit
  {
  }

  lemma AllIsResumed(s: State)
    requires Inv(s) && s.queue == [] && forall t :: 0 <= t < |s.threads| ==> !s.threads[t].Resuming?
    ensures s.resumed == multiset(s.pushed)
  {
    GatherEmpty(InHand, s.threads);
    assert s.taken + s.queue == s.taken;
  }

  lemma {:induction false} ResumesAllFrom(start: State, s: State) returns (t: State)
    requires Runs.Leads(NextOfThreads, start, s) && Inv(s) && s.limit > 0
    ensures Runs.Leads(NextOfThreads, start, t) && t.pushed == s.pushed && t.resumed == multiset(s.pushed)
    decreases Left(s)
  {
    LeftIsNatural(s);
    var st;
    if s.queue != [] {
      st := SomeThreadCanServe(s);
      ServingTakesTheHead(s, st);
    } else if r: nat :| r < |s.threads| && s.threads[r].Resuming? {
      st := Return(r);
      ReturningAdvances(s, r);
    } else {
      AllIsResumed(s);
      return s;
    }
    var u := Apply(s, st);
    StepKeepsInv(s, st);
    assert NextOfThreads(s, u);
    Runs.LeadsStep(NextOfThreads, start, s, u);
    LeftIsNatural(u);
    t := ResumesAllFrom(start, u);
  }

  /** A pool with a limit of zero never starts a thread. */
  lemma NothingRunsWithoutThreads(s: State)
    requires Reachable(s) && s.limit == 0
    ensures s.threads == [] && s.resumed == multiset{}
  {
    var idle := (a: State) => a.limit == 0 ==> a.threads == [] && a.count == 0 && a.resumed == multiset{};
    Runs.InvariantIfReachable(Init, Next, idle, s);
  }

  lemma NothingEverRunsWithoutThreads(s: State, t: State)
    requires s.threads == [] && Runs.Leads(NextOfThreads, s, t)
    ensures t.resumed == s.resumed
  {
    var idle := (a: State) => a.threads == [] && a.resumed == s.resumed;
    Runs.KeptIfLeads(NextOfThreads, idle, s, t);
  }

  /** From every reachable state the threads can resume everything given so far, if and only if the limit allows a
      thread or nothing has been given. */
  lemma CanResumeAllIff(s: State)
    requires Reachable(s)
    ensures CanResumeAll(s) <==> s.limit > 0 || s.pushed == []
  {
    ReachableInv(s);
    Runs.LeadsNowhere(NextOfThreads, s);
    if s.limit > 0 {
      var t := ResumesAllFrom(s, s);
    } else {
      NothingRunsWithoutThreads(s);
      forall t | Runs.Leads(NextOfThreads, s, t) ensures t.resumed == multiset{} {
        NothingEverRunsWithoutThreads(s, t);
      }
    }
  }

  /** Tasks are taken in the order they were given, and each is in exactly one place. */
  lemma TakenInOrderExactlyOnce(s: State)
    requires Reachable(s)
    ensures s.pushed == s.taken + s.queue
    ensures multiset(s.pushed) == multiset(s.queue) + Gather(InHand, s.threads) + s.resumed
  {
    ReachableInv(s);
    assert multiset(s.taken + s.queue) == multiset(s.taken) + multiset(s.queue);
  }

  // ---- the pool as the object whose fields the lock protects ----

  class BlockingThreadPool {
    var mQueue: seq<Handle>
    var mIdleCount: int
    var mThreadCount: int
    const mThreadLimits: nat
    ghost var threads: seq<Thread>
    ghost var pushed: seq<Handle>
    ghost var taken: seq<Handle>
    ghost var resumed: multiset<Handle>

    ghost function View(): State
      reads this
    {
      State(mQueue, mIdleCount, mThreadCount, mThreadLimits, threads, pushed, taken, resumed)
    }

    constructor (threadLimit: nat)
      ensures Init(View()) && Inv(View()) && mThreadLimits == threadLimit
    {
      mQueue, mIdleCount, mThreadCount, mThreadLimits := [], 0, 0, threadLimit;
      threads, pushed, taken, resumed := [], [], [], multiset{};
    }

    method GrowPool()
      modifies `mIdleCount, `mThreadCount, `threads
      ensures View() == Grow(old(View()))
      ensures |mQueue| <= 5 * mIdleCount || mThreadCount >= mThreadLimits
      ensures mQueue == old(mQueue) && mIdleCount - old(mIdleCount) == mThreadCount - old(mThreadCount) >= 0
    {
      while |mQueue| > mIdleCount * 5 && mThreadCount < mThreadLimits
        invariant Grow(View()) == Grow(old(View()))
        invariant mIdleCount - old(mIdleCount) == mThreadCount - old(mThreadCount) >= 0
        decreases mThreadLimits - mThreadCount
      {
        mThreadCount := mThreadCount + 1;
        mIdleCount := mIdleCount + 1;
        threads := threads + [Created];
      }
    }

    method ExecuteTask(h: Handle)
      modifies this
      ensures View() == Apply(old(View()), Execute(h))
      ensures mQueue == old(mQueue) + [h] && pushed == old(pushed) + [h]
    {
      mQueue := mQueue + [h];
      pushed := pushed + [h];
      GrowPool();
    }

    /** One turn of the inner loop condition and body: returns the task to run outside the lock, if there is one. */
    method ServeQueue(ghost t: nat) returns (found: bool, task: Handle)
      requires t < |threads|
      modifies this
      ensures View() == Serve(old(View()), t)
      ensures found <==> old(mQueue) != []
      ensures mQueue == if found then old(mQueue)[1..] else []
      ensures !found ==> threads[t] == Waiting && mIdleCount == old(mIdleCount) + 1
      ensures found ==> task == old(mQueue)[0] && threads[t] == Resuming(task)
    {
      found, task := mQueue != [], 0;
      if found {
        GrowPool();
        task := mQueue[0];
        mQueue := mQueue[1..];
        taken := taken + [task];
        threads := threads[t := Resuming(task)];
      } else {
        mIdleCount := mIdleCount + 1;
        threads := threads[t := Waiting];
      }
    }

    method EnterLoop(ghost t: nat) returns (found: bool, task: Handle)
      requires Enabled(View(), Enter(t))
      modifies this
      ensures View() == Apply(old(View()), Enter(t))
      ensures found <==> old(mQueue) != []
      ensures !found ==> threads[t] == Waiting && mIdleCount == old(mIdleCount)
      ensures found ==> task == old(mQueue)[0] && threads[t] == Resuming(task)
    {
      mIdleCount := mIdleCount - 1;
      threads := threads[t := Serving];
      found, task := ServeQueue(t);
    }

    method ReturnFromTask(ghost t: nat) returns (found: bool, task: Handle)
      requires Enabled(View(), Return(t))
      modifies this
      ensures View() == Apply(old(View()), Return(t))
      ensures resumed == old(resumed) + multiset{old(threads)[t].h}
      ensures found <==> old(mQueue) != []
      ensures !found ==> threads[t] == Waiting && mIdleCount == old(mIdleCount) + 1
      ensures found ==> task == old(mQueue)[0] && threads[t] == Resuming(task)
    {
      resumed := resumed + multiset{threads[t].h};
      threads := threads[t := Serving];
      found, task := ServeQueue(t);
    }

    method WakeUp(ghost t: nat, timedOut: bool) returns (exits: bool, found: bool, task: Handle)
      requires Enabled(View(), Wake(t, timedOut))
      modifies this
      ensures View() == Apply(old(View()), Wake(t, timedOut))
      ensures exits <==> threads[t] == Gone
      ensures exits <==> timedOut && old(mQueue) == []
      ensures exits ==> mIdleCount == old(mIdleCount) - 1 && mThreadCount == old(mThreadCount) - 1
      ensures !exits && !found ==> threads[t] == Waiting && mIdleCount == old(mIdleCount)
      ensures found <==> old(mQueue) != []
      ensures found ==> task == old(mQueue)[0] && threads[t] == Resuming(task)
    {
      exits, found, task := timedOut && mQueue == [], false, 0;
      mIdleCount := mIdleCount - 1;
      if exits {
        mThreadCount := mThreadCount - 1;
        threads := threads[t := Gone];
      } else {
        threads := threads[t := Serving];
        found, task := ServeQueue(t);
      }
    }
  }
}
