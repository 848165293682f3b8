/** Several threads in `block` at once. They share one reactor and take turns in it under its lock, so that a wakeup
    goes to whichever thread is inside. One step is one test, one acquisition or release of the lock, or one step of
    the wakeup protocol. */
module SharedReactor {
  import opened Wrappers
  import Runs
  import W = Wakeup

  /** Where a thread in `block` stands; inside the reactor its place is that of the protocol's loop. */
  datatype Place = Checking | CheckingSpawn | Locking | Inside | Ended

  /** `reactor.loop` is the place of the thread that has the lock; futures belong to the threads. */
  datatype State = State(reactor: W.State, lock: Option<nat>, places: seq<Place>, ready: seq<bool>)

  datatype Step =
    | Do(st: W.Step)
    | FinishRootOf(j: nat, a: nat)
    | TestFuture(j: nat)
    | TestSpawn(j: nat)
    | TakeLock(j: nat)
    | LeaveReactor(j: nat)

  ghost predicate Init(m: State) {
    && W.Init(m.reactor) && m.lock == None && |m.ready| == |m.places|
    && forall j :: 0 <= j < |m.places| ==> m.places[j] == Checking && !m.ready[j]
  }

  ghost predicate Enabled(m: State, st: Step) {
    match st
    case Do(st) => W.Enabled(m.reactor, st) && !st.FinishRoot? && !st.LoadFuture? && !st.LoadSpawn?
    case FinishRootOf(j, a) => j < |m.ready| && !m.ready[j] && W.IsQuiet(m.reactor, a)
    case TestFuture(j) => j < |m.places| && j < |m.ready| && m.places[j].Checking?
    case TestSpawn(j) => j < |m.places| && m.places[j].CheckingSpawn?
    case TakeLock(j) => j < |m.places| && m.places[j].Locking? && m.lock == None && m.reactor.loop.CheckFuture?
    case LeaveReactor(j) => j < |m.places| && m.lock == Some(j) && m.reactor.loop.CheckFuture?
  }

  ghost function SetPlace(m: State, j: nat, p: Place): State
    requires j < |m.places|
  {
    m.(places := m.places[j := p])
  }

  ghost function Apply(m: State, st: Step): State
    requires Enabled(m, st)
  {
    match st
    case Do(st) => m.(reactor := W.Apply(m.reactor, st))
    case FinishRootOf(j, a) =>
      m.(ready := m.ready[j := true], reactor := W.Apply(m.reactor, W.NotifyFor(a, W.Finish)))
    case TestFuture(j) => SetPlace(m, j, if m.ready[j] then CheckingSpawn else Locking)
    case TestSpawn(j) => SetPlace(m, j, if m.reactor.spawned == 0 then Ended else Locking)
    case TakeLock(j) => SetPlace(m, j, Inside).(lock := Some(j), reactor := m.reactor.(loop := W.Drain))
    case LeaveReactor(j) => SetPlace(m, j, Checking).(lock := None)
  }

  ghost predicate Next(m: State, n: State) {
    exists st :: Enabled(m, st) && n == Apply(m, st)
  }

  ghost predicate Reachable(m: State) {
    Runs.Reachable(Init, Next, m)
  }

  // ---- what the reactor goes through is the protocol with one loop, however many threads take turns ----

  ghost predicate Shape(m: State) {
    && |m.ready| == |m.places|
    && !m.reactor.ready && !m.reactor.loop.CheckSpawn? && !m.reactor.loop.Finished?
    && (m.lock.Some? ==> m.lock.value < |m.places| && m.places[m.lock.value].Inside?)
    && (m.lock.None? ==> m.reactor.loop.CheckFuture?)
    && (forall j :: 0 <= j < |m.places| && m.places[j].Inside? ==> m.lock == Some(j))
    && forall j :: 0 <= j < |m.places| && (m.places[j].CheckingSpawn? || m.places[j].Ended?) ==> m.ready[j]
  }

  lemma StepKeepsShape(m: State, st: Step)
    requires Shape(m) && Enabled(m, st)
    ensures Shape(Apply(m, st))
  {
  }

  /** A step of the threads is a step of the protocol, or none. */
  lemma StepIsWakeup(m: State, st: Step)
    requires Shape(m) && Enabled(m, st)
    ensures Apply(m, st).reactor == m.reactor || W.Next(m.reactor, Apply(m, st).reactor)
  {
    var n := Apply(m, st);
    match st
    case Do(w) => assert n.reactor == W.Apply(m.reactor, w);
    case FinishRootOf(_, a) => assert n.reactor == W.Apply(m.reactor, W.NotifyFor(a, W.Finish));
    case TakeLock(_) => assert n.reactor == W.Apply(m.reactor, W.LoadFuture);
    case _ =>
  }

  /** Reachable states of the shared reactor are reachable in the protocol. */
  lemma ReactorIsWakeup(m: State)
    requires Reachable(m)
    ensures Shape(m) && W.Reachable(m.reactor)
  {
    var inv := (a: State) => Shape(a) && W.Reachable(a.reactor);
    forall a | Init(a) ensures inv(a) { Runs.ReachableInit(W.Init, W.Next, a.reactor); }
    forall a, b | inv(a) && Next(a, b) ensures inv(b) {
      var st :| Enabled(a, st) && b == Apply(a, st);
      StepKeepsShape(a, st);
      StepIsWakeup(a, st);
      if b.reactor != a.reactor { Runs.ReachableStep(W.Init, W.Next, a.reactor, b.reactor); }
    }
    Runs.InvariantIfReachable(Init, Next, inv, m);
  }

  /** So for any number of threads no queued timer is slept over, and a raised flag is backed. */
  lemma TimersAreSeenByAnyone(m: State)
    requires Reachable(m)
    ensures W.InsertOp in m.reactor.ops && !W.SomeoneIs(m.reactor, W.Exchanging(W.Insert)) ==> !W.Parked(m.reactor)
    ensures m.reactor.notified ==> W.WakeupComing(m.reactor) || m.reactor.loop.Rearm? || m.reactor.loop.Reset?
  {
    ReactorIsWakeup(m);
    W.ReachableInv(m.reactor);
  }

  /** Each thread leaves `block` exactly when it finds every detached task finished, its own future being ready. */
  lemma EndsExactlyWhenAllIsDone(m: State, j: nat)
    requires Reachable(m) && Enabled(m, TestSpawn(j))
    ensures j < |m.ready| && m.ready[j]
    ensures Apply(m, TestSpawn(j)).places[j].Ended? <==>
            forall id: nat :: id < m.reactor.born ==> id in m.reactor.finished
  {
    ReactorIsWakeup(m);
    W.SpawnCountIsExact(m.reactor);
    if m.reactor.live != {} {
      var id :| id in m.reactor.live;
      assert id < m.reactor.born && id !in m.reactor.finished;
    }
  }

  // ---- one thread is the loop of the protocol ----

  /** What a lone thread and the reactor are in the protocol: waiting for the free lock is about to drain. */
  ghost function Alone(m: State): W.State
    requires |m.places| == |m.ready| == 1
  {
    m.reactor.(ready := m.ready[0],
               loop := match m.places[0]
                       case Checking => W.CheckFuture
                       case CheckingSpawn => W.CheckSpawn
                       case Locking => W.Drain
                       case Inside => m.reactor.loop
                       case Ended => W.Finished)
  }

  ghost predicate OneThread(m: State) {
    Shape(m) && |m.places| == 1
  }

  lemma LoneDoIsWakeup(m: State, w: W.Step)
    requires OneThread(m) && Enabled(m, Do(w))
    ensures W.Enabled(Alone(m), w) && Alone(Apply(m, Do(w))) == W.Apply(Alone(m), w)
  {
  }

  lemma LoneStepIsWakeup(m: State, st: Step)
    requires OneThread(m) && Enabled(m, st)
    ensures OneThread(Apply(m, st)) && (Alone(Apply(m, st)) == Alone(m) || W.Next(Alone(m), Alone(Apply(m, st))))
  {
    StepKeepsShape(m, st);
    var n := Apply(m, st);
    match st
    case Do(w) => LoneDoIsWakeup(m, w);
    case FinishRootOf(_, a) => assert Alone(n) == W.Apply(Alone(m), W.FinishRoot(a));
    case TestFuture(_) => assert Alone(n) == W.Apply(Alone(m), W.LoadFuture);
    case TestSpawn(_) => assert Alone(n) == W.Apply(Alone(m), W.LoadSpawn);
    case _ => assert Alone(n) == Alone(m);
  }

  lemma LoneThreadIsWakeup(m: State)
    requires Reachable(m) && |m.places| == 1
    ensures Shape(m) && W.Reachable(Alone(m))
  {
    var inv := (a: State) => Shape(a) && (|a.places| == 1 ==> W.Reachable(Alone(a)));
    forall a | Init(a) ensures inv(a) {
      if |a.places| == 1 { Runs.ReachableInit(W.Init, W.Next, Alone(a)); }
    }
    forall a, b | inv(a) && Next(a, b) ensures inv(b) {
      var st :| Enabled(a, st) && b == Apply(a, st);
      StepKeepsShape(a, st);
      if |a.places| == 1 {
        LoneStepIsWakeup(a, st);
        if Alone(b) != Alone(a) { Runs.ReachableStep(W.Init, W.Next, Alone(a), Alone(b)); }
      }
    }
    Runs.InvariantIfReachable(Init, Next, inv, m);
  }

  // ---- two threads can miss the wakeup that is meant for one of them ----

  /** A thread with nothing left to wait for is parked in the reactor, though every notify that says so has returned. */
  ghost predicate ParkedWhenDone(m: State) {
    && W.Parked(m.reactor) && m.reactor.spawned == 0 && !W.SomeoneIs(m.reactor, W.Exchanging(W.Finish))
    && exists j :: 0 <= j < |m.places| && j < |m.ready| && m.places[j].Inside? && m.ready[j]
  }

  /** With one thread in `block` at most this cannot happen, with more it can. */
  lemma NeverParkedWhenDoneIffAlone(threads: nat)
    ensures (forall m :: Reachable(m) && |m.places| == threads ==> !ParkedWhenDone(m)) <==> threads <= 1
  {
    forall m | Reachable(m) && |m.places| == threads && threads <= 1 ensures !ParkedWhenDone(m) {
      if threads == 1 {
        LoneThreadIsWakeup(m);
        var s := Alone(m);
        assert W.SomeoneIs(s, W.Writing) <==> W.SomeoneIs(m.reactor, W.Writing);
        if W.AllDone(s) && !W.SomeoneIs(s, W.Exchanging(W.Finish)) { W.NeverParkedWhenDone(s); }
      }
    }
    if threads >= 2 {
      var m := AWakeupGoesToTheWrongThread(threads);
    }
  }

  lemma Advance(m: State, st: Step) returns (n: State)
    requires Reachable(m) && Enabled(m, st)
    ensures n == Apply(m, st) && Reachable(n)
  {
    n := Apply(m, st);
    assert Next(m, n);
    Runs.ReachableStep(Init, Next, m, n);
  }

  /** The reactor with one other thread about, quiet, and the loop at `loop`. */
  ghost function Reactor(notified: bool, counter: nat, loop: W.Loop, n: W.Notifier): W.State {
    W.State(notified, counter, true, false, 0, 0, {}, {}, [], loop, [n])
  }

  lemma AThreadEnters(threads: nat) returns (m: State)
    requires threads >= 2
    ensures Reachable(m) && m.reactor == Reactor(false, 0, W.Drain, W.Quiet) && m.lock == Some(1)
    ensures |m.places| == |m.ready| == threads && m.places[0].Checking? && m.places[1].Inside? && !m.ready[0]
  {
    m := State(Reactor(false, 0, W.CheckFuture, W.Quiet), None, seq(threads, _ => Checking), seq(threads, _ => false));
    Runs.ReachableInit(Init, Next, m);
    m := Advance(m, TestFuture(1));
    m := Advance(m, TakeLock(1));
  }

  lemma AThreadWaits(threads: nat) returns (m: State)
    requires threads >= 2
    ensures Reachable(m) && m.reactor == Reactor(false, 0, W.Wait, W.Quiet) && m.lock == Some(1)
    ensures |m.places| == |m.ready| == threads && m.places[0].Checking? && m.places[1].Inside? && !m.ready[0]
  {
    m := AThreadEnters(threads);
    m := Advance(m, Do(W.DrainOne));
    m := Advance(m, Do(W.SetTimer));
  }

  /** Thread 0 finds its future not ready and goes for the lock; then its root finishes and notifies. */
  lemma AnotherFinishes(threads: nat) returns (m: State)
    requires threads >= 2
    ensures Reachable(m) && m.reactor == Reactor(true, 1, W.Wait, W.Quiet) && m.lock == Some(1)
    ensures |m.places| == |m.ready| == threads && m.places[0].Locking? && m.places[1].Inside? && m.ready[0]
  {
    m := AThreadWaits(threads);
    m := Advance(m, TestFuture(0));
    m := Advance(m, FinishRootOf(0, 0));
    m := Advance(m, Do(W.Exchange(0)));
    m := Advance(m, Do(W.Write(0)));
  }

  lemma TheWaitingThreadReads(threads: nat) returns (m: State)
    requires threads >= 2
    ensures Reachable(m) && m.reactor == Reactor(true, 0, W.Reset, W.Quiet) && m.lock == Some(1)
    ensures |m.places| == |m.ready| == threads && m.places[0].Locking? && m.places[1].Inside? && m.ready[0]
  {
    m := AnotherFinishes(threads);
    m := Advance(m, Do(W.WaitReturns(true)));
    m := Advance(m, Do(W.ReadCounter));
    m := Advance(m, Do(W.RearmEvent));
  }

  /** Thread 1 takes the wakeup and leaves. */
  lemma TheWaitingThreadWakes(threads: nat) returns (m: State)
    requires threads >= 2
    ensures Reachable(m) && m.reactor == Reactor(false, 0, W.CheckFuture, W.Quiet) && m.lock == None
    ensures |m.places| == |m.ready| == threads && m.places[0].Locking? && m.ready[0]
  {
    m := TheWaitingThreadReads(threads);
    m := Advance(m, Do(W.ResetFlag(false)));
    m := Advance(m, LeaveReactor(1));
  }

  /** Thread 0 gets the lock and parks, with its own root finished. */
  lemma AWakeupGoesToTheWrongThread(threads: nat) returns (m: State)
    requires threads >= 2
    ensures Reachable(m) && |m.places| == threads && ParkedWhenDone(m) && m.places[0].Inside? && m.ready[0]
  {
    m := TheWaitingThreadWakes(threads);
    m := Advance(m, TakeLock(0));
    m := Advance(m, Do(W.DrainOne));
    m := Advance(m, Do(W.SetTimer));
  }

  // ---- the futures and the lock as what the threads update ----

  class Sharing {
    var mReady: seq<bool>
    var mLocked: bool
    ghost var reactor: W.State
    ghost var lock: Option<nat>
    ghost var places: seq<Place>

    ghost function View(): State
      reads this
    {
      State(reactor, lock, places, mReady)
    }

    ghost predicate Valid()
      reads this
    {
      Shape(View()) && (mLocked <==> lock.Some?)
    }

    constructor (threads: nat, ghost notifiers: nat)
      ensures Init(View()) && Valid() && |places| == threads
    {
      mReady, mLocked, lock := seq(threads, _ => false), false, None;
      places := seq(threads, _ => Checking);
      reactor := W.State(false, 0, true, false, 0, 0, {}, {}, [], W.CheckFuture, seq(notifiers, _ => W.Quiet));
    }

    /** The callback of a thread's root sets that thread's future. */
    method SetFuture(j: nat, ghost a: nat)
      requires Valid() && Enabled(View(), FinishRootOf(j, a))
      modifies `mReady, `reactor
      ensures View() == Apply(old(View()), FinishRootOf(j, a)) && Valid()
      ensures mReady == old(mReady)[j := true]
      ensures reactor.notifiers == old(reactor.notifiers)[a := W.Exchanging(W.Finish)]
    {
      StepKeepsShape(View(), FinishRootOf(j, a));
      mReady := mReady[j := true];
      reactor := W.Apply(reactor, W.NotifyFor(a, W.Finish));
    }

    method FutureIsReady(j: nat) returns (ready: bool)
      requires Valid() && Enabled(View(), TestFuture(j))
      modifies `places
      ensures View() == Apply(old(View()), TestFuture(j)) && Valid()
      ensures ready == mReady[j] && places == old(places)[j := if ready then CheckingSpawn else Locking]
    {
      StepKeepsShape(View(), TestFuture(j));
      ready := mReady[j];
      places := places[j := if ready then CheckingSpawn else Locking];
    }

    method NothingSpawned(ghost j: nat, spawned: nat) returns (leave: bool)
      requires Valid() && Enabled(View(), TestSpawn(j)) && spawned == reactor.spawned
      modifies `places
      ensures View() == Apply(old(View()), TestSpawn(j)) && Valid()
      ensures (leave <==> spawned == 0) && places == old(places)[j := if leave then Ended else Locking]
    {
      StepKeepsShape(View(), TestSpawn(j));
      leave := spawned == 0;
      places := places[j := if leave then Ended else Locking];
    }

    method Lock(ghost j: nat)
      requires Valid() && Enabled(View(), TakeLock(j))
      modifies `mLocked, `lock, `places, `reactor
      ensures View() == Apply(old(View()), TakeLock(j)) && Valid()
      ensures !old(mLocked) && mLocked && lock == Some(j) && reactor.loop == W.Drain
    {
      StepKeepsShape(View(), TakeLock(j));
      mLocked, lock, places := true, Some(j), places[j := Inside];
      reactor := reactor.(loop := W.Drain);
    }

    method Unlock(ghost j: nat)
      requires Valid() && Enabled(View(), LeaveReactor(j))
      modifies `mLocked, `lock, `places
      ensures View() == Apply(old(View()), LeaveReactor(j)) && Valid()
      ensures !mLocked && places == old(places)[j := Checking]
    {
      StepKeepsShape(View(), LeaveReactor(j));
      mLocked, lock, places := false, None, places[j := Checking];
    }
  }
}
