/** The reactor wakeup protocol: a coalescing flag over an eventfd counter, one thread looping in `block`, and any
    number of threads that change something the loop waits for and then call `notify`. One step is one atomic
    operation, one lock region or one system call. */
module Wakeup {
  import Runs

  /** Where the thread inside `block` stands. */
  datatype Loop =
    | CheckFuture
    | CheckSpawn      // saw the future ready
    | Drain           // processTimeOps, before the wait
    | Prepare         // timerfd armed with the computed timeout
    | Wait            // in epoll_wait
    | Read            // epoll_wait returned
    | Rearm           // the counter has been read
    | Reset           // about to exchange the flag to false
    | DrainAgain      // processTimeOps, after a wait without events
    | Finished

  /** Why a thread calls `notify`. */
  datatype Reason = Finish | Insert | Other

  datatype Notifier =
    | Quiet
    | Exchanging(why: Reason)   // has changed the state, about to exchange the flag to true
    | Writing                   // found the flag false, about to write the eventfd

  datatype TimerOp = InsertOp | RemoveOp

  datatype State = State(
    notified: bool,
    counter: nat,
    armed: bool,            // the one-shot registration of the eventfd
    ready: bool,            // the future of the blocked root task
    spawned: nat,           // mSpawnCount
    born: nat,              // history: detached tasks spawned so far, numbered in order
    live: set<nat>,         // history: those whose callback has not discounted them
    finished: set<nat>,     // history: those whose callback has
    ops: seq<TimerOp>,
    loop: Loop,
    notifiers: seq<Notifier>)

  datatype Step =
    | FinishRoot(a: nat)
    | FinishDetached(a: nat, id: nat)
    | InsertTimer(a: nat)
    | NotifyFor(a: nat, why: Reason)
    | RemoveTimer
    | SpawnDetach
    | Exchange(a: nat)
    | Write(a: nat)
    | LoadFuture
    | LoadSpawn
    | DrainOne
    | SetTimer
    | WaitReturns(deliver: bool)
    | Interrupted
    | ReadCounter
    | RearmEvent
    | ResetFlag(again: bool)

  ghost predicate Init(s: State) {
    && !s.notified && s.counter == 0 && s.armed && !s.ready && s.ops == [] && s.loop == CheckFuture
    && s.spawned == 0 && s.born == 0 && s.live == s.finished == {}
    && forall a :: 0 <= a < |s.notifiers| ==> s.notifiers[a] == Quiet
  }

  ghost predicate IsQuiet(s: State, a: nat) {
    a < |s.notifiers| && s.notifiers[a] == Quiet
  }

  /** `epoll_wait` may also return for timers and sources, with or without the eventfd's event among those reported. */
  ghost predicate Enabled(s: State, st: Step) {
    match st
    case FinishRoot(a) => IsQuiet(s, a) && !s.ready
    case FinishDetached(a, id) => IsQuiet(s, a) && id in s.live
    case InsertTimer(a) => IsQuiet(s, a)
    case NotifyFor(a, _) => IsQuiet(s, a)
    case RemoveTimer => true
    case SpawnDetach => true
    case Exchange(a) => a < |s.notifiers| && s.notifiers[a].Exchanging?
    case Write(a) => a < |s.notifiers| && s.notifiers[a].Writing?
    case LoadFuture => s.loop.CheckFuture?
    case LoadSpawn => s.loop.CheckSpawn?
    case DrainOne => s.loop.Drain? || s.loop.DrainAgain?
    case SetTimer => s.loop.Prepare?
    case WaitReturns(deliver) => s.loop.Wait? && (deliver ==> s.armed && s.counter > 0)
    case Interrupted => s.loop.Wait?
    case ReadCounter => s.loop.Read?
    case RearmEvent => s.loop.Rearm?
    case ResetFlag(_) => s.loop.Reset?
  }

  /** fetch_sub on the count, which is proved positive whenever that happens. */
  function Decrement(count: nat): nat { if count > 0 then count - 1 else 0 }

  ghost function SetNotifier(s: State, a: nat, n: Notifier): State
    requires a < |s.notifiers|
  {
    s.(notifiers := s.notifiers[a := n])
  }

  ghost function Apply(s: State, st: Step): State
    requires Enabled(s, st)
  {
    match st
    case FinishRoot(a) => SetNotifier(s, a, Exchanging(Finish)).(ready := true)
    case FinishDetached(a, id) =>
      SetNotifier(s, a, Exchanging(Finish)).(
        spawned := Decrement(s.spawned), live := s.live - {id}, finished := s.finished + {id})
    case InsertTimer(a) => SetNotifier(s, a, Exchanging(Insert)).(ops := s.ops + [InsertOp])
    case NotifyFor(a, why) => SetNotifier(s, a, Exchanging(why))
    case RemoveTimer => s.(ops := s.ops + [RemoveOp])
    case SpawnDetach => s.(spawned := s.spawned + 1, born := s.born + 1, live := s.live + {s.born})
    case Exchange(a) => SetNotifier(s, a, if s.notified then Quiet else Writing).(notified := true)
    case Write(a) => SetNotifier(s, a, Quiet).(counter := s.counter + 1)
    case LoadFuture => s.(loop := if s.ready then CheckSpawn else Drain)
    case LoadSpawn => s.(loop := if s.spawned == 0 then Finished else Drain)
    case DrainOne =>
      if s.ops == [] then s.(loop := if s.loop.Drain? then Prepare else CheckFuture) else s.(ops := s.ops[1..])
    case SetTimer => s.(loop := Wait)
    case WaitReturns(deliver) => s.(loop := Read, armed := s.armed && !deliver)
    case Interrupted => s.(loop := CheckFuture)
    case ReadCounter => s.(counter := 0, loop := Rearm)
    case RearmEvent => s.(armed := true, loop := Reset)
    case ResetFlag(again) => s.(notified := false, loop := if again then DrainAgain else CheckFuture)
  }

  ghost predicate Next(s: State, t: State) {
    exists st :: Enabled(s, st) && t == Apply(s, st)
  }

  ghost predicate Reachable(s: State) {
    Runs.Reachable(Init, Next, s)
  }

  // ---- the invariant ----

  ghost predicate SomeoneIs(s: State, n: Notifier) {
    exists a :: 0 <= a < |s.notifiers| && s.notifiers[a] == n
  }

  /** The eventfd is readable or is about to be written. */
  ghost predicate WakeupComing(s: State) {
    s.counter > 0 || SomeoneIs(s, Writing)
  }

  /** A raised flag stands for a coming wakeup, except while the loop is between its read and its reset. */
  ghost predicate FlagIsBacked(s: State) {
    s.notified ==> WakeupComing(s) || s.loop.Rearm? || s.loop.Reset?
  }

  ghost predicate EventIsArmed(s: State) {
    s.armed || s.loop.Read? || s.loop.Rearm?
  }

  ghost predicate AllDone(s: State) { s.ready && s.spawned == 0 }

  ghost predicate FinishIsSeen(s: State) {
    AllDone(s) && (s.loop.Drain? || s.loop.Prepare? || s.loop.Wait?) ==>
      WakeupComing(s) || SomeoneIs(s, Exchanging(Finish))
  }

  ghost predicate InsertIsSeen(s: State) {
    InsertOp in s.ops && (s.loop.Prepare? || s.loop.Wait?) ==> WakeupComing(s) || SomeoneIs(s, Exchanging(Insert))
  }

  ghost predicate TasksCounted(spawned: nat, born: nat, live: set<nat>, finished: set<nat>) {
    && spawned == |live|
    && (forall id: nat :: id in live <==> id < born && id !in finished)
    && (forall id: nat :: id in finished ==> id < born)
  }

  lemma OneMoreTask(spawned: nat, born: nat, live: set<nat>, finished: set<nat>)
    requires TasksCounted(spawned, born, live, finished)
    ensures TasksCounted(spawned + 1, born + 1, live + {born}, finished)
  {
    assert born !in live && born !in finished;
  }

  lemma OneTaskFewer(spawned: nat, born: nat, live: set<nat>, finished: set<nat>, id: nat)
    requires TasksCounted(spawned, born, live, finished) && id in live
    ensures spawned > 0 && TasksCounted(Decrement(spawned), born, live - {id}, finished + {id})
  {
    assert live == (live - {id}) + {id};
  }

  /** The spawn count is the number of live tasks, every task is live or finished, and the loop asks for the count only
      when the future is ready. */
  ghost predicate CountIsExact(s: State) {
    && TasksCounted(s.spawned, s.born, s.live, s.finished)
    && (s.loop.CheckSpawn? || s.loop.Finished? ==> s.ready)
  }

  ghost predicate Inv(s: State) {
    FlagIsBacked(s) && EventIsArmed(s) && FinishIsSeen(s) && InsertIsSeen(s) && CountIsExact(s)
  }

  /** A notifier that moves from `from` to `to` can only hide the states it leaves. */
  lemma NotifierMoves(s: State, a: nat, to: Notifier)
    requires a < |s.notifiers|
    ensures SomeoneIs(SetNotifier(s, a, to), to)
    ensures forall n :: n != s.notifiers[a] && SomeoneIs(s, n) ==> SomeoneIs(SetNotifier(s, a, to), n)
  {
    var t := SetNotifier(s, a, to);
    assert t.notifiers[a] == to;
    forall n | n != s.notifiers[a] && SomeoneIs(s, n) ensures SomeoneIs(t, n) {
      var b :| 0 <= b < |s.notifiers| && s.notifiers[b] == n;
      assert t.notifiers[b] == n;
    }
  }

  /** A finishing task discounts itself, and nothing else does. */
  lemma StepKeepsCount(s: State, st: Step)
    requires CountIsExact(s) && Enabled(s, st)
    ensures CountIsExact(Apply(s, st))
    ensures st.FinishDetached? ==> s.spawned > 0
  {
    if st.FinishDetached? {
      OneTaskFewer(s.spawned, s.born, s.live, s.finished, st.id);
    } else if st.SpawnDetach? {
      OneMoreTask(s.spawned, s.born, s.live, s.finished);
    }
  }

  ghost predicate Wakes(s: State) {
    FlagIsBacked(s) && EventIsArmed(s) && FinishIsSeen(s) && InsertIsSeen(s)
  }

  lemma NotifierStepKeepsInv(s: State, st: Step)
    requires Inv(s) && Enabled(s, st)
    requires st.FinishRoot? || st.FinishDetached? || st.InsertTimer? || st.NotifyFor? || st.Exchange? || st.Write?
    ensures Wakes(Apply(s, st))
  {
    var t := Apply(s, st);
    NotifierMoves(s, st.a, t.notifiers[st.a]);
    assert forall n :: SomeoneIs(t, n) <==> SomeoneIs(SetNotifier(s, st.a, t.notifiers[st.a]), n);
  }

  lemma LoopStepKeepsInv(s: State, st: Step)
    requires Inv(s) && Enabled(s, st)
    requires !(st.FinishRoot? || st.FinishDetached? || st.InsertTimer? || st.NotifyFor? || st.Exchange? || st.Write?)
    ensures Wakes(Apply(s, st))
  {
  }

  lemma StepKeepsInv(s: State, st: Step)
    requires Inv(s) && Enabled(s, st)
    ensures Inv(Apply(s, st))
  {
    StepKeepsCount(s, st);
    if st.FinishRoot? || st.FinishDetached? || st.InsertTimer? || st.NotifyFor? || st.Exchange? || st.Write? {
      NotifierStepKeepsInv(s, st);
    } else {
      LoopStepKeepsInv(s, st);
    }
  }

  lemma ReachableInv(s: State)
    requires Reachable(s)
    ensures Inv(s)
  {
    forall a, b | Inv(a) && Next(a, b) ensures Inv(b) {
      var st :| Enabled(a, st) && b == Apply(a, st);
      StepKeepsInv(a, st);
    }
    Runs.InvariantIfReachable(Init, Next, Inv, s);
  }

  // ---- what holds in every reachable state ----

  lemma RaisedFlagIsBacked(s: State)
    requires Reachable(s) && s.notified
    ensures s.counter > 0 || SomeoneIs(s, Writing) || s.loop.Rearm? || s.loop.Reset?
  {
    ReachableInv(s);
  }

  /** The count is the number of detached tasks spawned and not yet finished. */
  lemma SpawnCountIsExact(s: State)
    requires Reachable(s)
    ensures s.spawned == |s.live| && forall id: nat :: id in s.live <==> id < s.born && id !in s.finished
  {
    ReachableInv(s);
  }

  /** `block` ends exactly when it finds every detached task finished, and it looks only once its future is ready. */
  lemma BlockEndsExactlyWhenAllIsDone(s: State)
    requires Reachable(s) && Enabled(s, LoadSpawn)
    ensures s.ready
    ensures Apply(s, LoadSpawn).loop.Finished? <==> forall id: nat :: id < s.born ==> id in s.finished
  {
    ReachableInv(s);
    if s.live != {} {
      var id :| id in s.live;
      assert id < s.born && id !in s.finished;
    }
  }

  /** Waiting in epoll_wait with nothing the eventfd could deliver, and no write on its way. */
  ghost predicate Parked(s: State) {
    s.loop.Wait? && !(s.armed && s.counter > 0) && !SomeoneIs(s, Writing)
  }

  /** The loop is never parked once the root and every detached task are done and their notifies have returned. */
  lemma NeverParkedWhenDone(s: State)
    requires Reachable(s) && AllDone(s) && !SomeoneIs(s, Exchanging(Finish))
    ensures !Parked(s)
  {
    ReachableInv(s);
  }

  /** Nor while a timer insertion whose notify has returned is still queued. */
  lemma NeverParkedWithTimerQueued(s: State)
    requires Reachable(s) && InsertOp in s.ops && !SomeoneIs(s, Exchanging(Insert))
    ensures !Parked(s)
  {
    ReachableInv(s);
  }

  // ---- the loop on its own ----

  /** What the loop does next when only the eventfd can end the wait. */
  ghost function LoopChoice(l: Loop): Step
    requires !l.Finished?
  {
    match l
    case CheckFuture => LoadFuture
    case CheckSpawn => LoadSpawn
    case Drain => DrainOne
    case DrainAgain => DrainOne
    case Prepare => SetTimer
    case Wait => WaitReturns(true)
    case Read => ReadCounter
    case Rearm => RearmEvent
    case Reset => ResetFlag(false)
  }

  /** The loop's next step when nobody else moves; a parked loop stays put. */
  ghost function LoopStep(s: State): State {
    if !s.loop.Finished? && Enabled(s, LoopChoice(s.loop)) then Apply(s, LoopChoice(s.loop)) else s
  }

  ghost function LoopRun(s: State, n: nat): State
    decreases n
  {
    if n == 0 then s else LoopRun(LoopStep(s), n - 1)
  }

  /** Every notify for that reason has returned, and no thread is about to write the eventfd. */
  ghost predicate Settled(s: State, why: Reason) {
    !SomeoneIs(s, Exchanging(why)) && !SomeoneIs(s, Writing)
  }

  /** How far the loop is from reading the future again, counting drained operations. */
  ghost function Distance(s: State): nat {
    |s.ops| + match s.loop
              case Drain => 8
              case Prepare => 7
              case Wait => 6
              case Read => 5
              case Rearm => 4
              case Reset => 3
              case DrainAgain => 3
              case CheckFuture => 2
              case CheckSpawn => 1
              case Finished => 0
  }

  lemma LoopStepKeepsSettled(s: State, why: Reason)
    requires Inv(s) && Settled(s, why)
    ensures Inv(LoopStep(s)) && Settled(LoopStep(s), why) && AllDone(LoopStep(s)) == AllDone(s)
  {
    if !s.loop.Finished? && Enabled(s, LoopChoice(s.loop)) {
      StepKeepsInv(s, LoopChoice(s.loop));
    }
  }

  lemma {:induction false} LoopReachesEnd(s: State) returns (n: nat)
    requires Inv(s) && Settled(s, Finish) && AllDone(s)
    ensures LoopRun(s, n).loop == Finished
    decreases Distance(s)
  {
    if s.loop.Finished? {
      n := 0;
    } else {
      LoopStepKeepsSettled(s, Finish);
      n := LoopReachesEnd(LoopStep(s));
      n := n + 1;
    }
  }

  /** Once everything is done and the notifies that say so have returned, `block` ends by its own steps: no further
      wakeup, timer or event is needed, wherever in its loop it stands. */
  lemma BlockEndsByItself(s: State)
    requires Reachable(s) && Settled(s, Finish) && AllDone(s)
    ensures exists n :: LoopRun(s, n).loop == Finished
  {
    ReachableInv(s);
    var n := LoopReachesEnd(s);
  }

  /** How far the loop is from draining. */
  ghost function DistanceToDrain(l: Loop): nat {
    match l
    case Prepare => 8
    case Wait => 7
    case Read => 6
    case Rearm => 5
    case Reset => 4
    case CheckFuture => 3
    case CheckSpawn => 2
    case _ => 1
  }

  /** A queued insertion whose notify has returned is drained by the loop's own steps, unless `block` ends first. */
  lemma {:induction false} LoopDrainsTimers(s: State) returns (n: nat)
    requires Inv(s) && Settled(s, Insert) && (InsertOp in s.ops || DistanceToDrain(s.loop) <= 3)
    ensures LoopRun(s, n).loop == Finished || LoopRun(s, n).ops == []
    decreases DistanceToDrain(s.loop), |s.ops|
  {
    if s.loop.Finished? || s.ops == [] {
      n := 0;
    } else {
      LoopStepKeepsSettled(s, Insert);
      n := LoopDrainsTimers(LoopStep(s));
      n := n + 1;
    }
  }

  lemma QueuedTimerIsDrained(s: State)
    requires Reachable(s) && Settled(s, Insert) && InsertOp in s.ops
    ensures exists n :: LoopRun(s, n).loop == Finished || LoopRun(s, n).ops == []
  {
    ReachableInv(s);
    var n := LoopDrainsTimers(s);
  }

  // ---- the flag, the counter and the loop as fields that threads update ----

  class Blocking {
    var mNotified: bool
    var mEventCounter: nat
    var mEventArmed: bool
    var mReady: bool
    var mSpawnCount: nat
    var mTimerOps: seq<TimerOp>
    ghost var born: nat
    ghost var live: set<nat>
    ghost var finished: set<nat>
    ghost var loop: Loop
    ghost var notifiers: seq<Notifier>

    ghost function View(): State
      reads this
    {
      State(mNotified, mEventCounter, mEventArmed, mReady, mSpawnCount, born, live, finished, mTimerOps, loop,
            notifiers)
    }

    constructor (ghost threads: nat)
      ensures Init(View()) && Inv(View()) && |notifiers| == threads
    {
      mNotified, mEventCounter, mEventArmed, mReady, mSpawnCount, mTimerOps := false, 0, true, false, 0, [];
      born, live, finished := 0, {}, {};
      loop, notifiers := CheckFuture, seq(threads, _ => Quiet);
    }

    /** The root's callback sets the future. */
    method SetValue(ghost a: nat)
      requires Inv(View()) && Enabled(View(), FinishRoot(a))
      modifies `mReady, `notifiers
      ensures View() == Apply(old(View()), FinishRoot(a)) && Inv(View()) && mReady
    {
      StepKeepsInv(View(), FinishRoot(a));
      mReady := true;
      notifiers := notifiers[a := Exchanging(Finish)];
    }

    /** A detached task's callback discounts it. */
    method DiscountSpawn(ghost a: nat, ghost id: nat)
      requires Inv(View()) && Enabled(View(), FinishDetached(a, id))
      modifies `mSpawnCount, `live, `finished, `notifiers
      ensures View() == Apply(old(View()), FinishDetached(a, id)) && Inv(View())
      ensures mSpawnCount == old(mSpawnCount) - 1 && finished == old(finished) + {id}
    {
      ghost var before := View();
      StepKeepsInv(before, FinishDetached(a, id));
      StepKeepsCount(before, FinishDetached(a, id));
      mSpawnCount := mSpawnCount - 1;
      live, finished := live - {id}, finished + {id};
      notifiers := notifiers[a := Exchanging(Finish)];
    }

    /** `spawnDetach` counts the task. */
    method CountSpawn()
      requires Inv(View())
      modifies `mSpawnCount, `born, `live
      ensures View() == Apply(old(View()), SpawnDetach) && Inv(View())
      ensures mSpawnCount == old(mSpawnCount) + 1 && born == old(born) + 1
    {
      StepKeepsInv(View(), SpawnDetach);
      mSpawnCount := mSpawnCount + 1;
      born, live := born + 1, live + {born};
    }

    method QueueInsert(ghost a: nat)
      requires Inv(View()) && Enabled(View(), InsertTimer(a))
      modifies `mTimerOps, `notifiers
      ensures View() == Apply(old(View()), InsertTimer(a)) && Inv(View())
      ensures mTimerOps == old(mTimerOps) + [InsertOp]
    {
      StepKeepsInv(View(), InsertTimer(a));
      mTimerOps := mTimerOps + [InsertOp];
      notifiers := notifiers[a := Exchanging(Insert)];
    }

    /** A removal is queued and nobody notified. */
    method QueueRemove()
      requires Inv(View())
      modifies `mTimerOps
      ensures View() == Apply(old(View()), RemoveTimer) && Inv(View())
      ensures mTimerOps == old(mTimerOps) + [RemoveOp]
    {
      StepKeepsInv(View(), RemoveTimer);
      mTimerOps := mTimerOps + [RemoveOp];
    }

    /** The exchange in `notify`: only the thread that raises the flag goes on to write. */
    /** A notify from elsewhere is entered; nothing else happens yet. */
    method BeginNotify(ghost a: nat, ghost why: Reason)
      requires Inv(View()) && Enabled(View(), NotifyFor(a, why))
      modifies `notifiers
      ensures View() == Apply(old(View()), NotifyFor(a, why)) && Inv(View())
      ensures notifiers == old(notifiers)[a := Exchanging(why)]
    {
      StepKeepsInv(View(), NotifyFor(a, why));
      notifiers := notifiers[a := Exchanging(why)];
    }

    method RaiseFlag(ghost a: nat) returns (mustWrite: bool)
      requires Inv(View()) && Enabled(View(), Exchange(a))
      modifies `mNotified, `notifiers
      ensures View() == Apply(old(View()), Exchange(a)) && Inv(View())
      ensures mNotified && (mustWrite <==> !old(mNotified)) && (mustWrite <==> notifiers[a] == Writing)
    {
      StepKeepsInv(View(), Exchange(a));
      mustWrite := !mNotified;
      mNotified := true;
      notifiers := notifiers[a := if mustWrite then Writing else Quiet];
    }

    method WriteEvent(ghost a: nat)
      requires Inv(View()) && Enabled(View(), Write(a))
      modifies `mEventCounter, `notifiers
      ensures View() == Apply(old(View()), Write(a)) && Inv(View())
      ensures mEventCounter == old(mEventCounter) + 1
    {
      StepKeepsInv(View(), Write(a));
      mEventCounter := mEventCounter + 1;
      notifiers := notifiers[a := Quiet];
    }

    method FutureIsReady() returns (ready: bool)
      requires Inv(View()) && loop == CheckFuture
      modifies `loop
      ensures View() == Apply(old(View()), LoadFuture) && Inv(View())
      ensures ready == mReady && loop == if ready then CheckSpawn else Drain
    {
      StepKeepsInv(View(), LoadFuture);
      ready := mReady;
      loop := if ready then CheckSpawn else Drain;
    }

    method NothingSpawned() returns (leave: bool)
      requires Inv(View()) && loop == CheckSpawn
      modifies `loop
      ensures View() == Apply(old(View()), LoadSpawn) && Inv(View())
      ensures loop == (if leave then Finished else Drain) && (leave <==> mSpawnCount == 0)
    {
      StepKeepsInv(View(), LoadSpawn);
      leave := mSpawnCount == 0;
      loop := if leave then Finished else Drain;
    }

    method PopTimerOp() returns (more: bool)
      requires Inv(View()) && Enabled(View(), DrainOne)
      modifies `mTimerOps, `loop
      ensures View() == Apply(old(View()), DrainOne) && Inv(View())
      ensures (more <==> old(mTimerOps) != []) && mTimerOps == if more then old(mTimerOps)[1..] else []
      ensures loop == if more then old(loop) else if old(loop).Drain? then Prepare else CheckFuture
    {
      StepKeepsInv(View(), DrainOne);
      more := mTimerOps != [];
      if more {
        mTimerOps := mTimerOps[1..];
      } else {
        loop := if loop.Drain? then Prepare else CheckFuture;
      }
    }

    /** epoll_wait returning; reporting the eventfd uses up its one-shot registration. */
    /** The timerfd is set before the wait. */
    method SetTimerFd()
      requires Inv(View()) && loop == Prepare
      modifies `loop
      ensures View() == Apply(old(View()), SetTimer) && Inv(View()) && loop == Wait
    {
      StepKeepsInv(View(), SetTimer);
      loop := Wait;
    }

    /** A wait that a signal interrupts leaves flag, counter and registration alone. */
    method WaitFails()
      requires Inv(View()) && loop == Wait
      modifies `loop
      ensures View() == Apply(old(View()), Interrupted) && Inv(View()) && loop == CheckFuture
    {
      StepKeepsInv(View(), Interrupted);
      loop := CheckFuture;
    }

    method EpollReturns(deliver: bool)
      requires Inv(View()) && Enabled(View(), WaitReturns(deliver))
      modifies `mEventArmed, `loop
      ensures View() == Apply(old(View()), WaitReturns(deliver)) && Inv(View())
      ensures mEventArmed == (old(mEventArmed) && !deliver) && loop == Read
    {
      StepKeepsInv(View(), WaitReturns(deliver));
      mEventArmed := mEventArmed && !deliver;
      loop := Read;
    }

    method ReadEvent()
      requires Inv(View()) && loop == Read
      modifies `mEventCounter, `loop
      ensures View() == Apply(old(View()), ReadCounter) && Inv(View()) && mEventCounter == 0 && loop == Rearm
    {
      StepKeepsInv(View(), ReadCounter);
      mEventCounter := 0;
      loop := Rearm;
    }

    method RearmEventFd()
      requires Inv(View()) && loop == Rearm
      modifies `mEventArmed, `loop
      ensures View() == Apply(old(View()), RearmEvent) && Inv(View()) && mEventArmed && loop == Reset
    {
      StepKeepsInv(View(), RearmEvent);
      mEventArmed := true;
      loop := Reset;
    }

    method LowerFlag(again: bool)
      requires Inv(View()) && loop == Reset
      modifies `mNotified, `loop
      ensures View() == Apply(old(View()), ResetFlag(again)) && Inv(View()) && !mNotified
      ensures loop == if again then DrainAgain else CheckFuture
    {
      StepKeepsInv(View(), ResetFlag(again));
      mNotified := false;
      loop := if again then DrainAgain else CheckFuture;
    }
  }
}
