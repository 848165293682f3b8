/** The asynchronous mutex: an atomic flag, a queue of suspended coroutines, and a hand-off on unlock. Any number of
    coroutines use it around a shared counter; one step is one atomic operation, one locked queue operation, one
    resumption or one access to the counter. */
module AsyncMutex {
  import opened Sums
  import Runs

  type Id = nat

  datatype Phase = Entered | HasRead(v: int) | HasWritten

  /** Where a coroutine stands. `expected` is the local variable its failed compare-exchange overwrote. */
  datatype Co =
    | Outside
    | Parking(expected: bool)     // lost the first compare-exchange, about to push itself
    | Parked(expected: bool)
    | Woken(expected: bool)       // handed to the executor, about to compare-exchange again
    | Holding(phase: Phase)
    | HandingTo(next: Id)         // in unlock, popped a waiter
    | Clearing                    // in unlock, saw the queue empty, about to store false
    | Failed                      // the assertion in lock did not hold

  datatype State = State(
    locked: bool,
    pending: seq<Id>,
    cos: seq<Co>,
    data: int,
    sections: nat,          // history: increments completed
    pushes: seq<Id>,        // history: coroutines in the order they queued
    handed: seq<Id>,        // history: the waiter popped and not yet past its second compare-exchange
    acquired: seq<Id>)      // history: waiters in the order they got the lock

  datatype Step =
    | Lock(c: Id)
    | TryLock(c: Id)
    | Push(c: Id)
    | Resume(c: Id)
    | Read(c: Id)
    | Write(c: Id)
    | UnlockPop(c: Id)
    | Execute(c: Id)
    | Clear(c: Id)

  /** compare_exchange_strong to true: on failure the expected value becomes the one found. */
  function CompareExchange(locked: bool, expected: bool): (bool, bool, bool) {
    if locked == expected then (true, true, expected) else (false, locked, locked)
  }

  ghost predicate Init(s: State) {
    && !s.locked && s.pending == s.pushes == s.handed == s.acquired == [] && s.data == 0 && s.sections == 0
    && forall c :: 0 <= c < |s.cos| ==> s.cos[c] == Outside
  }

  /** Only a holder unlocks: callers must see to that themselves. */
  ghost predicate Enabled(s: State, st: Step) {
    && st.c < |s.cos|
    && var co := s.cos[st.c];
       match st
       case Lock(_) => co.Outside?
       case TryLock(_) => co.Outside?
       case Push(_) => co.Parking?
       case Resume(_) => co.Woken?
       case Read(_) => co.Holding? && co.phase.Entered?
       case Write(_) => co.Holding? && co.phase.HasRead?
       case UnlockPop(_) => co.Holding?
       case Execute(_) => co.HandingTo? && co.next < |s.cos| && s.cos[co.next].Parked? && co.next != st.c
       case Clear(_) => co.Clearing?
  }

  ghost function Set(s: State, c: Id, co: Co): State
    requires c < |s.cos|
  {
    s.(cos := s.cos[c := co])
  }

  ghost function Apply(s: State, st: Step): State
    requires Enabled(s, st)
  {
    var c, co := st.c, s.cos[st.c];
    match st
    case Lock(_) =>
      var (ok, now, expected) := CompareExchange(s.locked, false);
      Set(s, c, if ok then Holding(Entered) else Parking(expected)).(locked := now)
    case TryLock(_) =>
      var (ok, now, _) := CompareExchange(s.locked, false);
      Set(s, c, if ok then Holding(Entered) else Outside).(locked := now)
    case Push(_) => Set(s, c, Parked(co.expected)).(pending := s.pending + [c], pushes := s.pushes + [c])
    case Resume(_) =>
      var (ok, now, _) := CompareExchange(s.locked, co.expected);
      if ok then Set(s, c, Holding(Entered)).(locked := now, handed := [], acquired := s.acquired + [c])
      else Set(s, c, Failed).(locked := now)
    case Read(_) => Set(s, c, Holding(HasRead(s.data)))
    case Write(_) => Set(s, c, Holding(HasWritten)).(data := co.phase.v + 1, sections := s.sections + 1)
    case UnlockPop(_) =>
      if s.pending == [] then Set(s, c, Clearing)
      else Set(s, c, HandingTo(s.pending[0])).(pending := s.pending[1..], handed := [s.pending[0]])
    case Execute(_) => Set(Set(s, c, Outside), co.next, Woken(s.cos[co.next].expected))
    case Clear(_) => Set(s, c, Outside).(locked := false)
  }

  ghost predicate Next(s: State, t: State) {
    exists st :: Enabled(s, st) && t == Apply(s, st)
  }

  ghost predicate Reachable(s: State) {
    Runs.Reachable(Init, Next, s)
  }

  // ---- the invariant ----

  /** The right to the lock: held, being handed over, or being given up. */
  function Token(co: Co): nat {
    if co.Holding? || co.Woken? || co.HandingTo? || co.Clearing? then 1 else 0
  }

  /** The flag is up exactly while one token exists, and there is never a second one. */
  ghost predicate OneToken(s: State) {
    Total(Token, s.cos) == if s.locked then 1 else 0
  }

  ghost predicate InTransit(s: State, h: Id) {
    h < |s.cos| && (s.cos[h].Woken? || (s.cos[h].Parked? && exists d :: 0 <= d < |s.cos| && s.cos[d] == HandingTo(h)))
  }

  /** Waiters in the queue are parked; a waiter that left it is the one being handed the lock. */
  ghost predicate QueueFits(s: State) {
    && (forall i, j :: 0 <= i < j < |s.pending| ==> s.pending[i] != s.pending[j])
    && (forall c :: c in s.pending ==> c < |s.cos| && s.cos[c].Parked? && c !in s.handed)
    && (forall c :: 0 <= c < |s.cos| ==> match s.cos[c]
          case Parked(e) => e && (c in s.pending || c in s.handed)
          case Parking(e) => e
          case Woken(e) => e && s.handed == [c]
          case HandingTo(n) => s.handed == [n] && n < |s.cos| && s.cos[n].Parked? && n != c
          case Failed => false
          case _ => true)
    && |s.handed| <= 1
    && (forall h :: h in s.handed ==> InTransit(s, h))
  }

  ghost predicate InOrder(s: State) {
    s.pushes == s.acquired + s.handed + s.pending
  }

  ghost predicate NoLostUpdate(s: State) {
    && s.data == s.sections
    && forall c :: 0 <= c < |s.cos| && s.cos[c].Holding? && s.cos[c].phase.HasRead? ==> s.cos[c].phase.v == s.data
  }

  ghost predicate Inv(s: State) {
    OneToken(s) && QueueFits(s) && InOrder(s) && NoLostUpdate(s)
  }

  lemma OnlyOneToken(s: State, a: Id, b: Id)
    requires OneToken(s) && a < |s.cos| && b < |s.cos| && Token(s.cos[a]) == 1 && Token(s.cos[b]) == 1
    ensures a == b && s.locked
  {
    TotalAtLeast(Token, s.cos, a);
    if a < b { TotalOfTwo(Token, s.cos, a, b); }
    if b < a { TotalOfTwo(Token, s.cos, b, a); }
  }

  lemma ATokenMeansLocked(s: State, c: Id)
    requires OneToken(s) && c < |s.cos| && Token(s.cos[c]) == 1
    ensures s.locked && forall d :: 0 <= d < |s.cos| && d != c ==> Token(s.cos[d]) == 0
  {
    TotalAtLeast(Token, s.cos, c);
    forall d | 0 <= d < |s.cos| && d != c ensures Token(s.cos[d]) == 0 {
      if Token(s.cos[d]) == 1 { OnlyOneToken(s, c, d); }
    }
  }

  lemma NoTokenWhenUnlocked(s: State)
    requires OneToken(s) && !s.locked
    ensures forall c :: 0 <= c < |s.cos| ==> Token(s.cos[c]) == 0
  {
    forall c | 0 <= c < |s.cos| ensures Token(s.cos[c]) == 0 { TotalAtLeast(Token, s.cos, c); }
  }

  lemma StepKeepsToken(s: State, st: Step)
    requires Inv(s) && Enabled(s, st)
    ensures OneToken(Apply(s, st))
  {
    var co := s.cos[st.c];
    if Token(co) == 1 { ATokenMeansLocked(s, st.c); }
    match st
    case Execute(c) =>
      TotalUpdate(Token, s.cos, c, Outside);
      TotalUpdate(Token, s.cos[c := Outside], co.next, Woken(s.cos[co.next].expected));
    case _ => TotalUpdate(Token, s.cos, st.c, Apply(s, st).cos[st.c]);
  }

  /** While some coroutine holds the lock or is clearing it, nothing is in transit. */
  lemma NothingInTransit(s: State, c: Id)
    requires Inv(s) && c < |s.cos| && (s.cos[c].Holding? || s.cos[c].Clearing?)
    ensures s.handed == []
  {
    if s.handed != [] {
      var h := s.handed[0];
      assert h in s.handed && InTransit(s, h);
      ATokenMeansLocked(s, c);
    }
  }

  lemma StepKeepsQueue(s: State, st: Step)
    requires Inv(s) && Enabled(s, st)
    ensures QueueFits(Apply(s, st)) && InOrder(Apply(s, st))
  {
    match st
    case UnlockPop(c) => NothingInTransit(s, c); PopKeepsQueue(s, c);
    case Execute(c) => ATokenMeansLocked(s, c); ExecuteKeepsQueue(s, c);
    case Resume(c) => ATokenMeansLocked(s, c); ResumeKeepsQueue(s, c);
    case Push(c) => PushKeepsQueue(s, c);
    case Clear(c) => NothingInTransit(s, c); OtherKeepsQueue(s, st);
    case _ => OtherKeepsQueue(s, st);
  }

  lemma TailHasTheRest(ids: seq<Id>)
    requires ids != [] && forall i, j :: 0 <= i < j < |ids| ==> ids[i] != ids[j]
    ensures ids == [ids[0]] + ids[1..]
    ensures forall k :: k in ids[1..] <==> k in ids && k != ids[0]
    ensures forall i, j :: 0 <= i < j < |ids[1..]| ==> ids[1..][i] != ids[1..][j]
  {
    assert forall i :: 1 <= i < |ids| ==> ids[1..][i - 1] == ids[i];
  }

  lemma PopKeepsQueue(s: State, c: Id)
    requires QueueFits(s) && InOrder(s) && Enabled(s, UnlockPop(c)) && s.handed == []
    ensures QueueFits(Apply(s, UnlockPop(c))) && InOrder(Apply(s, UnlockPop(c)))
  {
    if s.pending != [] {
      TailHasTheRest(s.pending);
      HeadIsHanded(s, Apply(s, UnlockPop(c)), c, s.pending[0]);
    }
  }

  /** The head of the queue, moved into `c`'s hands, is in transit; nothing else has changed for anybody. */
  lemma HeadIsHanded(s: State, t: State, c: Id, h: Id)
    requires QueueFits(s) && s.handed == [] && c < |s.cos| && s.cos[c].Holding? && h in s.pending
    requires t.cos == s.cos[c := HandingTo(h)] && t.handed == [h]
    requires forall k :: k in t.pending <==> k in s.pending && k != h
    requires forall i, j :: 0 <= i < j < |t.pending| ==> t.pending[i] != t.pending[j]
    ensures QueueFits(t)
  {
    assert t.cos[c] == HandingTo(h) && t.cos[h] == s.cos[h];
    assert InTransit(t, h);
  }

  lemma ExecuteKeepsQueue(s: State, c: Id)
    requires QueueFits(s) && InOrder(s) && Enabled(s, Execute(c))
    requires forall d :: 0 <= d < |s.cos| && d != c ==> Token(s.cos[d]) == 0
    ensures QueueFits(Apply(s, Execute(c))) && InOrder(Apply(s, Execute(c)))
  {
  }

  lemma ResumeKeepsQueue(s: State, c: Id)
    requires QueueFits(s) && InOrder(s) && Enabled(s, Resume(c)) && s.locked
    requires forall d :: 0 <= d < |s.cos| && d != c ==> Token(s.cos[d]) == 0
    ensures QueueFits(Apply(s, Resume(c))) && InOrder(Apply(s, Resume(c)))
  {
  }

  lemma PushKeepsQueue(s: State, c: Id)
    requires QueueFits(s) && InOrder(s) && Enabled(s, Push(c))
    ensures QueueFits(Apply(s, Push(c))) && InOrder(Apply(s, Push(c)))
  {
    var t := Apply(s, Push(c));
    forall h | h in t.handed ensures InTransit(t, h) {
      assert InTransit(s, h);
      if s.cos[h].Parked? {
        var d :| 0 <= d < |s.cos| && s.cos[d] == HandingTo(h);
        assert t.cos[d] == HandingTo(h);
      }
    }
  }

  lemma OtherKeepsQueue(s: State, st: Step)
    requires QueueFits(s) && InOrder(s) && Enabled(s, st)
    requires st.Lock? || st.TryLock? || st.Read? || st.Write? || (st.Clear? && s.handed == [])
    ensures QueueFits(Apply(s, st)) && InOrder(Apply(s, st))
  {
    var t := Apply(s, st);
    forall h | h in t.handed ensures InTransit(t, h) {
      assert InTransit(s, h);
      if s.cos[h].Parked? {
        var d :| 0 <= d < |s.cos| && s.cos[d] == HandingTo(h);
        assert t.cos[d] == HandingTo(h);
      }
    }
  }

  lemma StepKeepsData(s: State, st: Step)
    requires Inv(s) && Enabled(s, st)
    ensures NoLostUpdate(Apply(s, st))
  {
    if Token(s.cos[st.c]) == 1 { ATokenMeansLocked(s, st.c); }
  }

  lemma StepKeepsInv(s: State, st: Step)
    requires Inv(s) && Enabled(s, st)
    ensures Inv(Apply(s, st))
  {
    StepKeepsToken(s, st);
    StepKeepsQueue(s, st);
    StepKeepsData(s, st);
  }

  lemma InitEstablishes(s: State)
    requires Init(s)
    ensures Inv(s)
  {
    TotalZero(Token, s.cos);
  }

  lemma ReachableInv(s: State)
    requires Reachable(s)
    ensures Inv(s)
  {
    forall a | Init(a) ensures Inv(a) { InitEstablishes(a); }
    forall a, b | Inv(a) && Next(a, b) ensures Inv(b) {
      var st :| Enabled(a, st) && b == Apply(a, st);
      StepKeepsInv(a, st);
    }
    Runs.InvariantIfReachable(Init, Next, Inv, s);
  }

  // ---- what holds in every reachable state ----

  /** Mutual exclusion. */
  lemma AtMostOneHolder(s: State, a: Id, b: Id)
    requires Reachable(s) && a < |s.cos| && b < |s.cos| && s.cos[a].Holding? && s.cos[b].Holding?
    ensures a == b && s.locked
  {
    ReachableInv(s);
    OnlyOneToken(s, a, b);
  }

  /** The flag is up exactly while a token exists: a holder, a hand-off under way, or an unlocker yet to store false. */
  lemma LockedIffToken(s: State)
    requires Reachable(s)
    ensures s.locked <==> exists c :: 0 <= c < |s.cos| && Token(s.cos[c]) == 1
  {
    ReachableInv(s);
    if s.locked {
      var c := TotalPositive(Token, s.cos);
      assert Token(s.cos[c]) == 1;
    } else {
      NoTokenWhenUnlocked(s);
    }
  }

  /** Locking succeeds on the spot exactly when the lock is not held, not being handed over and not being given up;
      otherwise `try_lock` gives up and `lock` goes on to queue its caller. */
  lemma EntersIffFree(s: State, c: Id)
    requires Reachable(s) && c < |s.cos| && s.cos[c].Outside?
    ensures var free := forall d :: 0 <= d < |s.cos| ==> Token(s.cos[d]) == 0;
      && Apply(s, Lock(c)).cos[c] == (if free then Holding(Entered) else Parking(true))
      && Apply(s, TryLock(c)).cos[c] == (if free then Holding(Entered) else Outside)
  {
    LockedIffToken(s);
  }

  /** A resumed waiter's second compare-exchange always succeeds: its expected value is already true. */
  lemma SecondCompareExchangeSucceeds(s: State, c: Id)
    requires Reachable(s) && Enabled(s, Resume(c))
    ensures s.cos[c].expected && CompareExchange(s.locked, s.cos[c].expected).0
    ensures Apply(s, Resume(c)).cos[c].Holding?
  {
    ReachableInv(s);
    ATokenMeansLocked(s, c);
  }

  lemma AssertionNeverFails(s: State, c: Id)
    requires Reachable(s) && c < |s.cos|
    ensures s.cos[c] != Failed
  {
    ReachableInv(s);
  }

  /** An unlocker that has popped a waiter finds it parked, so the hand-over cannot be blocked. */
  lemma HandOffIsNeverBlocked(s: State, c: Id)
    requires Reachable(s) && c < |s.cos| && s.cos[c].HandingTo?
    ensures Enabled(s, Execute(c)) && Apply(s, Execute(c)).cos[s.cos[c].next].Woken?
  {
    ReachableInv(s);
  }

  /** Read-modify-write sections under the lock never lose an update. */
  lemma CountIsExact(s: State)
    requires Reachable(s)
    ensures s.data == s.sections
  {
    ReachableInv(s);
  }

  /** Waiters get the lock in the order they queued, each exactly once; at most one is between queue and lock. */
  lemma GrantedInOrderOfArrival(s: State)
    requires Reachable(s)
    ensures s.pushes == s.acquired + s.handed + s.pending && |s.handed| <= 1
    ensures forall c :: 0 <= c < |s.cos| && s.cos[c].Parked? ==>
      c in s.pending || exists d :: 0 <= d < |s.cos| && s.cos[d] == HandingTo(c)
  {
    ReachableInv(s);
    forall c | 0 <= c < |s.cos| && s.cos[c].Parked? && c !in s.pending
      ensures exists d :: 0 <= d < |s.cos| && s.cos[d] == HandingTo(c)
    {
      assert InTransit(s, c);
    }
  }

  // ---- waiters left behind ----

  /** A step of those already under way: nobody new comes to the lock. */
  ghost predicate NextWithoutNewcomers(s: State, t: State) {
    exists st: Step :: !st.Lock? && !st.TryLock? && Enabled(s, st) && t == Apply(s, st)
  }

  /** Without newcomers the waiter queued longest can still come to hold the lock. */
  ghost predicate CanBeGranted(s: State) {
    && s.pending != []
    && exists t :: Runs.Leads(NextWithoutNewcomers, s, t) && s.pending[0] < |t.cos| && t.cos[s.pending[0]].Holding?
  }

  /** A waiter is queued, and whatever those under way do, it stays there. */
  ghost predicate Stranded(s: State) {
    s.pending != [] && !CanBeGranted(s)
  }

  /** Holds the lock or is on the way to it; will unlock, and look at the queue, after any state it is in now. */
  ghost predicate WillPop(co: Co) {
    co.Holding? || co.HandingTo? || co.Woken?
  }

  ghost predicate SomeoneWillPop(s: State) {
    exists c :: 0 <= c < |s.cos| && WillPop(s.cos[c])
  }

  ghost predicate BeingCleared(s: State) {
    exists c :: 0 <= c < |s.cos| && s.cos[c].Clearing?
  }

  lemma WillPopIffHeld(s: State)
    requires Inv(s)
    ensures SomeoneWillPop(s) <==> s.locked && !BeingCleared(s)
  {
    if s.locked {
      var c := TotalPositive(Token, s.cos);
      ATokenMeansLocked(s, c);
    } else {
      NoTokenWhenUnlocked(s);
    }
  }

  lemma GoOn(s: State, t: State, st: Step) returns (u: State)
    requires Runs.Leads(NextWithoutNewcomers, s, t) && Inv(t) && Enabled(t, st) && !st.Lock? && !st.TryLock?
    ensures u == Apply(t, st) && Inv(u) && Runs.Leads(NextWithoutNewcomers, s, u)
  {
    u := Apply(t, st);
    StepKeepsInv(t, st);
    assert NextWithoutNewcomers(t, u);
    Runs.LeadsStep(NextWithoutNewcomers, s, t, u);
  }

  /** Whoever has popped a waiter, or was popped, lets the run go on to a state with a holder and the same queue. */
  lemma ComesToBeHeld(s: State) returns (t: State, c: Id)
    requires Inv(s) && SomeoneWillPop(s)
    ensures Runs.Leads(NextWithoutNewcomers, s, t) && Inv(t) && t.pending == s.pending
    ensures c < |t.cos| && t.cos[c].Holding?
  {
    c :| c < |s.cos| && WillPop(s.cos[c]);
    t := s;
    Runs.LeadsNowhere(NextWithoutNewcomers, s);
    if t.cos[c].HandingTo? {
      var next := t.cos[c].next;
      t := GoOn(s, t, Execute(c));
      c := next;
    }
    if t.cos[c].Woken? {
      ATokenMeansLocked(t, c);
      t := GoOn(s, t, Resume(c));
    }
  }

  /** A holder that unlocks hands the lock to the waiter queued longest. */
  lemma HandsOver(s: State, t: State, c: Id) returns (u: State)
    requires Runs.Leads(NextWithoutNewcomers, s, t) && Inv(t)
    requires c < |t.cos| && t.cos[c].Holding? && t.pending != []
    ensures Runs.Leads(NextWithoutNewcomers, s, u) && t.pending[0] < |u.cos| && u.cos[t.pending[0]].Holding?
  {
    u := GoOn(s, t, UnlockPop(c));
    assert u.cos[c] == HandingTo(t.pending[0]);
    u := GoOn(s, u, Execute(c));
    ATokenMeansLocked(u, t.pending[0]);
    u := GoOn(s, u, Resume(t.pending[0]));
  }

  /** Without newcomers, once nobody will pop again nobody ever will. */
  lemma NobodyWillPopAgain(s: State, t: State)
    requires Runs.Leads(NextWithoutNewcomers, s, t) && !SomeoneWillPop(s)
    ensures !SomeoneWillPop(t)
  {
    var idle := (a: State) => !SomeoneWillPop(a);
    forall a, b | idle(a) && NextWithoutNewcomers(a, b) ensures idle(b) {
      var st: Step :| !st.Lock? && !st.TryLock? && Enabled(a, st) && b == Apply(a, st);
      forall c | 0 <= c < |b.cos| ensures !WillPop(b.cos[c]) { assert !WillPop(a.cos[c]); }
    }
    Runs.KeptIfLeads(NextWithoutNewcomers, idle, s, t);
  }

  /** The waiter queued longest can be granted the lock by those under way if and only if the flag is up and nobody is
      about to clear it. */
  lemma GrantableIffHeld(s: State)
    requires Reachable(s) && s.pending != []
    ensures CanBeGranted(s) <==> s.locked && !BeingCleared(s)
  {
    ReachableInv(s);
    WillPopIffHeld(s);
    if SomeoneWillPop(s) {
      var t, c := ComesToBeHeld(s);
      var u := HandsOver(s, t, c);
    } else {
      forall t | Runs.Leads(NextWithoutNewcomers, s, t) ensures !SomeoneWillPop(t) { NobodyWillPopAgain(s, t); }
    }
  }

  /** The one step that strands a waiter is its own: queuing when the lock it lost to is free again, or when its holder
      has already found the queue empty and not yet stored false. */
  lemma StepStrandsIff(s: State, st: Step)
    requires Reachable(s) && Enabled(s, st) && !Stranded(s)
    ensures Stranded(Apply(s, st)) <==> st.Push? && (!s.locked || BeingCleared(s))
  {
    var t := Advance(s, st);
    ReachableInv(s);
    ReachableInv(t);
    WillPopIffHeld(s);
    WillPopIffHeld(t);
    if s.pending != [] { GrantableIffHeld(s); }
    if t.pending != [] { GrantableIffHeld(t); }
    if t.pending != [] && !st.Push? {
      assert s.pending != [];
      StepKeepsWillPop(s, st);
    } else if st.Push? {
      PushKeepsWillPop(s, st.c);
    }
  }

  lemma StepKeepsWillPop(s: State, st: Step)
    requires Inv(s) && Enabled(s, st) && s.pending != [] && SomeoneWillPop(s)
    ensures SomeoneWillPop(Apply(s, st))
  {
    var c :| 0 <= c < |s.cos| && WillPop(s.cos[c]);
    var t := Apply(s, st);
    ATokenMeansLocked(s, c);
    if st.Execute? {
      assert WillPop(t.cos[s.cos[st.c].next]);
    } else {
      assert WillPop(t.cos[c]);
    }
  }

  lemma PushKeepsWillPop(s: State, c: Id)
    requires Enabled(s, Push(c))
    ensures SomeoneWillPop(Apply(s, Push(c))) <==> SomeoneWillPop(s)
  {
    var t := Apply(s, Push(c));
    assert !WillPop(s.cos[c]) && !WillPop(t.cos[c]);
    if d :| 0 <= d < |s.cos| && WillPop(s.cos[d]) { assert t.cos[d] == s.cos[d]; }
    if d :| 0 <= d < |t.cos| && WillPop(t.cos[d]) { assert t.cos[d] == s.cos[d]; }
  }

  /** Only a newcomer that takes the lock lets a stranded waiter go on. */
  lemma OnlyANewcomerRescues(s: State, st: Step)
    requires Reachable(s) && Enabled(s, st) && Stranded(s)
    ensures !Stranded(Apply(s, st)) <==> (st.Lock? || st.TryLock?) && !s.locked
  {
    var t := Advance(s, st);
    ReachableInv(s);
    ReachableInv(t);
    WillPopIffHeld(s);
    WillPopIffHeld(t);
    GrantableIffHeld(s);
    assert s.pending <= t.pending;
    GrantableIffHeld(t);
    if (st.Lock? || st.TryLock?) && !s.locked {
      assert WillPop(t.cos[st.c]);
    } else {
      forall c | 0 <= c < |t.cos| ensures !WillPop(t.cos[c]) { assert !WillPop(s.cos[c]); }
    }
  }

  /** It happens: two coroutines, the second queuing between the first one's pop and its store. From the moment it
      queues nobody but a newcomer can help it, though the flag is still up. */
  lemma AWaiterCanBeStranded() returns (s: State, t: State)
    ensures Reachable(s) && Stranded(s) && s.locked && s.cos == [Clearing, Parked(true)]
    ensures Reachable(t) && Stranded(t) && !t.locked && t.cos == [Outside, Parked(true)] && t.pending == [1]
  {
    var s0 := State(false, [], [Outside, Outside], 0, 0, [], [], []);
    Runs.ReachableInit(Init, Next, s0);
    var s1 := Advance(s0, Lock(0));
    var s2 := Advance(s1, Lock(1));
    var s3 := Advance(s2, UnlockPop(0));
    s := Advance(s3, Push(1));
    t := Advance(s, Clear(0));
    assert s.cos[0].Clearing?;
    GrantableIffHeld(s);
    GrantableIffHeld(t);
  }

  lemma Advance(s: State, st: Step) returns (t: State)
    requires Reachable(s) && Enabled(s, st)
    ensures t == Apply(s, st) && Reachable(t)
  {
    t := Apply(s, st);
    assert Next(s, t);
    Runs.ReachableStep(Init, Next, s, t);
  }

  // ---- the mutex as the object its operations update ----

  class Mutex {
    var mLocked: bool
    var mPending: seq<Id>
    var data: int
    ghost var cos: seq<Co>
    ghost var sections: nat
    ghost var pushes: seq<Id>
    ghost var handed: seq<Id>
    ghost var acquired: seq<Id>

    ghost function View(): State
      reads this
    {
      State(mLocked, mPending, cos, data, sections, pushes, handed, acquired)
    }

    ghost predicate Can(st: Step)
      reads this
    {
      Inv(View()) && Enabled(View(), st)
    }

    constructor (ghost n: nat)
      ensures Init(View()) && Inv(View()) && |cos| == n
    {
      mLocked, mPending, data := false, [], 0;
      cos := seq(n, _ => Outside);
      sections, pushes, handed, acquired := 0, [], [], [];
      new;
      InitEstablishes(View());
    }

    /** The atomic operation both `lock` and `try_lock` use. */
    method CompareExchangeTrue(expected: bool) returns (ok: bool, found: bool)
      modifies `mLocked
      ensures (ok, mLocked, found) == CompareExchange(old(mLocked), expected)
    {
      if mLocked == expected {
        mLocked := true;
        ok, found := true, expected;
      } else {
        ok, found := false, mLocked;
      }
    }

    method BeginLock(ghost c: Id) returns (entered: bool, expected: bool)
      requires Can(Lock(c))
      modifies `mLocked, `cos
      ensures View() == Apply(old(View()), Lock(c)) && Inv(View())
      ensures (entered <==> !old(mLocked)) && mLocked
      ensures cos[c] == (if entered then Holding(Entered) else Parking(expected)) && (!entered ==> expected)
    {
      StepKeepsInv(View(), Lock(c));
      entered, expected := CompareExchangeTrue(false);
      cos := cos[c := if entered then Holding(Entered) else Parking(expected)];
    }

    method TryToLock(ghost c: Id) returns (entered: bool)
      requires Can(TryLock(c))
      modifies `mLocked, `cos
      ensures View() == Apply(old(View()), TryLock(c)) && Inv(View())
      ensures (entered <==> !old(mLocked)) && mLocked
      ensures cos[c] == if entered then Holding(Entered) else Outside
    {
      StepKeepsInv(View(), TryLock(c));
      var found;
      entered, found := CompareExchangeTrue(false);
      cos := cos[c := if entered then Holding(Entered) else Outside];
    }

    method PushSelf(c: Id)
      requires Can(Push(c))
      modifies `mPending, `cos, `pushes
      ensures View() == Apply(old(View()), Push(c)) && Inv(View())
      ensures mPending == old(mPending) + [c] && cos[c].Parked?
    {
      StepKeepsInv(View(), Push(c));
      mPending := mPending + [c];
      pushes := pushes + [c];
      cos := cos[c := Parked(cos[c].expected)];
    }

    /** The end of `lock` after being resumed; `ok` is what the original asserts. */
    method FinishLock(ghost c: Id, expected: bool) returns (ok: bool)
      requires Can(Resume(c)) && cos[c] == Woken(expected)
      modifies `mLocked, `cos, `handed, `acquired
      ensures View() == Apply(old(View()), Resume(c)) && Inv(View())
      ensures ok && mLocked && cos[c] == Holding(Entered)
    {
      StepKeepsInv(View(), Resume(c));
      ATokenMeansLocked(View(), c);
      var found;
      ok, found := CompareExchangeTrue(expected);
      handed, acquired := [], acquired + [c];
      cos := cos[c := Holding(Entered)];
    }

    method PopWaiter(ghost c: Id) returns (found: bool, next: Id)
      requires Can(UnlockPop(c))
      modifies `mPending, `cos, `handed
      ensures View() == Apply(old(View()), UnlockPop(c)) && Inv(View())
      ensures found <==> old(mPending) != []
      ensures found ==> old(mPending) == [next] + mPending
      ensures cos[c] == if found then HandingTo(next) else Clearing
    {
      StepKeepsInv(View(), UnlockPop(c));
      found, next := mPending != [], 0;
      if found {
        next := mPending[0];
        mPending := mPending[1..];
        handed := [next];
      }
      cos := cos[c := if found then HandingTo(next) else Clearing];
    }

    /** The popped waiter is given to the executor. */
    method HandOver(ghost c: Id, next: Id)
      requires Can(Execute(c)) && cos[c] == HandingTo(next)
      modifies `cos
      ensures View() == Apply(old(View()), Execute(c)) && Inv(View())
      ensures cos[c] == Outside && cos[next].Woken? && cos[next].expected == old(cos)[next].expected
    {
      StepKeepsInv(View(), Execute(c));
      cos := cos[c := Outside][next := Woken(cos[next].expected)];
    }

    /** The holder reads the counter, and later writes it back one higher. */
    method ReadCounter(ghost c: Id) returns (v: int)
      requires Can(Read(c))
      modifies `cos
      ensures View() == Apply(old(View()), Read(c)) && Inv(View())
      ensures v == data && cos[c] == Holding(HasRead(v))
    {
      StepKeepsInv(View(), Read(c));
      v := data;
      cos := cos[c := Holding(HasRead(v))];
    }

    method WriteCounter(ghost c: Id, v: int)
      requires Can(Write(c)) && cos[c] == Holding(HasRead(v))
      modifies `data, `sections, `cos
      ensures View() == Apply(old(View()), Write(c)) && Inv(View())
      ensures data == v + 1 == old(data) + 1 && sections == old(sections) + 1
    {
      StepKeepsInv(View(), Write(c));
      data, sections := v + 1, sections + 1;
      cos := cos[c := Holding(HasWritten)];
    }

    method StoreFalse(ghost c: Id)
      requires Can(Clear(c))
      modifies `mLocked, `cos
      ensures View() == Apply(old(View()), Clear(c)) && Inv(View())
      ensures !mLocked && cos[c] == Outside
    {
      StepKeepsInv(View(), Clear(c));
      mLocked := false;
      cos := cos[c := Outside];
    }
  }
}
