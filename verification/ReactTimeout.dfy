/** How long a reactor pass may sleep: the timeout handed to the poller, its split into the kernel's structures, and
    what the kernel makes of them. Durations are in nanoseconds. */
module ReactTimeout {
  import opened Wrappers
  import opened Timers

  const SECOND := 1_000_000_000
  const MILLISECOND := 1_000_000

  /** The smaller of two optional bounds; an absent one does not bound. */
  function Least(a: Option<int>, b: Option<int>): Option<int> {
    match (a, b)
    case (None, _) => b
    case (_, None) => a
    case (Some(x), Some(y)) => Some(if x <= y then x else y)
  }

  datatype TimeSpec = TimeSpec(sec: int, nsec: int)

  /** Division that truncates towards zero, as duration_cast does. */
  function Truncate(a: int, unit: int): int
    requires unit > 0
  {
    if a >= 0 then a / unit else -(-a / unit)
  }

  const WORD := 0x1_0000_0000

  /** Conversion to a 32-bit signed integer keeps the value modulo 2^32. */
  function NarrowToInt(n: int): (r: int)
    ensures -WORD / 2 <= r < WORD / 2
    ensures -WORD / 2 <= n < WORD / 2 ==> r == n
  {
    (n + WORD / 2) % WORD - WORD / 2
  }

  function NsToTimespec(ns: Option<int>): TimeSpec {
    match ns
    case Some(n) => if n > 0 then TimeSpec(n / SECOND, n % SECOND) else TimeSpec(0, 0)
    case None => TimeSpec(0, 0)
  }

  /** What the poller passes to the kernel: the timerfd's expiry and epoll_wait's timeout. */
  datatype KernelWait = KernelWait(timer: TimeSpec, timeoutMs: int)

  function PollerWait(hasTimerFd: bool, timeout: Option<int>): KernelWait {
    KernelWait(
      if hasTimerFd then NsToTimespec(timeout) else TimeSpec(0, 0),
      match timeout
      case None => -1
      case Some(d) => if !hasTimerFd then NarrowToInt(Truncate(d, MILLISECOND)) else if d == 0 then 0 else -1)
  }

  /** The longest such a wait can last without other events: a zero expiry disarms the timerfd, a negative
      epoll_wait timeout does not bound. */
  function SleepBound(w: KernelWait): Option<int> {
    Least(if w.timer == TimeSpec(0, 0) then None else Some(w.timer.sec * SECOND + w.timer.nsec),
          if w.timeoutMs < 0 then None else Some(w.timeoutMs * MILLISECOND))
  }

  /** The split is exact, and a positive timeout never becomes the all-zero value that disarms the timerfd. */
  lemma TimespecIsExact(ns: Option<int>)
    ensures var ts := NsToTimespec(ns);
      && 0 <= ts.sec && 0 <= ts.nsec < SECOND
      && ts.sec * SECOND + ts.nsec == (if ns.Some? && ns.value > 0 then ns.value else 0)
      && (ts == TimeSpec(0, 0) <==> ns.None? || ns.value <= 0)
  {
  }

  /** With a timerfd the kernel sleeps exactly as long as asked; a negative timeout makes it sleep without bound. */
  lemma TimerFdSleepsAsAsked(timeout: Option<int>)
    ensures SleepBound(PollerWait(true, timeout)) == if timeout.Some? && timeout.value >= 0 then timeout else None
  {
  }

  /** Without one the timeout is cut to whole milliseconds and then to 32 bits. A non-negative timeout is never
      overslept unless the cut makes it negative, and it is slept out, to the millisecond, if and only if it has fewer
      than 2^31 milliseconds. */
  lemma EpollAloneSleepsAsAskedIffItFits(timeout: int)
    requires timeout >= 0
    ensures var b, ms := SleepBound(PollerWait(false, Some(timeout))), timeout / MILLISECOND;
      && (b.None? <==> ms % WORD >= WORD / 2)
      && (b.Some? ==> 0 <= b.value <= timeout)
      && (b.Some? && timeout - MILLISECOND < b.value <==> ms < WORD / 2)
  {
    var ms := timeout / MILLISECOND;
    var q, r := ms / WORD, ms % WORD;
    assert ms == q * WORD + r;
    if r < WORD / 2 {
      NarrowedValue(ms, q, r);
    } else {
      NarrowedValue(ms, q + 1, r - WORD);
    }
  }

  lemma NarrowedValue(n: int, q: int, r: int)
    requires n == q * WORD + r && -WORD / 2 <= r < WORD / 2
    ensures NarrowToInt(n) == r
  {
    assert n + WORD / 2 == q * WORD + (r + WORD / 2);
  }

  /** A negative timeout without a timerfd: the cut is towards zero, so less than a millisecond does not wait at all;
      otherwise the sleep is unbounded if and only if the 32-bit value stays negative. */
  lemma NegativeTimeoutWithoutTimerFd(timeout: int)
    requires timeout < 0
    ensures var b, r := SleepBound(PollerWait(false, Some(timeout))), (-timeout / MILLISECOND) % WORD;
      && (b.None? <==> 0 < r <= WORD / 2)
      && (b.Some? ==> b.value == (if r == 0 then 0 else WORD - r) * MILLISECOND)
  {
    var ms := -timeout / MILLISECOND;
    var q, r := ms / WORD, ms % WORD;
    assert ms == q * WORD + r;
    if r <= WORD / 2 {
      NarrowedValue(-ms, -q, -r);
    } else {
      NarrowedValue(-ms, -q - 1, WORD - r);
    }
  }

  /** A wait of 2^31 milliseconds, about 25 days, never ends by itself; one of 2^32 milliseconds does not wait. */
  lemma LongTimeoutsAreCut()
    ensures SleepBound(PollerWait(false, Some(WORD / 2 * MILLISECOND))) == None
    ensures SleepBound(PollerWait(false, Some(WORD * MILLISECOND))) == Some(0)
  {
    NarrowedValue(WORD / 2, 1, -WORD / 2);
    NarrowedValue(WORD, 1, 0);
    assert Truncate(WORD / 2 * MILLISECOND, MILLISECOND) == WORD / 2;
    assert Truncate(WORD * MILLISECOND, MILLISECOND) == WORD;
  }

  /** The timeout `react` hands to the poller, given the caller's and the timers in the map. */
  function WaitTimeout(timeout: Option<int>, ts: seq<Timer>, now: int): Option<int> {
    Least(timeout, NextDuration(Due(ts, now), Rest(ts, now), now))
  }

  function TimeTo(t: Timer, now: int): int {
    if t.when <= now then 0 else t.when - now
  }

  /** The timers ask for a wait if there are any, and it is the time to the earliest of them. */
  lemma {:induction false} NextIsEarliest(ts: seq<Timer>, now: int)
    requires Sorted(ts)
    ensures var d := NextDuration(Due(ts, now), Rest(ts, now), now);
      && (d.None? <==> ts == [])
      && (d.Some? ==> ts != [] && d.value == TimeTo(ts[0], now))
      && (d.Some? ==> forall i :: 0 <= i < |ts| ==> 0 <= d.value <= TimeTo(ts[i], now))
  {
    var due, rest := Due(ts, now), Rest(ts, now);
    assert Splits(ts, due, rest, now) by { DueAndRestSplit(ts, now); }
    forall i | 0 < i < |ts| ensures ts[0].when <= ts[i].when { SortedEach(ts, 0, i); }
  }

  /** A pass never sleeps past a caller's timeout or a timer's deadline, is woken by one of them, and sleeps without
      bound if and only if there is neither a timeout nor a timer, or the timeout is negative. */
  lemma {:induction false} NeverOversleeps(timeout: Option<int>, ts: seq<Timer>, now: int)
    requires Sorted(ts)
    ensures var b := SleepBound(PollerWait(true, WaitTimeout(timeout, ts, now)));
      && (b.None? <==> (timeout.None? && ts == []) || (timeout.Some? && timeout.value < 0))
      && (b.Some? && timeout.Some? ==> 0 <= b.value <= timeout.value)
      && (b.Some? ==> forall i :: 0 <= i < |ts| ==> 0 <= b.value <= TimeTo(ts[i], now))
      && (b.Some? ==> b == timeout || (ts != [] && b.value == TimeTo(ts[0], now)))
  {
    NextIsEarliest(ts, now);
    TimerFdSleepsAsAsked(WaitTimeout(timeout, ts, now));
  }

  /** A negative timeout makes the pass sleep without bound even though a timer is already due. */
  lemma ANegativeTimeoutSleepsOverADueTimer()
    ensures var due := [Timer(0, 0, 0)];
      Due(due, 5) == due && SleepBound(PollerWait(true, WaitTimeout(Some(-1), due, 5))) == None
  {
    NeverOversleeps(Some(-1), [Timer(0, 0, 0)], 5);
  }

  // ---- the code that computes it ----

  /** The four cases of `react`. */
  method ChooseTimeout(timeout: Option<int>, nextTimer: Option<int>) returns (waitTimeout: Option<int>)
    ensures waitTimeout == Least(timeout, nextTimer)
  {
    waitTimeout := None;
    if timeout.Some? && nextTimer.None? {
      waitTimeout := Some(timeout.value);
    } else if timeout.Some? && nextTimer.Some? {
      waitTimeout := Some(if nextTimer.value < timeout.value then nextTimer.value else timeout.value);
    } else if timeout.None? && nextTimer.Some? {
      waitTimeout := Some(nextTimer.value);
    }
  }

  /** `ns_to_timespec`, field by field. */
  method FillTimespec(ns: Option<int>) returns (sec: int, nsec: int)
    ensures TimeSpec(sec, nsec) == NsToTimespec(ns)
  {
    if ns.Some? && ns.value > 0 {
      sec := Truncate(ns.value, SECOND);
      nsec := ns.value - sec * SECOND;
    } else {
      sec, nsec := 0, 0;
    }
  }

  /** The first half of a pass: process the timers and choose the poller's timeout. */
  method PrepareWait(reactor: Reactor, timeout: Option<int>, clock: int)
    returns (handles: seq<nat>, waitTimeout: Option<int>)
    requires reactor.Can(BeginPass)
    modifies reactor
    ensures reactor.View() == WholePass(old(reactor.View()), clock) && Inv(reactor.View())
    ensures ReportsFirings(old(reactor.fired), reactor.fired, clock, handles)
    ensures waitTimeout == WaitTimeout(timeout, Drained(old(reactor.mTimers), old(reactor.mTimerOps)), clock + 1)
  {
    var nextTimer;
    handles, nextTimer := reactor.ProcessTimers(clock);
    waitTimeout := ChooseTimeout(timeout, nextTimer);
  }

  // ---- what a wait reports ----

  datatype Event = Event(key: nat, readable: bool, writable: bool)

  const NOTIFY_KEY := 0xFFFF_FFFF_FFFF_FFFF

  /** The events of sources, in order; those of the eventfd and the timerfd are the poller's own. */
  function SourceEvents(polled: seq<Event>): seq<Event> {
    if polled == [] then []
    else
      var before, last := SourceEvents(polled[..|polled| - 1]), polled[|polled| - 1];
      if last.key != NOTIFY_KEY then before + [last] else before
  }

  /** Every event of a source is reported once, as polled and in the order polled, and nothing else is. */
  lemma {:induction false} SourceEventsInOrder(a: seq<Event>, b: seq<Event>, e: Event)
    ensures SourceEvents(a + b) == SourceEvents(a) + SourceEvents(b)
    ensures SourceEvents([e]) == if e.key == NOTIFY_KEY then [] else [e]
    decreases |b|
  {
    if b == [] {
      assert a + b == a;
    } else {
      var init := b[..|b| - 1];
      assert (a + b)[..|a + b| - 1] == a + init;
      SourceEventsInOrder(a, init, e);
    }
  }

  /** `Poller::wait` appends the sources' events and reports how many; none means only a wakeup or a timer. */
  method AppendEvents(events: seq<Event>, polled: seq<Event>) returns (appended: seq<Event>, count: nat)
    ensures appended == events + SourceEvents(polled)
    ensures count == |SourceEvents(polled)|
    ensures count == 0 <==> forall i :: 0 <= i < |polled| ==> polled[i].key == NOTIFY_KEY
  {
    appended := events;
    for k := 0 to |polled|
      invariant appended == events + SourceEvents(polled[..k])
      invariant SourceEvents(polled[..k]) == [] <==> forall i :: 0 <= i < k ==> polled[i].key == NOTIFY_KEY
    {
      assert polled[..k + 1][..k] == polled[..k];
      if polled[k].key != NOTIFY_KEY {
        appended := appended + [polled[k]];
      }
    }
    assert polled[..|polled|] == polled;
    count := |appended| - |events|;
  }
}
