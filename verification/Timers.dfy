/** Timers of the reactor: insertions and removals are queued by any thread and applied by the reactor, which then
    fires what is due. */
module Timers {
  import opened Wrappers
  import opened Sums
  import Runs

  datatype Timer = Timer(when: int, id: nat, handle: nat)

  datatype Op = Insert(timer: Timer) | Remove(when: int, id: nat)

  // ---- the ordered map ----

  ghost predicate Before(a: Timer, b: Timer) {
    a.when < b.when || (a.when == b.when && a.id < b.id)
  }

  /** The entries of the map in iteration order: strictly by (when, id). */
  ghost predicate Sorted(ts: seq<Timer>) {
    ts == [] || (Above(ts[0], ts[1..]) && Sorted(ts[1..]))
  }

  ghost predicate Above(x: Timer, ts: seq<Timer>) {
    ts == [] || (Before(x, ts[0]) && Above(x, ts[1..]))
  }

  predicate HasKey(t: Timer, when: int, id: nat) {
    t.when == when && t.id == id
  }

  /** `map::insert`: no effect when the key is present. */
  function MapInsert(ts: seq<Timer>, t: Timer): seq<Timer> {
    if ts == [] then [t]
    else if HasKey(ts[0], t.when, t.id) then ts
    else if t.when < ts[0].when || (t.when == ts[0].when && t.id < ts[0].id) then [t] + ts
    else [ts[0]] + MapInsert(ts[1..], t)
  }

  /** `map::erase` of a key. */
  function MapErase(ts: seq<Timer>, when: int, id: nat): seq<Timer> {
    if ts == [] then []
    else if HasKey(ts[0], when, id) then ts[1..]
    else [ts[0]] + MapErase(ts[1..], when, id)
  }

  function ApplyOp(ts: seq<Timer>, op: Op): seq<Timer> {
    match op
    case Insert(t) => MapInsert(ts, t)
    case Remove(when, id) => MapErase(ts, when, id)
  }

  function Drained(ts: seq<Timer>, ops: seq<Op>): seq<Timer>
    decreases |ops|
  {
    if ops == [] then ts else Drained(ApplyOp(ts, ops[0]), ops[1..])
  }

  /** The entries due at `now`, in order, and the others. */
  function Due(ts: seq<Timer>, now: int): seq<Timer> {
    if ts == [] then [] else if ts[0].when <= now then [ts[0]] + Due(ts[1..], now) else Due(ts[1..], now)
  }

  function Rest(ts: seq<Timer>, now: int): seq<Timer> {
    if ts == [] then [] else if ts[0].when <= now then Rest(ts[1..], now) else [ts[0]] + Rest(ts[1..], now)
  }

  ghost predicate KeyIn(ts: seq<Timer>, when: int, id: nat) {
    ts != [] && (HasKey(ts[0], when, id) || KeyIn(ts[1..], when, id))
  }

  lemma {:induction false} AboveEach(x: Timer, ts: seq<Timer>, i: nat)
    requires Above(x, ts) && i < |ts|
    ensures Before(x, ts[i])
  {
    if i != 0 {
      AboveEach(x, ts[1..], i - 1);
    }
  }

  lemma {:induction false} SortedEach(ts: seq<Timer>, i: nat, j: nat)
    requires Sorted(ts) && i < j < |ts|
    ensures Before(ts[i], ts[j])
  {
    if i == 0 {
      AboveEach(ts[0], ts[1..], j - 1);
    } else {
      SortedEach(ts[1..], i - 1, j - 1);
    }
  }

  lemma {:induction false} KeyInEach(ts: seq<Timer>, i: nat)
    requires i < |ts|
    ensures KeyIn(ts, ts[i].when, ts[i].id)
  {
    if i != 0 {
      KeyInEach(ts[1..], i - 1);
    }
  }

  lemma {:induction false} AboveTransitive(x: Timer, y: Timer, ts: seq<Timer>)
    requires Before(x, y) && Above(y, ts)
    ensures Above(x, ts)
  {
    if ts != [] {
      AboveTransitive(x, y, ts[1..]);
    }
  }

  lemma {:induction false} AboveHasNoKey(x: Timer, ts: seq<Timer>)
    requires Above(x, ts)
    ensures !KeyIn(ts, x.when, x.id)
  {
    if ts != [] {
      AboveHasNoKey(x, ts[1..]);
    }
  }

  lemma {:induction false} AboveInsert(x: Timer, ts: seq<Timer>, t: Timer)
    requires Above(x, ts) && Before(x, t)
    ensures Above(x, MapInsert(ts, t))
  {
    if ts != [] {
      AboveInsert(x, ts[1..], t);
      assert ([t] + ts)[1..] == ts;
    }
  }

  lemma {:induction false} AboveErase(x: Timer, ts: seq<Timer>, when: int, id: nat)
    requires Above(x, ts)
    ensures Above(x, MapErase(ts, when, id))
  {
    if ts != [] {
      AboveErase(x, ts[1..], when, id);
    }
  }

  lemma {:induction false} InsertSorts(ts: seq<Timer>, t: Timer)
    requires Sorted(ts)
    ensures Sorted(MapInsert(ts, t))
  {
    if ts != [] {
      if Before(t, ts[0]) {
        assert ([t] + ts)[1..] == ts;
        AboveTransitive(t, ts[0], ts[1..]);
      } else if Before(ts[0], t) {
        InsertSorts(ts[1..], t);
        AboveInsert(ts[0], ts[1..], t);
        assert MapInsert(ts, t)[1..] == MapInsert(ts[1..], t);
      }
    }
  }

  /** Inserting a new key adds exactly that entry; inserting a present one drops it. */
  lemma {:induction false} InsertAdds(ts: seq<Timer>, t: Timer)
    requires Sorted(ts)
    ensures multiset(MapInsert(ts, t)) == if KeyIn(ts, t.when, t.id) then multiset(ts) else multiset(ts) + multiset{t}
  {
    if ts != [] && !HasKey(ts[0], t.when, t.id) {
      if Before(t, ts[0]) {
        AboveTransitive(t, ts[0], ts[1..]);
        AboveHasNoKey(t, ts[1..]);
      } else {
        InsertAdds(ts[1..], t);
        TakeFirst(ts);
        TakeFirst(MapInsert(ts, t));
        assert MapInsert(ts, t)[1..] == MapInsert(ts[1..], t);
        assert multiset{ts[0]} + (multiset(ts[1..]) + multiset{t})
            == (multiset{ts[0]} + multiset(ts[1..])) + multiset{t};
      }
    }
  }

  lemma {:induction false} EraseSorts(ts: seq<Timer>, when: int, id: nat)
    requires Sorted(ts)
    ensures Sorted(MapErase(ts, when, id)) && !KeyIn(MapErase(ts, when, id), when, id)
  {
    if ts != [] {
      if HasKey(ts[0], when, id) {
        AboveHasNoKey(ts[0], ts[1..]);
      } else {
        EraseSorts(ts[1..], when, id);
        AboveErase(ts[0], ts[1..], when, id);
        assert MapErase(ts, when, id)[1..] == MapErase(ts[1..], when, id);
      }
    }
  }

  /** The entry that carries a key of the map. */
  function EntryAt(ts: seq<Timer>, when: int, id: nat): (t: Timer)
    requires KeyIn(ts, when, id)
    ensures HasKey(t, when, id)
  {
    if HasKey(ts[0], when, id) then ts[0] else EntryAt(ts[1..], when, id)
  }

  /** Erasing takes out exactly the entry with the key, if there is one. */
  lemma {:induction false} EraseTakes(ts: seq<Timer>, when: int, id: nat)
    ensures if KeyIn(ts, when, id) then
              multiset(ts) == multiset(MapErase(ts, when, id)) + multiset{EntryAt(ts, when, id)}
            else MapErase(ts, when, id) == ts
  {
    if ts != [] {
      assert ts == [ts[0]] + ts[1..];
      if !HasKey(ts[0], when, id) {
        EraseTakes(ts[1..], when, id);
        if KeyIn(ts, when, id) {
          BehindHead(ts[0], ts[1..], MapErase(ts[1..], when, id), EntryAt(ts, when, id));
        }
      }
    }
  }

  lemma BehindHead(x: Timer, tail: seq<Timer>, left: seq<Timer>, e: Timer)
    requires multiset(tail) == multiset(left) + multiset{e}
    ensures multiset([x] + tail) == multiset([x] + left) + multiset{e}
  {
  }

  /** A removal queued after its insertion undoes it. */
  lemma RemovalUndoesInsertion(ts: seq<Timer>, t: Timer)
    requires Sorted(ts) && !KeyIn(ts, t.when, t.id)
    ensures Drained(ts, [Insert(t), Remove(t.when, t.id)]) == ts
  {
    var ops := [Insert(t), Remove(t.when, t.id)];
    assert ops[1..] == [Remove(t.when, t.id)] && ops[1..][1..] == [];
    assert Drained(MapInsert(ts, t), ops[1..]) == Drained(MapErase(MapInsert(ts, t), t.when, t.id), []);
    EraseInserted(ts, t);
  }

  lemma {:induction false} EraseInserted(ts: seq<Timer>, t: Timer)
    requires Sorted(ts) && !KeyIn(ts, t.when, t.id)
    ensures MapErase(MapInsert(ts, t), t.when, t.id) == ts
  {
    if ts != [] && Before(ts[0], t) {
      EraseInserted(ts[1..], t);
      assert MapInsert(ts, t)[1..] == MapInsert(ts[1..], t);
    }
  }

  lemma {:induction false} AllLater(x: Timer, ts: seq<Timer>, now: int)
    requires Above(x, ts) && x.when > now
    ensures Due(ts, now) == [] && Rest(ts, now) == ts
  {
    if ts != [] {
      AllLater(x, ts[1..], now);
    }
  }

  lemma {:induction false} AboveSplit(x: Timer, ts: seq<Timer>, now: int)
    requires Above(x, ts) && Sorted(ts)
    ensures Above(x, Due(ts, now)) && Above(x, Rest(ts, now))
  {
    if ts != [] {
      AboveSplit(x, ts[1..], now);
    }
  }

  /** The due entries are a prefix of the map, and both parts stay sorted. */
  lemma {:induction false} SplitIsPrefix(ts: seq<Timer>, now: int)
    requires Sorted(ts)
    ensures ts == Due(ts, now) + Rest(ts, now)
    ensures Sorted(Due(ts, now)) && Sorted(Rest(ts, now))
  {
    if ts != [] {
      assert ts == [ts[0]] + ts[1..];
      if ts[0].when > now {
        AllLater(ts[0], ts[1..], now);
      } else {
        SplitIsPrefix(ts[1..], now);
        AboveSplit(ts[0], ts[1..], now);
        HeadFirst(ts[0], Due(ts[1..], now), Rest(ts[1..], now));
      }
    }
  }

  lemma HeadFirst(x: Timer, due: seq<Timer>, rest: seq<Timer>)
    requires Above(x, due) && Sorted(due)
    ensures Sorted([x] + due) && [x] + (due + rest) == ([x] + due) + rest
  {
    assert ([x] + due)[1..] == due;
  }

  lemma {:induction false} SplitByTime(ts: seq<Timer>, now: int)
    ensures forall i :: 0 <= i < |Due(ts, now)| ==> Due(ts, now)[i].when <= now
    ensures forall i :: 0 <= i < |Rest(ts, now)| ==> Rest(ts, now)[i].when > now
  {
    if ts != [] {
      SplitByTime(ts[1..], now);
    }
  }

  // ---- threads that queue, a reactor that drains and fires ----

  datatype Inserter = Idle | Reserved(timer: Timer)   // has drawn its id, about to queue the insertion

  datatype Phase = Off | Draining | Ready             // Ready: saw the queue empty, about to split the timers

  datatype Firing = Firing(timer: Timer, clock: int)

  datatype State = State(
    nextId: nat,
    inserters: seq<Inserter>,
    ops: seq<Op>,
    timers: seq<Timer>,
    phase: Phase,
    issued: seq<Timer>,             // history: every timer that has drawn an id
    removed: multiset<Timer>,       // history: timers erased by a removal
    fired: seq<Firing>)             // history: timers fired, with the clock of their pass

  datatype Step =
    | DrawId(a: nat, when: int, handle: nat)
    | SkipId                                 // another reactor draws from the generator they all share
    | QueueInsert(a: nat)
    | QueueRemove(when: int, id: nat)
    | BeginPass
    | DrainOne
    | FireDue(clock: int)

  ghost predicate Init(s: State) {
    && s.nextId == 0 && s.ops == [] && s.timers == [] && s.phase == Off
    && s.issued == [] && s.removed == multiset{} && s.fired == []
    && forall a :: 0 <= a < |s.inserters| ==> s.inserters[a] == Idle
  }

  ghost predicate Enabled(s: State, st: Step) {
    match st
    case DrawId(a, _, _) => a < |s.inserters| && s.inserters[a].Idle?
    case SkipId => true
    case QueueInsert(a) => a < |s.inserters| && s.inserters[a].Reserved?
    case QueueRemove(_, _) => true
    case BeginPass => s.phase.Off?
    case DrainOne => s.phase.Draining?
    case FireDue(_) => s.phase.Ready?
  }

  function Firings(due: seq<Timer>, clock: int): seq<Firing> {
    seq(|due|, i requires 0 <= i < |due| => Firing(due[i], clock))
  }

  /** The state after a pass that fired `due` and left `rest`. */
  ghost function AfterPass(s: State, due: seq<Timer>, rest: seq<Timer>, clock: int): State {
    s.(phase := Off, timers := rest, fired := s.fired + Firings(due, clock))
  }

  /** The timers a drained operation erases. */
  ghost function ErasedBy(ts: seq<Timer>, op: Op): multiset<Timer> {
    if op.Remove? && KeyIn(ts, op.when, op.id) then multiset{EntryAt(ts, op.when, op.id)} else multiset{}
  }

  ghost function Apply(s: State, st: Step): State
    requires Enabled(s, st)
  {
    match st
    case DrawId(a, when, handle) =>
      var t := Timer(when, s.nextId, handle);
      s.(nextId := s.nextId + 1, inserters := s.inserters[a := Reserved(t)], issued := s.issued + [t])
    case SkipId => s.(nextId := s.nextId + 1)
    case QueueInsert(a) =>
      s.(inserters := s.inserters[a := Idle], ops := s.ops + [Insert(s.inserters[a].timer)])
    case QueueRemove(when, id) => s.(ops := s.ops + [Remove(when, id)])
    case BeginPass => s.(phase := Draining)
    case DrainOne =>
      if s.ops == [] then s.(phase := Ready)
      else
        s.(ops := s.ops[1..], timers := ApplyOp(s.timers, s.ops[0]),
           removed := s.removed + ErasedBy(s.timers, s.ops[0]))
    case FireDue(clock) =>
      AfterPass(s, Due(s.timers, clock + 1), Rest(s.timers, clock + 1), clock)
  }

  ghost predicate Next(s: State, t: State) {
    exists st :: Enabled(s, st) && t == Apply(s, st)
  }

  ghost predicate Reachable(s: State) {
    Runs.Reachable(Init, Next, s)
  }

  // ---- the invariant ----

  function InInserter(c: Inserter): multiset<Timer> { if c.Reserved? then multiset{c.timer} else multiset{} }
  function InOp(op: Op): multiset<Timer> { if op.Insert? then multiset{op.timer} else multiset{} }
  function InFiring(f: Firing): multiset<Timer> { multiset{f.timer} }

  ghost function Reserving(s: State): multiset<Timer> { Gather(InInserter, s.inserters) }
  ghost function Queued(s: State): multiset<Timer> { Gather(InOp, s.ops) }
  ghost function Fired(s: State): multiset<Timer> { Gather(InFiring, s.fired) }

  /** How often a timer is on its way into the map. */
  ghost function Arriving(s: State, x: Timer): nat {
    Reserving(s)[x] + Queued(s)[x]
  }

  /** How often a timer has left the map for good. */
  ghost function Finished(s: State, x: Timer): nat {
    s.removed[x] + Fired(s)[x]
  }

  ghost function Places(s: State, x: Timer): nat {
    Arriving(s, x) + multiset(s.timers)[x] + Finished(s, x)
  }

  /** Everything that has drawn an id is reserved, queued, mapped, removed or fired. */
  ghost predicate Conserved(s: State) {
    SumsTo(Reserving(s), Queued(s), multiset(s.timers), s.removed, Fired(s), multiset(s.issued))
  }

  ghost predicate SumsTo(a: multiset<Timer>, b: multiset<Timer>, c: multiset<Timer>, d: multiset<Timer>,
                         e: multiset<Timer>, all: multiset<Timer>) {
    a + b + c + d + e == all
  }

  /** Ids grow in the order they are drawn, and the generator is past them all. */
  ghost predicate IdsAscend(issued: seq<Timer>, next: nat) {
    && (forall i, j :: 0 <= i < j < |issued| ==> issued[i].id < issued[j].id)
    && (forall i :: 0 <= i < |issued| ==> issued[i].id < next)
  }

  ghost predicate NeverEarly(fired: seq<Firing>) {
    forall i :: 0 <= i < |fired| ==> fired[i].timer.when <= fired[i].clock + 1
  }

  ghost predicate Inv(s: State) {
    && Conserved(s)
    && IdsAscend(s.issued, s.nextId)
    && Sorted(s.timers)
    && NeverEarly(s.fired)
  }

  lemma {:induction false} IssuedOnce(issued: seq<Timer>, next: nat, t: Timer)
    requires IdsAscend(issued, next) && t in issued
    ensures multiset(issued)[t] == 1
    decreases |issued|
  {
    var before, last := issued[..|issued| - 1], issued[|issued| - 1];
    TakeLast(issued);
    if t in before {
      IssuedOnce(before, next, t);
      assert t != last;
    }
  }

  lemma {:induction false} EntryIsPresent(ts: seq<Timer>, when: int, id: nat)
    requires KeyIn(ts, when, id)
    ensures multiset(ts)[EntryAt(ts, when, id)] > 0
  {
    TakeFirst(ts);
    if !HasKey(ts[0], when, id) {
      EntryIsPresent(ts[1..], when, id);
    }
  }

  /** Timers with the same id, wherever they are, are the same timer, and it is only in one place. */
  lemma SameIdSameTimer(s: State, x: Timer, y: Timer)
    requires Inv(s) && x.id == y.id && Places(s, x) > 0 && Places(s, y) > 0
    ensures x == y && Places(s, x) == 1
  {
    PlacesAreIssued(s, x);
    PlacesAreIssued(s, y);
    assert x in multiset(s.issued) && y in multiset(s.issued);
    IssuedOnce(s.issued, s.nextId, x);
  }

  lemma PlacesAreIssued(s: State, x: Timer)
    requires Conserved(s)
    ensures Places(s, x) == multiset(s.issued)[x]
  {
    assert (Reserving(s) + Queued(s) + multiset(s.timers) + s.removed + Fired(s))[x] == multiset(s.issued)[x];
  }

  /** Ids are unique, so draining an insertion never meets its key in the map and never drops a timer. */
  lemma InsertionIsNew(s: State)
    requires Inv(s) && s.ops != [] && s.ops[0].Insert?
    ensures !KeyIn(s.timers, s.ops[0].timer.when, s.ops[0].timer.id)
  {
    var t := s.ops[0].timer;
    if KeyIn(s.timers, t.when, t.id) {
      var e := EntryAt(s.timers, t.when, t.id);
      EntryIsPresent(s.timers, t.when, t.id);
      assert Queued(s)[t] > 0;
      SameIdSameTimer(s, t, e);
      assert false;
    }
  }

  lemma {:induction false} FiringsHold(due: seq<Timer>, clock: int)
    ensures Gather(InFiring, Firings(due, clock)) == multiset(due)
    ensures |Firings(due, clock)| == |due|
    ensures forall i :: 0 <= i < |due| ==> Firings(due, clock)[i] == Firing(due[i], clock)
  {
    if due != [] {
      FiringsHold(due[1..], clock);
      TakeFirst(due);
      assert Firings(due, clock)[1..] == Firings(due[1..], clock);
    }
  }

  lemma DrainedInsertConserves(s: State)
    requires Inv(s) && s.phase.Draining? && s.ops != [] && s.ops[0].Insert?
    ensures Conserved(Apply(s, DrainOne))
  {
    var t, x := Apply(s, DrainOne), s.ops[0].timer;
    InsertionIsNew(s);
    InsertAdds(s.timers, x);
    QueueToMap(Reserving(s), Queued(s), Queued(t), multiset(s.timers), s.removed, Fired(s),
               multiset(s.issued), multiset{x});
  }

  lemma QueueToMap(a: multiset<Timer>, b: multiset<Timer>, b': multiset<Timer>, c: multiset<Timer>, d: multiset<Timer>,
                   e: multiset<Timer>, all: multiset<Timer>, x: multiset<Timer>)
    requires SumsTo(a, b, c, d, e, all) && b == x + b'
    ensures SumsTo(a, b', c + x, d, e, all)
  {
  }

  lemma DrainedRemoveConserves(s: State)
    requires Inv(s) && s.phase.Draining? && s.ops != [] && s.ops[0].Remove?
    ensures Conserved(Apply(s, DrainOne))
  {
    var t := Apply(s, DrainOne);
    EraseTakes(s.timers, s.ops[0].when, s.ops[0].id);
    assert Queued(t) == Queued(s);
    MapToRemoved(Reserving(s), Queued(s), multiset(s.timers), multiset(t.timers), s.removed, Fired(s),
                 multiset(s.issued), ErasedBy(s.timers, s.ops[0]));
  }

  lemma MapToRemoved(a: multiset<Timer>, b: multiset<Timer>, c: multiset<Timer>, c': multiset<Timer>,
                     d: multiset<Timer>, e: multiset<Timer>, all: multiset<Timer>, x: multiset<Timer>)
    requires SumsTo(a, b, c, d, e, all) && c == c' + x
    ensures SumsTo(a, b, c', d + x, e, all)
  {
  }

  lemma DrainKeepsInv(s: State)
    requires Inv(s) && s.phase.Draining? && s.ops != []
    ensures Inv(Apply(s, DrainOne))
  {
    match s.ops[0]
    case Insert(x) => InsertSorts(s.timers, x); DrainedInsertConserves(s);
    case Remove(when, id) => EraseSorts(s.timers, when, id); DrainedRemoveConserves(s);
  }

  /** `due` and `rest` are the two parts of a sorted list, split at `now`. */
  ghost predicate Splits(ts: seq<Timer>, due: seq<Timer>, rest: seq<Timer>, now: int) {
    && ts == due + rest && Sorted(rest)
    && (forall i :: 0 <= i < |due| ==> due[i].when <= now)
    && (forall i :: 0 <= i < |rest| ==> rest[i].when > now)
  }

  lemma DueAndRestSplit(ts: seq<Timer>, now: int)
    requires Sorted(ts)
    ensures Splits(ts, Due(ts, now), Rest(ts, now), now)
  {
    SplitIsPrefix(ts, now);
    SplitByTime(ts, now);
  }

  lemma MapToFired(a: multiset<Timer>, b: multiset<Timer>, c: multiset<Timer>, c': multiset<Timer>, d: multiset<Timer>,
                   e: multiset<Timer>, all: multiset<Timer>, x: multiset<Timer>)
    requires SumsTo(a, b, c, d, e, all) && c == x + c'
    ensures SumsTo(a, b, c', d, e + x, all)
  {
  }

  lemma PassConserves(s: State, due: seq<Timer>, rest: seq<Timer>, clock: int)
    requires Conserved(s) && multiset(s.timers) == multiset(due) + multiset(rest)
    ensures Conserved(AfterPass(s, due, rest, clock))
  {
    FiringsHold(due, clock);
    GatherConcat(InFiring, s.fired, Firings(due, clock));
    MapToFired(Reserving(s), Queued(s), multiset(s.timers), multiset(rest), s.removed, Fired(s),
               multiset(s.issued), multiset(due));
  }

  lemma PassKeepsInv(s: State, due: seq<Timer>, rest: seq<Timer>, clock: int)
    requires Inv(s) && Splits(s.timers, due, rest, clock + 1)
    ensures Inv(AfterPass(s, due, rest, clock))
  {
    PassConserves(s, due, rest, clock);
  }

  lemma FireKeepsInv(s: State, clock: int)
    requires Inv(s) && s.phase.Ready?
    ensures Inv(Apply(s, FireDue(clock)))
  {
    var due, rest := PassParts(s, clock);
    PassKeepsInv(s, due, rest, clock);
  }

  lemma PassParts(s: State, clock: int) returns (due: seq<Timer>, rest: seq<Timer>)
    requires Sorted(s.timers) && s.phase.Ready?
    ensures due == Due(s.timers, clock + 1) && Splits(s.timers, due, rest, clock + 1)
    ensures Apply(s, FireDue(clock)) == AfterPass(s, due, rest, clock)
  {
    due, rest := Due(s.timers, clock + 1), Rest(s.timers, clock + 1);
    DueAndRestSplit(s.timers, clock + 1);
  }

  lemma DrawKeepsInv(s: State, a: nat, when: int, handle: nat)
    requires Inv(s) && Enabled(s, DrawId(a, when, handle))
    ensures Inv(Apply(s, DrawId(a, when, handle)))
  {
    var t, x := Apply(s, DrawId(a, when, handle)), Timer(when, s.nextId, handle);
    assert Reserving(t) == Reserving(s) + multiset{x} by { GatherUpdate(InInserter, s.inserters, a, Reserved(x)); }
    assert multiset(t.issued) == multiset(s.issued) + multiset{x};
    IssuedToReserved(Reserving(s), Queued(s), multiset(s.timers), s.removed, Fired(s), multiset(s.issued), multiset{x});
  }

  lemma IssuedToReserved(a: multiset<Timer>, b: multiset<Timer>, c: multiset<Timer>, d: multiset<Timer>,
                         e: multiset<Timer>, all: multiset<Timer>, x: multiset<Timer>)
    requires SumsTo(a, b, c, d, e, all)
    ensures SumsTo(a + x, b, c, d, e, all + x)
  {
  }

  lemma QueueInsertConserves(s: State, a: nat)
    requires Conserved(s) && Enabled(s, QueueInsert(a))
    ensures Conserved(Apply(s, QueueInsert(a)))
  {
    var t, x := Apply(s, QueueInsert(a)), s.inserters[a].timer;
    assert Reserving(t) + multiset{x} == Reserving(s) by { GatherUpdate(InInserter, s.inserters, a, Idle); }
    assert Queued(t) == Queued(s) + multiset{x} by { GatherAppend(InOp, s.ops, Insert(x)); }
    ReservedToQueue(Reserving(s), Reserving(t), Queued(s), multiset(s.timers), s.removed, Fired(s),
                    multiset(s.issued), multiset{x});
  }

  lemma ReservedToQueue(a: multiset<Timer>, a': multiset<Timer>, b: multiset<Timer>, c: multiset<Timer>,
                        d: multiset<Timer>, e: multiset<Timer>, all: multiset<Timer>, x: multiset<Timer>)
    requires SumsTo(a, b, c, d, e, all) && a == a' + x
    ensures SumsTo(a', b + x, c, d, e, all)
  {
  }

  lemma QueueRemoveConserves(s: State, when: int, id: nat)
    requires Conserved(s)
    ensures Conserved(Apply(s, QueueRemove(when, id)))
  {
    GatherAppend(InOp, s.ops, Remove(when, id));
  }

  lemma StepKeepsInv(s: State, st: Step)
    requires Inv(s) && Enabled(s, st)
    ensures Inv(Apply(s, st))
  {
    match st
    case DrawId(a, when, handle) => DrawKeepsInv(s, a, when, handle);
    case SkipId =>
    case QueueInsert(a) => QueueInsertConserves(s, a);
    case QueueRemove(when, id) => QueueRemoveConserves(s, when, id);
    case BeginPass =>
    case DrainOne => if s.ops != [] { DrainKeepsInv(s); }
    case FireDue(clock) => FireKeepsInv(s, clock);
  }

  lemma InitEstablishes(s: State)
    requires Init(s)
    ensures Inv(s)
  {
    GatherEmpty(InInserter, s.inserters);
  }

  lemma ReachableInv(s: State)
    requires Reachable(s)
    ensures Inv(s)
  {
    forall a | Init(a) ensures Inv(a) { InitEstablishes(a); }
    forall a, b | Inv(a) && Next(a, b) ensures Inv(b) {
      var st :| Enabled(a, st) && b == Apply(a, st);
      StepKeepsInv(a, st);
    }
    Runs.InvariantIfReachable(Init, Next, Inv, s);
  }

  // ---- what holds in every reachable state ----

  /** Every timer that has drawn an id is, at any point, in exactly one place: on its way, in the map, removed or
      fired; no other timer is in any. */
  lemma EachTimerInExactlyOnePlace(s: State, x: Timer)
    requires Reachable(s)
    ensures Arriving(s, x) + multiset(s.timers)[x] + Finished(s, x) == if x in s.issued then 1 else 0
  {
    ReachableInv(s);
    if x in s.issued { IssuedOnce(s.issued, s.nextId, x); }
    PlacesAreIssued(s, x);
  }

  lemma FiresAtMostOnce(s: State, i: nat, j: nat)
    requires Reachable(s) && i < j < |s.fired|
    ensures s.fired[i].timer.id != s.fired[j].timer.id
  {
    ReachableInv(s);
    var x, y := s.fired[i].timer, s.fired[j].timer;
    if x.id == y.id {
      GatherOfTwo(InFiring, s.fired, i, j);
      assert Fired(s)[x] >= (multiset{x} + multiset{y})[x] && Fired(s)[y] >= (multiset{x} + multiset{y})[y];
      SameIdSameTimer(s, x, y);
      assert false;
    }
  }

  lemma FiresNeverEarly(s: State, i: nat)
    requires Reachable(s) && i < |s.fired|
    ensures s.fired[i].timer.when <= s.fired[i].clock + 1
  {
    ReachableInv(s);
  }

  /** Inserting a drained operation's timer always takes effect. */
  lemma InsertionIsNeverDropped(s: State)
    requires Reachable(s) && s.phase.Draining? && s.ops != [] && s.ops[0].Insert?
    ensures multiset(Apply(s, DrainOne).timers) == multiset(s.timers) + multiset{s.ops[0].timer}
  {
    ReachableInv(s);
    InsertionIsNew(s);
    InsertAdds(s.timers, s.ops[0].timer);
  }

  /** The map is by deadline; timers with the same deadline are in the order in which they drew their ids. */
  lemma MapIsInOrder(s: State, i: nat, j: nat)
    requires Reachable(s) && i < j < |s.timers|
    ensures Before(s.timers[i], s.timers[j])
    ensures var x, y := s.timers[i], s.timers[j];
      x.when < y.when || (x.when == y.when && exists a, b :: a < b && DrawnAt(s, x, a) && DrawnAt(s, y, b))
  {
    ReachableInv(s);
    SortedEach(s.timers, i, j);
    var a := MappedWasDrawn(s, i);
    var b := MappedWasDrawn(s, j);
    assert DrawnAt(s, s.timers[i], a) && DrawnAt(s, s.timers[j], b);
  }

  ghost predicate DrawnAt(s: State, x: Timer, a: nat) {
    a < |s.issued| && s.issued[a] == x
  }

  lemma MappedWasDrawn(s: State, i: nat) returns (a: nat)
    requires Inv(s) && i < |s.timers|
    ensures DrawnAt(s, s.timers[i], a)
  {
    PlacesAreIssued(s, s.timers[i]);
    assert s.timers[i] in multiset(s.timers) && s.timers[i] in multiset(s.issued);
    a :| a < |s.issued| && s.issued[a] == s.timers[i];
  }

  /** One pass fires exactly the entries due, in the map's order, and leaves exactly the later ones. */
  lemma PassFiresDueInOrder(s: State, clock: int)
    requires Reachable(s) && s.phase.Ready?
    ensures PassSplits(s, Apply(s, FireDue(clock)), Due(s.timers, clock + 1), clock)
  {
    assert Sorted(s.timers) by { ReachableInv(s); }
    var due, rest := PassParts(s, clock);
    SplitsIfParts(s, due, rest, clock);
  }

  /** The pass from `s` to `t` fired `due`, which was the part of the map up to `clock + 1`. */
  ghost predicate PassSplits(s: State, t: State, due: seq<Timer>, clock: int) {
    Splits(s.timers, due, t.timers, clock + 1) && AllFired(s.fired, t.fired, due, clock)
  }

  /** `after` is `before` followed by the firings of `due` in order. */
  ghost predicate AllFired(before: seq<Firing>, after: seq<Firing>, due: seq<Timer>, clock: int) {
    && before <= after && |after| == |before| + |due|
    && forall i :: 0 <= i < |due| ==> after[|before| + i] == Firing(due[i], clock)
  }

  lemma SplitsIfParts(s: State, due: seq<Timer>, rest: seq<Timer>, clock: int)
    requires Splits(s.timers, due, rest, clock + 1)
    ensures PassSplits(s, AfterPass(s, due, rest, clock), due, clock)
  {
  }

  // ---- what holds from some point of a run on ----

  /** What has been removed stays removed and what has fired stays fired, over any run. */
  lemma FinishedIsForever(s: State, t: State)
    requires Runs.Leads(Next, s, t)
    ensures s.removed <= t.removed && s.fired <= t.fired
  {
    var since := (a: State) => s.removed <= a.removed && s.fired <= a.fired;
    Runs.KeptIfLeads(Next, since, s, t);
  }

  lemma LeadsKeepsReachable(s: State, t: State)
    requires Reachable(s) && Runs.Leads(Next, s, t)
    ensures Reachable(t)
  {
    forall a, b | Reachable(a) && Next(a, b) ensures Reachable(b) { Runs.ReachableStep(Init, Next, a, b); }
    Runs.KeptIfLeads(Next, Reachable, s, t);
  }

  lemma RemovedHasNotFired(s: State, i: nat)
    requires Reachable(s) && i < |s.fired|
    ensures s.removed[s.fired[i].timer] == 0
  {
    ReachableInv(s);
    var x := s.fired[i].timer;
    GatherHas(InFiring, s.fired, i);
    assert Fired(s)[x] >= multiset{x}[x];
    SameIdSameTimer(s, x, x);
  }

  /** Once a removal has erased a timer, no later state has a firing of it. */
  lemma RemovedNeverFires(s: State, t: State, x: Timer, i: nat)
    requires Reachable(s) && s.removed[x] > 0 && Runs.Leads(Next, s, t) && i < |t.fired|
    ensures t.removed[x] > 0 && t.fired[i].timer != x
  {
    FinishedIsForever(s, t);
    LeadsKeepsReachable(s, t);
    RemovedHasNotFired(t, i);
  }

  /** Once a timer has fired it is never removed, nor fired again. */
  lemma FiredStaysFired(s: State, t: State, i: nat, j: nat)
    requires Reachable(s) && i < |s.fired| && Runs.Leads(Next, s, t) && i < j < |t.fired|
    ensures t.fired[i] == s.fired[i] && t.fired[j].timer != s.fired[i].timer && t.removed[s.fired[i].timer] == 0
  {
    FinishedIsForever(s, t);
    LeadsKeepsReachable(s, t);
    FiresAtMostOnce(t, i, j);
    RemovedHasNotFired(t, i);
  }

  /** Once a removal with a timer's own key has been drained, the timer is removed or fired for good, if and only if
      its insertion is not still on its way behind it. */
  lemma DrainedRemovalIsFinal(s: State, x: Timer)
    requires Reachable(s) && s.phase.Draining? && s.ops != [] && s.ops[0] == Remove(x.when, x.id) && x in s.issued
    ensures Finished(Apply(s, DrainOne), x) == 1 <==> Arriving(s, x) == 0
  {
    ReachableInv(s);
    var t := Apply(s, DrainOne);
    assert Places(t, x) == 1 by {
      DrainKeepsInv(s);
      IssuedOnce(s.issued, s.nextId, x);
      PlacesAreIssued(t, x);
    }
    ErasedIsAbsent(s.timers, x);
    assert Queued(t) == Queued(s);
  }

  lemma ErasedIsAbsent(ts: seq<Timer>, x: Timer)
    requires Sorted(ts)
    ensures multiset(MapErase(ts, x.when, x.id))[x] == 0
  {
    var left := MapErase(ts, x.when, x.id);
    EraseSorts(ts, x.when, x.id);
    if x in left {
      var i :| 0 <= i < |left| && left[i] == x;
      KeyInEach(left, i);
      assert false;
    }
  }

  lemma {:induction false} FiredSomewhere(fired: seq<Firing>, x: Timer) returns (i: nat)
    requires Gather(InFiring, fired)[x] > 0
    ensures i < |fired| && fired[i].timer == x
  {
    if fired[0].timer == x {
      i := 0;
    } else {
      i := FiredSomewhere(fired[1..], x);
      i := i + 1;
    }
  }

  /** No run that goes on from the draining of a timer's removal ever fires that timer, unless its insertion was still
      on its way. */
  lemma NeverFiresAfterDrainedRemoval(s: State, t: State, x: Timer, j: nat)
    requires Reachable(s) && s.phase.Draining? && s.ops != [] && s.ops[0] == Remove(x.when, x.id) && x in s.issued
    requires Arriving(s, x) == 0 && Runs.Leads(Next, Apply(s, DrainOne), t)
    requires |s.fired| <= j < |t.fired|
    ensures t.fired[j].timer != x
  {
    var drained := Apply(s, DrainOne);
    assert Next(s, drained);
    Runs.ReachableStep(Init, Next, s, drained);
    DrainedRemovalIsFinal(s, x);
    if drained.removed[x] > 0 {
      RemovedNeverFires(drained, t, x, j);
    } else {
      var i := FiredSomewhere(drained.fired, x);
      FiredStaysFired(drained, t, i, j);
    }
  }

  // ---- a pass that no other thread interrupts ----

  ghost function DrainAll(s: State): State
    requires s.phase.Draining?
    decreases |s.ops|
  {
    if s.ops == [] then Apply(s, DrainOne) else DrainAll(Apply(s, DrainOne))
  }

  /** The reactor's steps from the beginning of a pass to its end. */
  ghost function WholePass(s: State, clock: int): State
    requires s.phase.Off?
  {
    DrainAllEnds(Apply(s, BeginPass));
    Apply(DrainAll(Apply(s, BeginPass)), FireDue(clock))
  }

  lemma {:induction false} DrainAllEnds(s: State)
    requires s.phase.Draining?
    ensures DrainAll(s).phase.Ready? && DrainAll(s).ops == [] && DrainAll(s).timers == Drained(s.timers, s.ops)
    ensures DrainAll(s).fired == s.fired
    decreases |s.ops|
  {
    if s.ops != [] {
      DrainAllEnds(Apply(s, DrainOne));
    }
  }

  /** What a pass does, end to end: it applies what was queued, fires what is due and keeps the rest. */
  lemma WholePassFiresDue(s: State, clock: int)
    requires Inv(s) && s.phase.Off?
    ensures var t, ts := WholePass(s, clock), Drained(s.timers, s.ops);
      && t.ops == [] && t.phase.Off? && Splits(ts, Due(ts, clock + 1), t.timers, clock + 1)
      && t.fired == s.fired + Firings(Due(ts, clock + 1), clock)
  {
    var drained := DrainAll(Apply(s, BeginPass));
    DrainAllEnds(Apply(s, BeginPass));
    assert Sorted(drained.timers) by { DrainedIsSorted(s.timers, s.ops); }
    var due, rest := PassParts(drained, clock);
  }

  lemma {:induction false} DrainedIsSorted(ts: seq<Timer>, ops: seq<Op>)
    requires Sorted(ts)
    ensures Sorted(Drained(ts, ops))
    decreases |ops|
  {
    if ops != [] {
      match ops[0] {
        case Insert(t) => InsertSorts(ts, t);
        case Remove(when, id) => EraseSorts(ts, when, id);
      }
      DrainedIsSorted(ApplyOp(ts, ops[0]), ops[1..]);
    }
  }

  // ---- the reactor as the object its methods update ----

  /** The wait the timers ask for: none without timers, zero when something is due, else until the earliest. */
  function NextDuration(due: seq<Timer>, rest: seq<Timer>, now: int): Option<int> {
    if due != [] then Some(0) else if rest == [] then None else Some(rest[0].when - now)
  }

  /** The coroutines to resume, one for each timer, in order. */
  function Handles(ts: seq<Timer>): (r: seq<nat>)
    ensures |r| == |ts| && forall i :: 0 <= i < |ts| ==> r[i] == ts[i].handle
  {
    if ts == [] then [] else [ts[0].handle] + Handles(ts[1..])
  }

  lemma {:induction false} ErasingAnEntry(before: seq<Timer>, x: Timer, after: seq<Timer>)
    requires Sorted(before + [x] + after)
    ensures MapErase(before + [x] + after, x.when, x.id) == before + after
  {
    var ts := before + [x] + after;
    if before == [] {
      assert ts == [x] + after;
    } else {
      assert ts[1..] == before[1..] + [x] + after;
      ErasingAnEntry(before[1..], x, after);
      AboveEach(ts[0], ts[1..], |before| - 1);
      assert before + after == [before[0]] + (before[1..] + after);
    }
  }

  lemma {:induction false} OneMoreDue(ts: seq<Timer>, x: Timer, now: int)
    ensures Due(ts + [x], now) == Due(ts, now) + if x.when <= now then [x] else []
  {
    if ts == [] {
      assert ts + [x] == [x];
    } else {
      OneMoreDue(ts[1..], x, now);
      assert (ts + [x])[1..] == ts[1..] + [x];
    }
  }

  lemma {:induction false} OneMoreRest(ts: seq<Timer>, x: Timer, now: int)
    ensures Rest(ts + [x], now) == Rest(ts, now) + if x.when <= now then [] else [x]
  {
    if ts == [] {
      assert ts + [x] == [x];
    } else {
      OneMoreRest(ts[1..], x, now);
      assert (ts + [x])[1..] == ts[1..] + [x];
    }
  }

  /** The loop over the map stands at entry `k`: what is left of the map, what was collected and what is pending. */
  ghost predicate SplitUpTo(entries: seq<Timer>, k: nat, left: seq<Timer>, ready: seq<Timer>, pending: seq<Timer>,
                            now: int)
  {
    && k <= |entries| && left == pending + entries[k..] && Sorted(left)
    && ready == Due(entries[..k], now) && pending == Rest(entries[..k], now)
  }

  lemma SplitOneMore(entries: seq<Timer>, k: nat, left: seq<Timer>, ready: seq<Timer>, pending: seq<Timer>, now: int)
    requires SplitUpTo(entries, k, left, ready, pending, now) && k < |entries|
    ensures var x := entries[k];
      if x.when <= now then SplitUpTo(entries, k + 1, MapErase(left, x.when, x.id), ready + [x], pending, now)
      else SplitUpTo(entries, k + 1, left, ready, pending + [x], now)
  {
    var x := entries[k];
    assert entries[..k + 1] == entries[..k] + [x];
    OneMoreDue(entries[..k], x, now);
    OneMoreRest(entries[..k], x, now);
    assert left == pending + [x] + entries[k + 1..];
    if x.when <= now {
      ErasingAnEntry(pending, x, entries[k + 1..]);
      EraseSorts(left, x.when, x.id);
    }
  }

  lemma NewestIsArriving(s: State, x: Timer)
    requires Inv(s) && s.ops != [] && s.ops[|s.ops| - 1] == Insert(x)
    ensures Arriving(s, x) == 1 && Places(s, x) == 1
  {
    GatherHas(InOp, s.ops, |s.ops| - 1);
    assert Queued(s)[x] >= multiset{x}[x];
    SameIdSameTimer(s, x, x);
  }

  class Reactor {
    var mNextId: nat
    var mTimerOps: seq<Op>
    var mTimers: seq<Timer>
    ghost var inserters: seq<Inserter>
    ghost var phase: Phase
    ghost var issued: seq<Timer>
    ghost var removed: multiset<Timer>
    ghost var fired: seq<Firing>

    ghost function View(): State
      reads this
    {
      State(mNextId, inserters, mTimerOps, mTimers, phase, issued, removed, fired)
    }

    ghost predicate Can(st: Step)
      reads this
    {
      Inv(View()) && Enabled(View(), st)
    }

    constructor (ghost clients: nat)
      ensures Init(View()) && Inv(View()) && |inserters| == clients
    {
      mNextId, mTimerOps, mTimers := 0, [], [];
      inserters, phase := seq(clients, _ => Idle), Off;
      issued, removed, fired := [], multiset{}, [];
      new;
      InitEstablishes(View());
    }

    /** The atomic increment of the id generator. */
    method DrawTimerId(ghost a: nat, ghost when: int, ghost handle: nat) returns (id: nat)
      requires Can(DrawId(a, when, handle))
      modifies `mNextId, `inserters, `issued
      ensures View() == Apply(old(View()), DrawId(a, when, handle)) && Inv(View())
      ensures inserters[a] == Reserved(Timer(when, id, handle))
      ensures forall i :: 0 <= i < |old(issued)| ==> old(issued)[i].id != id
    {
      ghost var before := View();
      id := mNextId;
      mNextId := mNextId + 1;
      inserters, issued := inserters[a := Reserved(Timer(when, id, handle))], issued + [Timer(when, id, handle)];
      StepKeepsInv(before, DrawId(a, when, handle));
    }

    /** An insertion into another reactor draws from the same generator. */
    method DrawElsewhere()
      requires Inv(View())
      modifies `mNextId
      ensures View() == Apply(old(View()), SkipId) && Inv(View())
    {
      mNextId := mNextId + 1;
    }

    /** The lock region of an insertion. */
    method PushInsert(ghost a: nat, when: int, id: nat, handle: nat)
      requires Can(QueueInsert(a)) && inserters[a] == Reserved(Timer(when, id, handle))
      modifies `mTimerOps, `inserters
      ensures View() == Apply(old(View()), QueueInsert(a)) && Inv(View())
      ensures mTimerOps == old(mTimerOps) + [Insert(Timer(when, id, handle))]
    {
      ghost var before := View();
      mTimerOps := mTimerOps + [Insert(Timer(when, id, handle))];
      inserters := inserters[a := Idle];
      StepKeepsInv(before, QueueInsert(a));
    }

    /** Two steps; the id is new, and the timer is now in one place: on its way into the map. */
    method InsertTimer(ghost a: nat, when: int, handle: nat) returns (id: nat)
      requires Can(DrawId(a, when, handle))
      modifies `mNextId, `mTimerOps, `inserters, `issued
      ensures View() == Apply(Apply(old(View()), DrawId(a, when, handle)), QueueInsert(a)) && Inv(View())
      ensures forall i :: 0 <= i < |old(issued)| ==> old(issued)[i].id != id
      ensures Arriving(View(), Timer(when, id, handle)) == 1 && Places(View(), Timer(when, id, handle)) == 1
    {
      id := DrawTimerId(a, when, handle);
      ghost var drawn := View();
      PushInsert(a, when, id, handle);
      assert mTimerOps == drawn.ops + [Insert(Timer(when, id, handle))];
      NewestIsArriving(View(), Timer(when, id, handle));
    }

    method RemoveTimer(when: int, id: nat)
      requires Inv(View())
      modifies `mTimerOps
      ensures View() == Apply(old(View()), QueueRemove(when, id)) && Inv(View())
      ensures mTimerOps == old(mTimerOps) + [Remove(when, id)]
    {
      StepKeepsInv(View(), QueueRemove(when, id));
      mTimerOps := mTimerOps + [Remove(when, id)];
    }

    /** One round of the draining loop: a lock region that pops, then the operation on the map. */
    method DrainOp() returns (more: bool)
      requires Can(DrainOne)
      modifies `mTimerOps, `mTimers, `phase, `removed
      ensures View() == Apply(old(View()), DrainOne) && Inv(View())
      ensures more <==> old(mTimerOps) != []
    {
      ghost var s := View();
      more := mTimerOps != [];
      if more {
        var op := mTimerOps[0];
        removed := removed + ErasedBy(mTimers, op);
        mTimerOps := mTimerOps[1..];
        ApplyToMap(op);
      } else {
        phase := Ready;
      }
      assert View() == Apply(s, DrainOne);
      StepKeepsInv(s, DrainOne);
    }

    method ApplyToMap(op: Op)
      modifies `mTimers
      ensures mTimers == ApplyOp(old(mTimers), op)
    {
      match op {
        case Insert(t) => mTimers := MapInsert(mTimers, t);
        case Remove(when, id) => mTimers := MapErase(mTimers, when, id);
      }
    }

    method ProcessTimeOps()
      requires Inv(View()) && phase == Draining
      modifies `mTimerOps, `mTimers, `phase, `removed
      ensures View() == DrainAll(old(View())) && Inv(View())
    {
      var more := true;
      while more
        invariant Inv(View())
        invariant if more then phase == Draining && DrainAll(View()) == DrainAll(old(View()))
                  else View() == DrainAll(old(View()))
        decreases |mTimerOps|, more
      {
        more := DrainOp();
      }
    }

    /** The smallest deadline of a non-empty list. */
    method MinElement(pending: seq<Timer>) returns (least: int)
      requires pending != []
      ensures exists i :: 0 <= i < |pending| && pending[i].when == least
      ensures forall i :: 0 <= i < |pending| ==> least <= pending[i].when
    {
      least := pending[0].when;
      for k := 1 to |pending|
        invariant exists i :: 0 <= i < k && pending[i].when == least
        invariant forall i :: 0 <= i < k ==> least <= pending[i].when
      {
        if pending[k].when < least {
          least := pending[k].when;
        }
      }
    }

    /** The loop over the map: due entries are collected and erased, the others are pending. */
    method SplitTimers(now: int) returns (ready: seq<Timer>, pending: seq<Timer>)
      requires Sorted(mTimers)
      modifies `mTimers
      ensures ready == Due(old(mTimers), now) && pending == Rest(old(mTimers), now) && mTimers == pending
    {
      var entries := mTimers;
      ready, pending := [], [];
      for k := 0 to |entries|
        invariant SplitUpTo(entries, k, mTimers, ready, pending, now)
      {
        var x := entries[k];
        SplitOneMore(entries, k, mTimers, ready, pending, now);
        if x.when <= now {
          ready := ready + [x];
          mTimers := MapErase(mTimers, x.when, x.id);
        } else {
          pending := pending + [x];
        }
      }
      assert entries[..|entries|] == entries;
    }

    /** The wait the split asks for, clamped at zero. */
    method NextTimeout(ready: seq<Timer>, pending: seq<Timer>, now: int) returns (duration: Option<int>)
      requires Sorted(pending) && forall i :: 0 <= i < |pending| ==> pending[i].when > now
      ensures duration == NextDuration(ready, pending, now)
    {
      duration := None;
      if ready == [] {
        if pending != [] {
          var least := MinElement(pending);
          FirstIsLeast(pending, least);
          duration := Some(if least - now < 0 then 0 else least - now);
        }
      } else {
        duration := Some(0);
      }
    }

    /** The splitting half of a pass. */
    method FireTimers(clock: int) returns (ready: seq<Timer>, pending: seq<Timer>)
      requires Can(FireDue(clock))
      modifies `mTimers, `fired, `phase
      ensures View() == Apply(old(View()), FireDue(clock)) && Inv(View())
      ensures ready == Due(old(mTimers), clock + 1) && pending == Rest(old(mTimers), clock + 1)
      ensures fired == old(fired) + Firings(ready, clock) && mTimers == pending
    {
      ghost var before := View();
      ready, pending := SplitTimers(clock + 1);
      fired, phase := fired + Firings(ready, clock), Off;
      assert View() == Apply(before, FireDue(clock));
      StepKeepsInv(before, FireDue(clock));
    }

    method StartPass()
      requires Can(BeginPass)
      modifies `phase
      ensures View() == Apply(old(View()), BeginPass) && Inv(View())
    {
      phase := Draining;
    }

    /** A whole pass without interruption: its steps are those of the protocol, and it reports the handles of what it
        fired, in order, and the wait that the entries left ask for. */
    method ProcessTimers(clock: int) returns (handles: seq<nat>, duration: Option<int>)
      requires Can(BeginPass)
      modifies `mTimerOps, `mTimers, `phase, `removed, `fired
      ensures View() == WholePass(old(View()), clock) && Inv(View())
      ensures ReportsFirings(old(fired), fired, clock, handles)
      ensures ReportsWait(handles, mTimers, clock + 1, duration)
      ensures var ts, now := Drained(old(mTimers), old(mTimerOps)), clock + 1;
        mTimers == Rest(ts, now) && duration == NextDuration(Due(ts, now), Rest(ts, now), now)
    {
      DrainAllEnds(Apply(View(), BeginPass));
      StartPass();
      ProcessTimeOps();
      handles, duration := ReportTimers(clock);
    }

    /** The second half of a pass: fire, and say whom to resume and how long to wait. */
    method ReportTimers(clock: int) returns (handles: seq<nat>, duration: Option<int>)
      requires Can(FireDue(clock))
      modifies `mTimers, `fired, `phase
      ensures View() == Apply(old(View()), FireDue(clock)) && Inv(View())
      ensures ReportsFirings(old(fired), fired, clock, handles)
      ensures ReportsWait(handles, mTimers, clock + 1, duration)
      ensures var ts, now := old(mTimers), clock + 1;
        mTimers == Rest(ts, now) && duration == NextDuration(Due(ts, now), Rest(ts, now), now)
    {
      WaitReport(mTimers, clock + 1);
      FiringsReport(fired, Due(mTimers, clock + 1), clock);
      var ready, pending := FireTimers(clock);
      duration := NextTimeout(ready, pending, clock + 1);
      handles := Handles(ready);
    }
  }

  /** The handles reported are those of the timers fired in this pass, in order, and nobody else's. */
  ghost predicate ReportsFirings(before: seq<Firing>, after: seq<Firing>, clock: int, handles: seq<nat>) {
    && before <= after && |handles| == |after| - |before|
    && forall i :: 0 <= i < |handles| ==>
         after[|before| + i].timer.handle == handles[i] && after[|before| + i].clock == clock
  }

  /** The wait reported is none at all when something fired, else the time to the first timer left, which is later. */
  ghost predicate ReportsWait(handles: seq<nat>, left: seq<Timer>, now: int, duration: Option<int>) {
    && (forall i :: 0 <= i < |left| ==> now < left[i].when)
    && if handles != [] then duration == Some(0)
       else if left == [] then duration == None
       else duration == Some(left[0].when - now)
  }

  lemma FiringsReport(before: seq<Firing>, ready: seq<Timer>, clock: int)
    ensures ReportsFirings(before, before + Firings(ready, clock), clock, Handles(ready))
  {
  }

  lemma WaitReport(ts: seq<Timer>, now: int)
    requires Sorted(ts)
    ensures var due, rest := Due(ts, now), Rest(ts, now);
      Splits(ts, due, rest, now) && ReportsWait(Handles(due), rest, now, NextDuration(due, rest, now))
  {
    var due, rest := Due(ts, now), Rest(ts, now);
    DueAndRestSplit(ts, now);
  }

  lemma {:induction false} FirstIsLeast(ts: seq<Timer>, least: int)
    requires Sorted(ts) && ts != []
    requires exists i :: 0 <= i < |ts| && ts[i].when == least
    requires forall i :: 0 <= i < |ts| ==> least <= ts[i].when
    ensures least == ts[0].when
  {
    var i :| 0 <= i < |ts| && ts[i].when == least;
    if i != 0 {
      SortedEach(ts, 0, i);
    }
  }
}
