/** The slab: a vector whose vacant entries are threaded into a free list by index, proved to be a finite map
    that reuses keys. */
module Slabs {
  import opened Wrappers

  datatype Entry<T> = Occupied(value: T) | Vacant(next: nat)

  datatype State<T> = State(entries: seq<Entry<T>>, len: int, next: nat)

  // ---- the operations on values ----

  ghost predicate InRange<T>(s: State<T>, key: nat) {
    key == |s.entries| || (key < |s.entries| && s.entries[key].Vacant?)
  }

  function InsertAt<T>(s: State<T>, key: nat, data: T): State<T>
    requires InRange(s, key)
  {
    if key == |s.entries| then State(s.entries + [Occupied(data)], s.len + 1, key + 1)
    else State(s.entries[key := Occupied(data)], s.len + 1, s.entries[key].next)
  }

  function TryRemove<T>(s: State<T>, key: nat): State<T> {
    if key < |s.entries| && s.entries[key].Occupied? then
      State(s.entries[key := Vacant(s.next)], s.len - 1, key)
    else s
  }

  function Lookup<T>(s: State<T>, key: nat): (r: Option<T>)
    ensures r == if key in Contents(s.entries) then Some(Contents(s.entries)[key]) else None
  {
    if key < |s.entries| && s.entries[key].Occupied? then Some(s.entries[key].value) else None
  }

  function Empty<T>(): State<T> { State([], 0, 0) }

  // ---- what a slab means ----

  /** The finite map a slab stands for. */
  ghost function Contents<T>(entries: seq<Entry<T>>): map<nat, T> {
    map k | 0 <= k < |entries| && entries[k].Occupied? :: entries[k].value
  }

  /** Following the links from `next` visits exactly `free`, in order, and ends at the size of the vector. */
  ghost predicate Links<T>(entries: seq<Entry<T>>, next: nat, free: seq<nat>)
    decreases |free|
  {
    if free == [] then next == |entries|
    else next == free[0] && next < |entries| && entries[next].Vacant? && Links(entries, entries[next].next, free[1..])
  }

  ghost predicate Distinct(free: seq<nat>) {
    forall i, j :: 0 <= i < j < |free| ==> free[i] != free[j]
  }

  /** The free list visits every vacant index exactly once, and `len` counts the occupied ones. */
  ghost predicate FreeList<T>(s: State<T>, free: seq<nat>) {
    && Links(s.entries, s.next, free)
    && Distinct(free)
    && (forall k :: 0 <= k < |s.entries| ==> (s.entries[k].Vacant? <==> k in free))
    && s.len + |free| == |s.entries|
    && s.len == |Contents(s.entries)|
  }

  ghost predicate Valid<T>(s: State<T>) {
    exists free :: FreeList(s, free)
  }

  lemma {:induction false} LinksAgree<T>(a: seq<Entry<T>>, b: seq<Entry<T>>, next: nat, free: seq<nat>)
    requires Links(a, next, free) && |a| == |b|
    requires forall k :: k in free && k < |a| ==> b[k] == a[k]
    ensures Links(b, next, free)
    decreases |free|
  {
    if free != [] {
      assert free[0] in free;
      LinksAgree(a, b, a[next].next, free[1..]);
    }
  }

  lemma {:induction false} LinksUnique<T>(entries: seq<Entry<T>>, next: nat, f: seq<nat>, g: seq<nat>)
    requires Links(entries, next, f) && Links(entries, next, g)
    ensures f == g
    decreases |f|
  {
    if f != [] && g != [] {
      LinksUnique(entries, entries[next].next, f[1..], g[1..]);
      assert f == [f[0]] + f[1..] && g == [g[0]] + g[1..];
    }
  }

  lemma {:induction false} LinksFrom<T>(entries: seq<Entry<T>>, next: nat, free: seq<nat>, i: nat)
    requires Links(entries, next, free) && i < |free|
    ensures free[i] < |entries| && entries[free[i]].Vacant? && Links(entries, entries[free[i]].next, free[i + 1..])
    decreases i
  {
    if i != 0 {
      LinksFrom(entries, entries[next].next, free[1..], i - 1);
      assert free[1..][i..] == free[i + 1..];
    }
  }

  lemma ContentsInsert<T>(entries: seq<Entry<T>>, key: nat, data: T)
    requires key < |entries| && entries[key].Vacant?
    ensures Contents(entries[key := Occupied(data)]) == Contents(entries)[key := data]
    ensures |Contents(entries[key := Occupied(data)])| == |Contents(entries)| + 1
  {
  }

  lemma ContentsAppend<T>(entries: seq<Entry<T>>, data: T)
    ensures Contents(entries + [Occupied(data)]) == Contents(entries)[|entries| := data]
    ensures |Contents(entries + [Occupied(data)])| == |Contents(entries)| + 1
  {
  }

  lemma ContentsRemove<T>(entries: seq<Entry<T>>, key: nat, next: nat)
    requires key < |entries| && entries[key].Occupied?
    ensures Contents(entries[key := Vacant(next)]) == Contents(entries) - {key}
    ensures |Contents(entries[key := Vacant(next)])| == |Contents(entries)| - 1
  {
  }

  // ---- refinement of the finite map with a stack of free keys ----

  ghost function AfterInsert(free: seq<nat>): seq<nat> {
    if free == [] then [] else free[1..]
  }

  /** Inserting returns a key not in use, binds it, and pops the free list. */
  lemma InsertRefinesMap<T>(s: State<T>, data: T, free: seq<nat>)
    requires FreeList(s, free)
    ensures InRange(s, s.next) && s.next !in Contents(s.entries)
    ensures s.next == if free == [] then |s.entries| else free[0]
    ensures var t := InsertAt(s, s.next, data);
      && Contents(t.entries) == Contents(s.entries)[s.next := data]
      && FreeList(t, AfterInsert(free))
      && |t.entries| == if |s.entries| < t.len then t.len else |s.entries|
  {
    var t := InsertAt(s, s.next, data);
    if free == [] {
      ContentsAppend(s.entries, data);
    } else {
      ContentsInsert(s.entries, s.next, data);
      PopKeepsLinks(s, data, free);
    }
  }

  lemma PopKeepsLinks<T>(s: State<T>, data: T, free: seq<nat>)
    requires FreeList(s, free) && free != []
    ensures var t := InsertAt(s, s.next, data);
      && Links(t.entries, t.next, free[1..]) && Distinct(free[1..])
      && forall k :: 0 <= k < |t.entries| ==> (t.entries[k].Vacant? <==> k in free[1..])
  {
    assert free == [free[0]] + free[1..];
    LinksAgree(s.entries, s.entries[s.next := Occupied(data)], s.entries[s.next].next, free[1..]);
  }

  /** Removing a key in use unbinds it and pushes it on the free list; removing any other key changes nothing. */
  lemma RemoveRefinesMap<T>(s: State<T>, key: nat, free: seq<nat>)
    requires FreeList(s, free)
    ensures var t := TryRemove(s, key);
      if key in Contents(s.entries) then
        && s.len > 0
        && Contents(t.entries) == Contents(s.entries) - {key} && FreeList(t, [key] + free) && |t.entries| == |s.entries|
      else t == s
  {
    if key in Contents(s.entries) {
      var t := TryRemove(s, key);
      ContentsRemove(s.entries, key, s.next);
      LinksAgree(s.entries, t.entries, s.next, free);
      assert ([key] + free)[1..] == free;
    }
  }

  /** `insertAt` keeps the free list if and only if it is given the head of the free list. */
  lemma InsertAtKeepsFreeListIffHead<T>(s: State<T>, key: nat, data: T)
    requires Valid(s) && InRange(s, key)
    ensures Valid(InsertAt(s, key, data)) <==> key == s.next
  {
    var free :| FreeList(s, free);
    var t := InsertAt(s, key, data);
    if key == s.next {
      InsertRefinesMap(s, data, free);
    } else {
      forall g | FreeList(t, g) ensures false {
        assert s.next < |s.entries| && s.next in free && s.next in g;
        if key != |s.entries| {
          var i :| 0 <= i < |free| && free[i] == key;
          LinksFrom(s.entries, s.next, free, i);
          var rest := free[i + 1..];
          forall k | k in rest ensures k != key && k != s.next {
            var j :| 0 <= j < |rest| && rest[j] == k;
            assert free[i + 1 + j] == k;
          }
          LinksAgree(s.entries, t.entries, t.next, rest);
          LinksUnique(t.entries, t.next, rest, g);
        }
      }
    }
  }

  /** Removing what was just inserted restores the map, the count and the head of the free list, and the very same
      state when a vacant entry was reused. */
  lemma RemoveUndoesInsert<T>(s: State<T>, data: T)
    requires Valid(s)
    ensures var key := s.next;
      && InRange(s, key)
      && var t := TryRemove(InsertAt(s, key, data), key);
         Contents(t.entries) == Contents(s.entries) && t.len == s.len && t.next == key && (key < |s.entries| ==> t == s)
  {
  }

  /** The key removed last is the next to be issued. */
  lemma RemovedKeyIsReused<T>(s: State<T>, key: nat, data: T)
    requires Valid(s) && key in Contents(s.entries)
    ensures var t := TryRemove(s, key);
      t.next == key && InRange(t, key) && Contents(InsertAt(t, key, data).entries) == Contents(s.entries)[key := data]
      && Valid(InsertAt(t, key, data))
  {
    var free :| FreeList(s, free);
    RemoveRefinesMap(s, key, free);
    InsertRefinesMap(TryRemove(s, key), data, [key] + free);
  }

  // ---- any run of operations ----

  datatype Op<T> = Insert(data: T) | Remove(key: nat) | Clear

  function Perform<T>(s: State<T>, op: Op<T>): State<T>
    requires InRange(s, s.next)
  {
    match op
    case Insert(data) => InsertAt(s, s.next, data)
    case Remove(key) => TryRemove(s, key)
    case Clear => Empty()
  }

  /** The reference: a finite map, a stack of keys to reuse and the number of keys ever needed at once. */
  datatype Reference<T> = Reference(items: map<nat, T>, spare: seq<nat>, size: nat)

  function RefPerform<T>(r: Reference<T>, op: Op<T>): Reference<T> {
    match op
    case Insert(data) =>
      if r.spare == [] then Reference(r.items[r.size := data], [], r.size + 1)
      else Reference(r.items[r.spare[0] := data], r.spare[1..], r.size)
    case Remove(key) =>
      if key in r.items then Reference(r.items - {key}, [key] + r.spare, r.size) else r
    case Clear => Reference(map[], [], 0)
  }

  function RefRun<T>(ops: seq<Op<T>>): Reference<T> {
    if ops == [] then Reference(map[], [], 0) else RefPerform(RefRun(ops[..|ops| - 1]), ops[|ops| - 1])
  }

  /** The most entries in use at once since the last clear. */
  function Peak<T>(ops: seq<Op<T>>): nat {
    if ops == [] || ops[|ops| - 1].Clear? then 0
    else
      var before, now := Peak(ops[..|ops| - 1]), |RefRun(ops).items|;
      if before < now then now else before
  }

  ghost predicate Refines<T>(s: State<T>, r: Reference<T>) {
    FreeList(s, r.spare) && Contents(s.entries) == r.items && |s.entries| == r.size
  }

  lemma EmptyRefines<T>()
    ensures Refines<T>(Empty<T>(), Reference(map[], [], 0))
  {
  }

  lemma PerformRefines<T>(s: State<T>, r: Reference<T>, op: Op<T>)
    requires Refines(s, r)
    ensures InRange(s, s.next) && Refines(Perform(s, op), RefPerform(r, op))
  {
    match op
    case Insert(data) => InsertRefinesMap(s, data, r.spare);
    case Remove(key) =>
      RemoveRefinesMap(s, key, r.spare);
      if r.spare == [] {} else { LinksFrom(s.entries, s.next, r.spare, 0); }
    case Clear => EmptyRefines<T>(); if r.spare == [] {} else { LinksFrom(s.entries, s.next, r.spare, 0); }
  }

  /** What the slab is after `ops`, starting empty. */
  ghost function Run<T>(ops: seq<Op<T>>): State<T>
    decreases |ops|, 0
  {
    if ops == [] then Empty()
    else
      var before, op := ops[..|ops| - 1], ops[|ops| - 1];
      RunRefinesMap(before);
      PerformRefines(Run(before), RefRun(before), op);
      Perform(Run(before), op)
  }

  /** After any run the slab holds the reference map, and following its links visits the reference's stack of free
      keys. */
  lemma {:induction false} RunRefinesMap<T>(ops: seq<Op<T>>)
    ensures Refines(Run(ops), RefRun(ops))
    decreases |ops|, 1
  {
    if ops == [] {
      EmptyRefines<T>();
    } else {
      var before := ops[..|ops| - 1];
      RunRefinesMap(before);
      PerformRefines(Run(before), RefRun(before), ops[|ops| - 1]);
    }
  }

  lemma RunThen<T>(before: seq<Op<T>>, s: State<T>, op: Op<T>) returns (ops: seq<Op<T>>, t: State<T>)
    requires Run(before) == s
    ensures InRange(s, s.next) && t == Perform(s, op) && ops == before + [op] && Run(ops) == t
  {
    RunRefinesMap(before);
    PerformRefines(s, RefRun(before), op);
    ops, t := before + [op], Perform(s, op);
    assert ops[..|before|] == before;
  }

  lemma RunIsValid<T>(ops: seq<Op<T>>)
    ensures Valid(Run(ops))
  {
    RunRefinesMap(ops);
  }

  /** The vector never grows beyond the peak number of entries in use at once, and always reaches it. */
  lemma {:induction false} SizeIsPeak<T>(ops: seq<Op<T>>)
    ensures |Run(ops).entries| == Peak(ops)
    decreases |ops|
  {
    if ops != [] {
      var before := ops[..|ops| - 1];
      SizeIsPeak(before);
      RunRefinesMap(before);
      PerformRefines(Run(before), RefRun(before), ops[|ops| - 1]);
      match ops[|ops| - 1]
      case Insert(data) => InsertRefinesMap(Run(before), data, RefRun(before).spare);
      case _ =>
    }
  }

  /** The key an insertion in position `i` of the run returned: the next key of the slab it met. */
  ghost function KeyIssued<T>(ops: seq<Op<T>>, i: nat): nat
    requires i < |ops| && ops[i].Insert?
  {
    Run(ops[..i]).next
  }

  lemma KeyIssuedByReference<T>(ops: seq<Op<T>>, i: nat)
    requires i < |ops| && ops[i].Insert?
    ensures var r := RefRun(ops[..i]); KeyIssued(ops, i) == if r.spare == [] then r.size else r.spare[0]
  {
    RunRefinesMap(ops[..i]);
  }

  ghost predicate KeysBelowSize<T>(r: Reference<T>) {
    && (forall i :: 0 <= i < |r.spare| ==> r.spare[i] < r.size)
    && (forall k :: k in r.items ==> k < r.size)
  }

  lemma {:induction false} RunKeepsKeysBelowSize<T>(ops: seq<Op<T>>)
    ensures KeysBelowSize(RefRun(ops))
    decreases |ops|
  {
    if ops != [] {
      RunKeepsKeysBelowSize(ops[..|ops| - 1]);
    }
  }

  lemma {:induction false} SizeKeepsUp<T>(ops: seq<Op<T>>, i: nat)
    requires i < |ops| && ops[i].Insert?
    requires forall j :: i <= j < |ops| ==> !ops[j].Clear?
    ensures KeyIssued(ops, i) < RefRun(ops).size
    decreases |ops|
  {
    var before := ops[..|ops| - 1];
    if i == |ops| - 1 {
      KeyIssuedByReference(ops, i);
      RunKeepsKeysBelowSize(before);
      assert ops[..i] == before;
    } else {
      assert before[..i] == ops[..i];
      SizeKeepsUp(before, i);
    }
  }

  /** A key issued since the last clear, stale or not, is within the bound that `get` asserts. */
  lemma {:induction false} StaleKeyIsInBounds<T>(ops: seq<Op<T>>, i: nat)
    requires i < |ops| && ops[i].Insert? && forall j :: i <= j < |ops| ==> !ops[j].Clear?
    ensures KeyIssued(ops, i) < |Run(ops).entries|
  {
    SizeKeepsUp(ops, i);
    RunRefinesMap(ops);
  }

  /** The insertion in position `i` issued `key`, and the key has been neither removed nor cleared since. */
  ghost predicate StillBound<T>(ops: seq<Op<T>>, i: nat, key: nat) {
    && i < |ops| && ops[i].Insert? && KeyIssued(ops, i) == key
    && forall j :: i < j < |ops| ==> !ops[j].Clear? && ops[j] != Remove(key)
  }

  /** What was inserted last under a key, and neither removed nor cleared since, is what the slab answers for it. */
  lemma {:induction false} BoundIsFound<T>(ops: seq<Op<T>>, i: nat, key: nat)
    requires StillBound(ops, i, key)
    ensures Lookup(Run(ops), key) == Some(ops[i].data)
    decreases |ops|
  {
    var before, op := ops[..|ops| - 1], ops[|ops| - 1];
    RunRefinesMap(before);
    PerformRefines(Run(before), RefRun(before), op);
    if i < |ops| - 1 {
      assert before[..i] == ops[..i];
      BoundIsFound(before, i, key);
      match op
      case Insert(data) => InsertRefinesMap(Run(before), data, RefRun(before).spare);
      case Remove(other) => RemoveRefinesMap(Run(before), other, RefRun(before).spare);
    } else {
      assert ops[..i] == before;
      InsertRefinesMap(Run(before), op.data, RefRun(before).spare);
    }
  }

  /** What is found after an operation that did not bind the key was there before it. */
  lemma FoundBefore<T>(s: State<T>, r: Reference<T>, op: Op<T>, key: nat)
    requires Refines(s, r) && InRange(s, s.next) && Lookup(Perform(s, op), key).Some?
    requires !(op.Insert? && s.next == key)
    ensures Lookup(s, key).Some? && !op.Clear? && op != Remove(key)
  {
    match op
    case Insert(data) => InsertRefinesMap(s, data, r.spare);
    case Remove(other) => RemoveRefinesMap(s, other, r.spare);
    case Clear =>
  }

  lemma BoundLonger<T>(ops: seq<Op<T>>, op: Op<T>, i: nat, key: nat)
    requires StillBound(ops, i, key) && !op.Clear? && op != Remove(key)
    ensures StillBound(ops + [op], i, key)
  {
    assert (ops + [op])[..i] == ops[..i];
  }

  lemma BoundByTheLast<T>(ops: seq<Op<T>>, op: Op<T>)
    requires op.Insert?
    ensures StillBound(ops + [op], |ops|, Run(ops).next)
  {
    assert (ops + [op])[..|ops|] == ops;
  }

  lemma {:induction false} FoundIsBound<T>(ops: seq<Op<T>>, key: nat) returns (i: nat)
    requires Lookup(Run(ops), key).Some?
    ensures StillBound(ops, i, key)
    decreases |ops|
  {
    var before, op := ops[..|ops| - 1], ops[|ops| - 1];
    assert ops == before + [op];
    if op.Insert? && Run(before).next == key {
      i := |before|;
      BoundByTheLast(before, op);
    } else {
      RunRefinesMap(before);
      PerformRefines(Run(before), RefRun(before), op);
      FoundBefore(Run(before), RefRun(before), op, key);
      i := FoundIsBound(before, key);
      BoundLonger(before, op, i, key);
    }
  }

  /** After any run a key is found if and only if some insertion issued it and it was neither removed nor cleared since,
      and the answer is what that insertion put there. */
  lemma LookupFindsWhatWasInserted<T>(ops: seq<Op<T>>, key: nat)
    ensures Lookup(Run(ops), key).Some? <==> exists i :: StillBound(ops, i, key)
    ensures forall i: nat :: StillBound(ops, i, key) ==> Lookup(Run(ops), key) == Some(ops[i].data)
  {
    if Lookup(Run(ops), key).Some? {
      var i := FoundIsBound(ops, key);
    }
    forall i: nat | StillBound(ops, i, key) ensures Lookup(Run(ops), key) == Some(ops[i].data) {
      BoundIsFound(ops, i, key);
    }
  }

  // ---- rebuilding the free list ----

  /** The vacant indices from `lo` on, in ascending order. */
  ghost function VacantFrom<T>(entries: seq<Entry<T>>, lo: nat): (r: seq<nat>)
    ensures forall k :: k in r <==> lo <= k < |entries| && entries[k].Vacant?
    decreases |entries| - lo
  {
    if lo >= |entries| then []
    else if entries[lo].Vacant? then [lo] + VacantFrom(entries, lo + 1)
    else VacantFrom(entries, lo + 1)
  }

  ghost predicate Ascending(free: seq<nat>) {
    forall i, j :: 0 <= i < j < |free| ==> free[i] < free[j]
  }

  lemma {:induction false} VacantAscending<T>(entries: seq<Entry<T>>, lo: nat)
    ensures Ascending(VacantFrom(entries, lo))
    decreases |entries| - lo
  {
    if lo < |entries| {
      VacantAscending(entries, lo + 1);
      var r, rest := VacantFrom(entries, lo), VacantFrom(entries, lo + 1);
      forall i, j | 0 <= i < j < |r| ensures r[i] < r[j] {
        assert entries[lo].Vacant? ==> r[j] == rest[j - 1] && rest[j - 1] in rest;
      }
    }
  }

  lemma {:induction false} VacantSuffix<T>(entries: seq<Entry<T>>, lo: nat, hi: nat)
    requires lo <= hi
    ensures |VacantFrom(entries, hi)| <= |VacantFrom(entries, lo)|
    ensures |VacantFrom(entries, hi)| == |VacantFrom(entries, lo)| ==>
              VacantFrom(entries, hi) == VacantFrom(entries, lo)
    decreases hi - lo
  {
    if lo < hi {
      VacantSuffix(entries, lo + 1, hi);
    }
  }

  /** Which entries are occupied, and with what, is the same; links may differ. */
  ghost predicate SameValues<T>(a: seq<Entry<T>>, b: seq<Entry<T>>) {
    && |a| == |b|
    && forall k :: 0 <= k < |a| ==> (a[k].Vacant? <==> b[k].Vacant?) && (a[k].Occupied? ==> a[k] == b[k])
  }

  lemma {:induction false} SameVacant<T>(a: seq<Entry<T>>, b: seq<Entry<T>>, lo: nat)
    requires SameValues(a, b)
    ensures VacantFrom(a, lo) == VacantFrom(b, lo)
    decreases |a| - lo
  {
    if lo < |a| {
      SameVacant(a, b, lo + 1);
    }
  }

  lemma {:induction false} VacantOfPrefix<T>(entries: seq<Entry<T>>, lo: nat)
    requires entries != [] && lo < |entries|
    ensures var before := VacantFrom(entries[..|entries| - 1], lo);
      VacantFrom(entries, lo) == if entries[|entries| - 1].Vacant? then before + [|entries| - 1] else before
    decreases |entries| - lo
  {
    var shorter := entries[..|entries| - 1];
    assert VacantFrom(entries, |entries|) == [];
    if lo < |entries| - 1 {
      VacantOfPrefix(entries, lo + 1);
      assert shorter[lo] == entries[lo];
    } else {
      assert VacantFrom(shorter, lo) == [];
    }
  }

  /** Every index is vacant or occupied. */
  lemma {:induction false} OccupiedAndVacant<T>(entries: seq<Entry<T>>)
    ensures |Contents(entries)| + |VacantFrom(entries, 0)| == |entries|
    decreases |entries|
  {
    if entries != [] {
      var before, last := entries[..|entries| - 1], entries[|entries| - 1];
      OccupiedAndVacant(before);
      VacantOfPrefix(entries, 0);
      assert entries == before + [last];
      if last.Occupied? {
        ContentsAppend(before, last.value);
      } else {
        assert Contents(entries) == Contents(before);
      }
    } else {
      assert Contents(entries) == map[];
    }
  }

  /** `t` is `s` with the free list rebuilt from index 1 upwards. */
  ghost predicate Rebuilt<T>(s: State<T>, t: State<T>) {
    && t.len == s.len
    && SameValues(s.entries, t.entries)
    && Links(t.entries, t.next, VacantFrom(t.entries, 1))
  }

  /** Rebuilding keeps the map. The result is a sound slab if and only if slot 0 was occupied or there are no slots:
      the rebuild never visits index 0. Nothing is asked of the old links. */
  lemma RebuiltIsValidIffSlotZeroOccupied<T>(s: State<T>, t: State<T>)
    requires s.len == |Contents(s.entries)| && Rebuilt(s, t)
    ensures Contents(t.entries) == Contents(s.entries)
    ensures Ascending(VacantFrom(t.entries, 1))
    ensures Valid(t) <==> s.entries == [] || s.entries[0].Occupied?
  {
    assert Contents(t.entries) == Contents(s.entries);
    var free := VacantFrom(t.entries, 1);
    OccupiedAndVacant(t.entries);
    VacantAscending(t.entries, 1);
    if s.entries == [] || s.entries[0].Occupied? {
      assert free == VacantFrom(t.entries, 0);
      assert Distinct(free);
      assert FreeList(t, free);
    } else if Valid(t) {
      var g :| FreeList(t, g);
      assert 0 in g;
      LinksUnique(t.entries, t.next, free, g);
    }
  }

  // ---- shrinking ----

  /** `after` is `before` without its vacant tail. */
  ghost predicate Shrunk<T>(before: seq<Entry<T>>, after: seq<Entry<T>>) {
    && after != [] && after <= before && after[|after| - 1].Occupied?
    && forall k :: |after| <= k < |before| ==> before[k].Vacant?
  }

  /** The free list, up to `i`, visits what is kept, and goes on to the first index dropped, then only to others
      dropped. */
  ghost predicate KeptFirst(free: seq<nat>, size: nat, i: nat) {
    && i < |free| && free[i] == size
    && (forall j :: 0 <= j < i ==> free[j] < size)
    && (forall j :: i <= j < |free| ==> free[j] >= size)
  }

  lemma {:induction false} LinksCut<T>(entries: seq<Entry<T>>, kept: seq<Entry<T>>, next: nat, free: seq<nat>, i: nat)
    requires Links(entries, next, free) && kept <= entries && i < |free| && free[i] == |kept|
    requires forall j :: 0 <= j < i ==> free[j] < |kept|
    ensures Links(kept, next, free[..i])
    decreases i
  {
    if i != 0 {
      assert free[0] < |kept|;
      LinksCut(entries, kept, entries[next].next, free[1..], i - 1);
      assert free[..i][1..] == free[1..][..i - 1];
    }
  }

  /** What the links visit within the kept entries is where the old list began. */
  lemma {:induction false} LinksShared<T>(entries: seq<Entry<T>>, kept: seq<Entry<T>>, next: nat, free: seq<nat>,
                                            g: seq<nat>)
    requires Links(entries, next, free) && Links(kept, next, g) && kept <= entries && |kept| < |entries|
    ensures |g| < |free| && g == free[..|g|] && free[|g|] == |kept|
    decreases |g|
  {
    if g != [] {
      LinksShared(entries, kept, kept[next].next, free[1..], g[1..]);
      assert g == [g[0]] + g[1..] && free == [free[0]] + free[1..];
    }
  }

  ghost function Members(free: seq<nat>): set<nat> { set k | k in free }

  lemma {:induction false} DistinctCount(free: seq<nat>)
    requires Distinct(free)
    ensures |Members(free)| == |free|
  {
    if free != [] {
      DistinctCount(free[1..]);
      assert free == [free[0]] + free[1..];
      assert Members(free) == Members(free[1..]) + {free[0]};
    }
  }

  lemma SameMembersSameLength(f: seq<nat>, g: seq<nat>)
    requires Distinct(f) && Distinct(g) && forall k :: k in f <==> k in g
    ensures |f| == |g|
  {
    DistinctCount(f);
    DistinctCount(g);
    assert Members(f) == Members(g);
  }

  /** Dropping the vacant tail leaves a sound slab when the free list visits the kept entries first. */
  lemma CutIsValid<T>(s: State<T>, kept: seq<Entry<T>>, free: seq<nat>, i: nat)
    requires FreeList(s, free) && Shrunk(s.entries, kept) && KeptFirst(free, |kept|, i)
    ensures FreeList(State(kept, s.len, s.next), free[..i])
  {
    LinksCut(s.entries, kept, s.next, free, i);
    forall k | 0 <= k < |kept| ensures kept[k].Vacant? <==> k in free[..i] {
      assert kept[k] == s.entries[k];
      if k in free { var j :| 0 <= j < |free| && free[j] == k; }
    }
    OccupiedAndVacant(kept);
    VacantAscending(kept, 0);
    forall k | k in free[..i] ensures k < |kept| {}
    SameMembersSameLength(free[..i], VacantFrom(kept, 0));
    assert Contents(kept) == Contents(s.entries);
  }

  /** If the slab is still sound, the free list visited the kept entries first. */
  lemma ValidCutIsKeptFirst<T>(s: State<T>, kept: seq<Entry<T>>, free: seq<nat>, g: seq<nat>)
    requires FreeList(s, free) && Shrunk(s.entries, kept) && |kept| < |s.entries|
    requires FreeList(State(kept, s.len, s.next), g)
    ensures KeptFirst(free, |kept|, |g|)
  {
    LinksShared(s.entries, kept, s.next, free, g);
    forall j | 0 <= j < |g| ensures free[j] < |kept| { LinksFrom(kept, s.next, g, j); }
    forall j | |g| <= j < |free| ensures free[j] >= |kept| {
      LinksFrom(s.entries, s.next, free, j);
    }
  }

  /** Shrinking alone keeps a sound slab sound if and only if it drops nothing, or the free list visits all kept
      vacancies first and then comes to the first index dropped. The code relinks nothing. */
  lemma ShrunkIsValidIffKeptFirst<T>(s: State<T>, kept: seq<Entry<T>>, free: seq<nat>)
    requires FreeList(s, free) && Shrunk(s.entries, kept)
    ensures Valid(State(kept, s.len, s.next)) <==> |kept| == |s.entries| || exists i :: KeptFirst(free, |kept|, i)
  {
    var t := State(kept, s.len, s.next);
    if |kept| == |s.entries| {
      assert t == s;
    } else {
      if i: nat :| KeptFirst(free, |kept|, i) { CutIsValid(s, kept, free, i); }
      if g :| FreeList(t, g) { ValidCutIsKeptFirst(s, kept, free, g); }
    }
  }

  /** Three insertions and two removals, shrunk: the next key is beyond the size, where inserting reads past the end. */
  lemma ShrinkingCanBreakTheFreeList(a: int, b: int, c: int) returns (s: State<int>, t: State<int>)
    ensures s == Run([Insert(a), Insert(b), Insert(c), Remove(1), Remove(2)])
    ensures s == State([Occupied(a), Vacant(3), Vacant(1)], 1, 2) && t == s.(entries := [Occupied(a)])
    ensures Valid(s) && Shrunk(s.entries, t.entries) && !Valid(t) && !InRange(t, t.next)
  {
    var ops;
    ops, s := RunThen([], Empty(), Insert(a));
    ops, s := RunThen(ops, s, Insert(b));
    ops, s := RunThen(ops, s, Insert(c));
    ops, s := RunThen(ops, s, Remove(1));
    ops, s := RunThen(ops, s, Remove(2));
    assert ops == [Insert(a), Insert(b), Insert(c), Remove(1), Remove(2)];
    RunIsValid(ops);
    t := s.(entries := [Occupied(a)]);
    NextIsInRange(t);
  }

  lemma NextIsInRange<T>(s: State<T>)
    ensures Valid(s) ==> InRange(s, s.next)
  {
    if free :| FreeList(s, free) {
      if free != [] { LinksFrom(s.entries, s.next, free, 0); }
    }
  }

  /** One insertion and its removal leave slot 0 vacant; rebuilding then loses it. */
  lemma RebuildingCanLoseSlotZero(a: int) returns (s: State<int>, t: State<int>)
    ensures s == Run([Insert(a), Remove(0)]) && Rebuilt(s, t) && t == State([Vacant(1)], 0, 1) && !Valid(t)
  {
    var ops;
    ops, s := RunThen([], Empty(), Insert(a));
    ops, s := RunThen(ops, s, Remove(0));
    t := State([Vacant(1)], 0, 1);
    RebuiltIsValidIffSlotZeroOccupied(s, t);
  }

  /** With both slots of two vacant, inserting at the one that is not next loses the other. */
  lemma InsertingOffTheHeadCanLoseASlot(a: int, b: int) returns (s: State<int>)
    ensures s == Run([Insert(a), Insert(b), Remove(0), Remove(1)]) && s.next == 1
    ensures InRange(s, 0) && InsertAt(s, 0, a) == State([Occupied(a), Vacant(0)], 1, 2) && !Valid(InsertAt(s, 0, a))
  {
    var ops;
    ops, s := RunThen([], Empty(), Insert(a));
    ops, s := RunThen(ops, s, Insert(b));
    ops, s := RunThen(ops, s, Remove(0));
    ops, s := RunThen(ops, s, Remove(1));
    assert ops == [Insert(a), Insert(b), Remove(0), Remove(1)];
    RunIsValid(ops);
    InsertAtKeepsFreeListIffHead(s, 0, a);
  }

  /** Shrinking cuts the free list's tail off; rebuilding after it gives a sound slab with the same map and no vacant
      tail, if and only if slot 0 is occupied. */
  lemma ShrinkThenRebuild<T>(s: State<T>, shrunk: seq<Entry<T>>, t: State<T>)
    requires s.len == |Contents(s.entries)| && Shrunk(s.entries, shrunk)
    requires Rebuilt(State(shrunk, s.len, s.next), t)
    ensures Contents(t.entries) == Contents(s.entries)
    ensures |t.entries| == |shrunk| && t.entries[|shrunk| - 1].Occupied?
    ensures Valid(t) <==> s.entries[0].Occupied?
  {
    assert Contents(shrunk) == Contents(s.entries);
    RebuiltIsValidIffSlotZeroOccupied(State(shrunk, s.len, s.next), t);
  }

  /** The vacant entries from `lo` on have been relinked. */
  ghost predicate Relinked<T>(before: seq<Entry<T>>, entries: seq<Entry<T>>, next: nat, lo: nat) {
    SameValues(before, entries) && Links(entries, next, VacantFrom(before, lo))
  }

  lemma RelinkStep<T>(before: seq<Entry<T>>, entries: seq<Entry<T>>, next: nat, i: nat)
    requires i < |entries| && Relinked(before, entries, next, i + 1)
    ensures if entries[i].Vacant? then
        && Relinked(before, entries[i := Vacant(next)], i, i)
        && |VacantFrom(before, i)| == |VacantFrom(before, i + 1)| + 1
      else VacantFrom(before, i) == VacantFrom(before, i + 1)
  {
    if entries[i].Vacant? {
      LinksAgree(entries, entries[i := Vacant(next)], next, VacantFrom(before, i + 1));
      assert VacantFrom(before, i)[1..] == VacantFrom(before, i + 1);
    }
  }

  /** Once all vacant entries have been seen, those further to the front are occupied and nothing is left to relink. */
  lemma AllRelinked<T>(before: seq<Entry<T>>, entries: seq<Entry<T>>, next: nat, i: nat)
    requires 1 <= i && Relinked(before, entries, next, i) && |VacantFrom(before, i)| == |VacantFrom(before, 0)|
    ensures Relinked(before, entries, next, 1)
  {
    VacantSuffix(before, 1, i);
    VacantSuffix(before, 0, 1);
  }

  /** The slab as the object its methods update. */
  class Slab<T> {
    var mEntries: seq<Entry<T>>
    var mLen: nat
    var mNext: nat

    ghost function View(): State<T>
      reads this
    {
      State(mEntries, mLen, mNext)
    }

    constructor ()
      ensures View() == Empty() && Valid(View())
    {
      mEntries, mLen, mNext := [], 0, 0;
      new;
      EmptyRefines<T>();
      assert FreeList(View(), []);
    }

    method ClearAll()
      modifies this
      ensures View() == Empty() && Valid(View())
    {
      mEntries, mLen, mNext := [], 0, 0;
      EmptyRefines<T>();
      assert FreeList(View(), []);
    }

    /** `key` must be the size or a vacant index. An occupied index fails the original's assertion; one beyond the size
        is an unchecked access past the end of the vector. */
    method InsertAtKey(key: nat, data: T)
      requires InRange(View(), key)
      modifies this
      ensures View() == InsertAt(old(View()), key, data)
      ensures old(Valid(View())) ==> (Valid(View()) <==> key == old(mNext))
    {
      ghost var before := View();
      mLen := mLen + 1;
      if key == |mEntries| {
        mEntries := mEntries + [Occupied(data)];
        mNext := key + 1;
      } else {
        mNext := mEntries[key].next;
        mEntries := mEntries[key := Occupied(data)];
      }
      if Valid(before) {
        InsertAtKeepsFreeListIffHead(before, key, data);
      }
    }

    method Insert(data: T) returns (key: nat)
      requires Valid(View())
      modifies this
      ensures key == old(mNext) && InRange(old(View()), key)
      ensures View() == InsertAt(old(View()), key, data) && Valid(View())
      ensures key !in Contents(old(mEntries)) && Contents(mEntries) == Contents(old(mEntries))[key := data]
      ensures mLen == |Contents(mEntries)|
      ensures |mEntries| == if |old(mEntries)| < mLen then mLen else |old(mEntries)|
    {
      ghost var free :| FreeList(View(), free);
      InsertRefinesMap(View(), data, free);
      key := mNext;
      InsertAtKey(key, data);
    }

    method Remove(key: nat) returns (removed: Option<T>)
      requires Valid(View())
      modifies this
      ensures View() == TryRemove(old(View()), key) && Valid(View())
      ensures removed == if key in Contents(old(mEntries)) then Some(Contents(old(mEntries))[key]) else None
      ensures Contents(mEntries) == Contents(old(mEntries)) - {key}
      ensures removed.Some? ==> mNext == key
      ensures |mEntries| == |old(mEntries)|
    {
      ghost var free :| FreeList(View(), free);
      RemoveRefinesMap(View(), key, free);
      if key < |mEntries| && mEntries[key].Occupied? {
        mLen := mLen - 1;
        removed := Some(mEntries[key].value);
        mEntries := mEntries[key := Vacant(mNext)];
        mNext := key;
      } else {
        removed := None;
        assert Contents(mEntries) == Contents(mEntries) - {key};
      }
    }

    /** `get` asserts that the index is below the size. */
    method Get(index: nat) returns (found: Option<T>)
      requires index < |mEntries|
      ensures found == if index in Contents(mEntries) then Some(Contents(mEntries)[index]) else None
    {
      found := if mEntries[index].Occupied? then Some(mEntries[index].value) else None;
    }

    /** Pops vacant entries off the back, and leaves the links alone. The original reads `back()` whether or not the
        vector is empty: the result says whether that is always defined, which it is if some entry is occupied. */
    method ShrinkToFit(ghost free: seq<nat>) returns (defined: bool)
      modifies `mEntries
      ensures defined <==> Contents(old(mEntries)) != map[]
      ensures defined ==> Shrunk(old(mEntries), mEntries)
      ensures Contents(mEntries) == Contents(old(mEntries))
      ensures defined && FreeList(old(View()), free) ==>
        (Valid(View()) <==> |mEntries| == |old(mEntries)| || exists i :: KeptFirst(free, |mEntries|, i))
    {
      ghost var before := View();
      while mEntries != [] && mEntries[|mEntries| - 1].Vacant?
        invariant mEntries <= before.entries
        invariant forall k :: |mEntries| <= k < |before.entries| ==> before.entries[k].Vacant?
        decreases |mEntries|
      {
        mEntries := mEntries[..|mEntries| - 1];
      }
      defined := mEntries != [];
      assert Contents(mEntries) == Contents(before.entries);
      if defined {
        assert |mEntries| - 1 in Contents(mEntries);
        if FreeList(before, free) { ShrunkIsValidIffKeptFirst(before, mEntries, free); }
      }
    }

    /** Relinks the vacant entries from the back, stopping early once all have been seen. */
    method RecreateVacantList()
      requires mLen == |Contents(mEntries)|
      modifies `mEntries, `mNext
      ensures Rebuilt(old(View()), View())
      ensures Valid(View()) <==> old(mEntries) == [] || old(mEntries)[0].Occupied?
    {
      ghost var before := View();
      OccupiedAndVacant(mEntries);
      mNext := |mEntries|;
      var remaining := |mEntries| - mLen;
      if remaining != 0 {
        var i := |mEntries| - 1;
        while i > 0
          invariant 0 <= i < |mEntries| && remaining > 0
          invariant Relinked(before.entries, mEntries, mNext, i + 1)
          invariant remaining + |VacantFrom(before.entries, i + 1)| == |VacantFrom(before.entries, 0)|
        {
          RelinkStep(before.entries, mEntries, mNext, i);
          if mEntries[i].Vacant? {
            mEntries := mEntries[i := Vacant(mNext)];
            mNext := i;
            remaining := remaining - 1;
            if remaining == 0 {
              AllRelinked(before.entries, mEntries, mNext, i);
              break;
            }
          }
          i := i - 1;
        }
      } else {
        VacantSuffix(mEntries, 0, 1);
      }
      assert Relinked(before.entries, mEntries, mNext, 1);
      SameVacant(before.entries, mEntries, 1);
      RebuiltIsValidIffSlotZeroOccupied(before, View());
    }
  }
}
