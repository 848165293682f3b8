/** The locked deque under the pools and the primitives: push at the back, pop at the front, steal at the back. */
module MpmcQueue {
  import opened Wrappers
  import opened Sums

  datatype Op<T> = Push(value: T) | Pop | Steal

  /** A deque with its history. Elements are named by their arrival, the index of their push. */
  datatype History<T> = History(pushed: seq<T>, held: seq<nat>, popped: seq<nat>, stolen: seq<nat>)

  ghost function After<T>(h: History<T>, op: Op<T>): History<T> {
    match op
    case Push(v) => h.(pushed := h.pushed + [v], held := h.held + [|h.pushed|])
    case Pop => if h.held == [] then h else h.(held := h.held[1..], popped := h.popped + [h.held[0]])
    case Steal =>
      if h.held == [] then h
      else h.(held := h.held[..|h.held| - 1], stolen := h.stolen + [h.held[|h.held| - 1]])
  }

  ghost predicate Ascending(xs: seq<nat>) {
    forall i, j :: 0 <= i < j < |xs| ==> xs[i] < xs[j]
  }

  ghost predicate Below(xs: seq<nat>, n: nat) {
    forall i :: 0 <= i < |xs| ==> xs[i] < n
  }

  /** Everything popped arrived before everything still held, both in order of arrival. */
  ghost predicate InOrder<T>(h: History<T>) {
    Ascending(h.popped + h.held) && Below(h.popped + h.held, |h.pushed|)
  }

  /** `data` is what the history holds, front to back, and the history is in order with every arrival in one place. */
  ghost predicate Holds<T>(h: History<T>, data: seq<T>) {
    && InOrder(h) && EachOnce(h)
    && |data| == |h.held|
    && forall i :: 0 <= i < |data| ==> h.held[i] < |h.pushed| && h.pushed[h.held[i]] == data[i]
  }

  /** Every arrival is held, popped or stolen, once. */
  ghost predicate EachOnce<T>(h: History<T>) {
    forall x: nat :: Places(h, x) == if x < |h.pushed| then 1 else 0
  }

  ghost function Places<T>(h: History<T>, x: nat): nat {
    multiset(h.popped)[x] + multiset(h.stolen)[x] + multiset(h.held)[x]
  }

  lemma AppendKeepsOrder(xs: seq<nat>, n: nat)
    requires Ascending(xs) && Below(xs, n)
    ensures Ascending(xs + [n]) && Below(xs + [n], n + 1)
  {
  }

  lemma PrefixKeepsOrder(xs: seq<nat>, k: nat, n: nat)
    requires Ascending(xs) && Below(xs, n) && k <= |xs|
    ensures Ascending(xs[..k]) && Below(xs[..k], n)
  {
  }

  lemma AfterKeepsOrder<T>(h: History<T>, op: Op<T>)
    requires InOrder(h)
    ensures InOrder(After(h, op))
  {
    var t, before := After(h, op), h.popped + h.held;
    match op
    case Push(v) =>
      AppendKeepsOrder(before, |h.pushed|);
      assert t.popped + t.held == before + [|h.pushed|];
    case Pop => assert t.popped + t.held == before;
    case Steal =>
      if h.held != [] {
        PrefixKeepsOrder(before, |before| - 1, |h.pushed|);
        assert t.popped + t.held == before[..|before| - 1];
      }
  }

  lemma AfterKeepsOnce<T>(h: History<T>, op: Op<T>)
    requires EachOnce(h)
    ensures EachOnce(After(h, op))
  {
    var t := After(h, op);
    if op.Pop? && h.held != [] { TakeFirst(h.held); }
    if op.Steal? && h.held != [] { TakeLast(h.held); }
    forall x: nat ensures Places(t, x) == if x < |t.pushed| then 1 else 0 {
      assert Places(h, x) == if x < |h.pushed| then 1 else 0;
    }
  }

  /** What has been popped arrived before what is held, both oldest first. */
  lemma HeldInOrder<T>(h: History<T>, data: seq<T>)
    requires Holds(h, data)
    ensures forall a, b :: 0 <= a < b < |h.popped| ==> h.popped[a] < h.popped[b]
    ensures forall a, k :: 0 <= a < |h.popped| && 0 <= k < |h.held| ==> h.popped[a] < h.held[k]
    ensures forall j, k :: 0 <= j < k < |h.held| ==> h.held[j] < h.held[k]
    ensures forall x: nat :: x < |h.pushed| ==> Places(h, x) == 1
  {
    var all := h.popped + h.held;
    assert forall a :: 0 <= a < |h.popped| ==> h.popped[a] == all[a];
    assert forall k :: 0 <= k < |h.held| ==> h.held[k] == all[|h.popped| + k];
  }

  lemma PushHolds<T>(h: History<T>, data: seq<T>, v: T)
    requires Holds(h, data)
    ensures Holds(After(h, Push(v)), data + [v])
  {
    AfterKeepsOrder(h, Push(v));
    AfterKeepsOnce(h, Push(v));
  }

  lemma PopHolds<T>(h: History<T>, data: seq<T>)
    requires Holds(h, data) && data != []
    ensures Holds(After(h, Pop), data[1..])
    ensures After(h, Pop).popped == h.popped + [h.held[0]] && h.pushed[h.held[0]] == data[0]
  {
    AfterKeepsOrder(h, Pop);
    AfterKeepsOnce(h, Pop);
  }

  lemma StealHolds<T>(h: History<T>, data: seq<T>)
    requires Holds(h, data) && data != []
    ensures Holds(After(h, Steal), data[..|data| - 1])
  {
    AfterKeepsOrder(h, Steal);
    AfterKeepsOnce(h, Steal);
  }

  /** Over any run of operations, every arrival is in one place only and pops keep to the order of arrival. */
  ghost function Run<T>(ops: seq<Op<T>>): (h: History<T>)
    ensures InOrder(h) && EachOnce(h)
    decreases |ops|
  {
    if ops == [] then History([], [], [], [])
    else
      var before, op := Run(ops[..|ops| - 1]), ops[|ops| - 1];
      AfterKeepsOrder(before, op);
      AfterKeepsOnce(before, op);
      After(before, op)
  }

  /** However pops and steals interleave, pops come out in the order of the pushes, whatever thieves took meanwhile. */
  lemma PopsFollowPushes<T>(ops: seq<Op<T>>, i: nat, j: nat)
    requires i < j < |Run(ops).popped|
    ensures Run(ops).popped[i] < Run(ops).popped[j] < |Run(ops).pushed|
  {
    var h := Run(ops);
    var all := h.popped + h.held;
    assert all[i] == h.popped[i] && all[j] == h.popped[j];
  }

  class Queue<T> {
    var mData: seq<T>
    ghost var history: History<T>

    ghost predicate Valid()
      reads this
    {
      Holds(history, mData)
    }

    constructor ()
      ensures Valid() && mData == []
    {
      mData, history := [], History([], [], [], []);
    }

    method PushBack(value: T)
      requires Valid()
      modifies this
      ensures Valid() && mData == old(mData) + [value] && history == After(old(history), Push(value))
    {
      PushHolds(history, mData, value);
      mData := mData + [value];
      history := After(history, Push(value));
    }

    method PopFront() returns (front: Option<T>)
      requires Valid()
      modifies this
      ensures Valid() && history == After(old(history), Pop)
      ensures front.None? <==> old(mData) == []
      ensures front.Some? ==> old(mData) == [front.value] + mData
      ensures front.Some? ==> front.value == history.pushed[history.popped[|history.popped| - 1]]
    {
      front := None;
      if mData != [] {
        PopHolds(history, mData);
        front := Some(mData[0]);
        mData := mData[1..];
        history := After(history, Pop);
      }
    }

    method StealBack() returns (back: Option<T>)
      requires Valid()
      modifies this
      ensures Valid() && history == After(old(history), Steal)
      ensures back.None? <==> old(mData) == []
      ensures back.Some? ==> old(mData) == mData + [back.value]
    {
      back := None;
      if mData != [] {
        StealHolds(history, mData);
        back := Some(mData[|mData| - 1]);
        mData := mData[..|mData| - 1];
        history := After(history, Steal);
      }
    }
  }
}
