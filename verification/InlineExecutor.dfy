/** The inline executor: one thread runs every coroutine, draining a queue of detached tasks and waiting in the reactor
    for sleeping ones, until the root and all it spawned are done. */
module InlineExecutor {
  import opened Sums

  /** What a finite coroutine does between its resumptions: spawn detached tasks, sleep, end. */
  datatype Prog = End | SpawnDetach(child: Prog, next: Prog) | Sleep(next: Prog)

  /** A coroutine handle: a detached task, or the root of a `block`. Numbers are given out in order of creation. */
  datatype Job = Job(id: nat, detached: bool, prog: Prog)

  function Size(p: Prog): nat {
    match p
    case End => 1
    case SpawnDetach(child, next) => 1 + Size(child) + Size(next)
    case Sleep(next) => 1 + Size(next)
  }

  /** How many tasks a program spawns, it and those it spawns. */
  function Spawns(p: Prog): nat {
    match p
    case End => 0
    case SpawnDetach(child, next) => 1 + Spawns(child) + Spawns(next)
    case Sleep(next) => Spawns(next)
  }

  /** How often a program sleeps, it and those it spawns. */
  function Sleeps(p: Prog): nat {
    match p
    case End => 0
    case SpawnDetach(child, next) => Sleeps(child) + Sleeps(next)
    case Sleep(next) => 1 + Sleeps(next)
  }

  /** Where a program gives control up: at its first sleep or at its end. */
  function Stop(p: Prog): (r: Prog)
    ensures !r.SpawnDetach?
  {
    if p.SpawnDetach? then Stop(p.next) else p
  }

  /** The tasks a program spawns on the way there, numbered from `id`. */
  function Children(p: Prog, id: nat): seq<Job> {
    if p.SpawnDetach? then [Job(id, true, p.child)] + Children(p.next, id + 1) else []
  }

  /** The tasks that several coroutines spawn on their way, resumed one after the other. */
  function Offspring(js: seq<Job>, id: nat): seq<Job> {
    if js == [] then []
    else var own := Children(js[0].prog, id); own + Offspring(js[1..], id + |own|)
  }

  /** Those of them that end up asleep, each at what follows its sleep. */
  function Sleepers(js: seq<Job>): seq<Job> {
    if js == [] then [] else SleepersOf(js[0]) + Sleepers(js[1..])
  }

  function SleepersOf(j: Job): seq<Job> {
    var stop := Stop(j.prog);
    if stop.Sleep? then [j.(prog := stop.next)] else []
  }

  function JobSize(j: Job): nat { Size(j.prog) }
  function JobSpawns(j: Job): nat { Spawns(j.prog) }
  function JobSleeps(j: Job): nat { Sleeps(j.prog) }
  function IsDetached(j: Job): nat { if j.detached then 1 else 0 }
  function IsRoot(j: Job): nat { if j.detached then 0 else 1 }
  function HasId(x: nat): Job -> nat { (j: Job) => if j.id == x then 1 else 0 }

  function Ids(js: seq<Job>): seq<nat> {
    seq(|js|, i requires 0 <= i < |js| => js[i].id)
  }

  /** How the reactor reports expired sleepers in its k-th pass: which fire, in which order, and which stay. */
  type Reports = (nat, seq<Job>) -> (seq<Job>, seq<Job>)

  /** Signals interrupt finitely many passes, none from the `calm`-th on. */
  ghost predicate CalmsDown(signals: nat -> bool, calm: nat) {
    forall k :: calm <= k ==> !signals(k)
  }

  ghost predicate FiresSome(reports: Reports) {
    forall k: nat, js: seq<Job> :: js != [] ==> SplitsUp(js, reports(k, js).0, reports(k, js).1)
  }

  ghost predicate SplitsUp(js: seq<Job>, fired: seq<Job>, rest: seq<Job>) {
    fired != [] && multiset(fired) + multiset(rest) == multiset(js)
  }

  lemma SplitTotals(f: Job -> nat, js: seq<Job>, fired: seq<Job>, rest: seq<Job>)
    requires SplitsUp(js, fired, rest)
    ensures Total(f, fired) + Total(f, rest) == Total(f, js)
  {
    assert multiset(fired + rest) == multiset(js);
    TotalPermuted(f, fired + rest, js);
    TotalConcat(f, fired, rest);
  }

  // ---- the books of the executor, on values ----

  /** Queue, sleepers and the handles being resumed. `rootDone` says that no root is under way. */
  datatype Books = Books(
    queue: seq<Job>, sleeping: seq<Job>, held: seq<Job>,
    spawnCount: int, rootDone: bool, nextId: nat,
    ended: multiset<nat>, queued: seq<nat>, dequeued: seq<nat>, slept: nat)

  ghost function Sum(b: Books, f: Job -> nat): nat {
    Total(f, b.queue) + Total(f, b.sleeping) + Total(f, b.held)
  }

  /** Every task numbered so far is in exactly one place, or has ended. */
  ghost predicate EachOnce(b: Books) {
    forall x: nat :: Sum(b, HasId(x)) + b.ended[x] == if x < b.nextId then 1 else 0
  }

  ghost predicate Balanced(b: Books) {
    && EachOnce(b)
    && b.spawnCount == Sum(b, IsDetached)
    && Sum(b, IsRoot) == (if b.rootDone then 0 else 1)
    && b.queued == b.dequeued + Ids(b.queue)
  }

  /** Tasks are only ever added, and what has ended has ended. */
  ghost predicate Extends(a: Books, b: Books) {
    a.nextId <= b.nextId && a.queued <= b.queued && a.ended <= b.ended
  }

  /** From `a` to `b` every spawn and every sleep that the programs held still to do has been done or is still to do:
      no coroutine skips or repeats one. */
  ghost predicate Accounted(a: Books, b: Books) {
    && b.nextId + Sum(b, JobSpawns) == a.nextId + Sum(a, JobSpawns)
    && b.slept + Sum(b, JobSleeps) == a.slept + Sum(a, JobSleeps)
  }

  /** The work left, which every resumption reduces. */
  ghost function Work(b: Books): nat { Sum(b, JobSize) }

  /** From `a` to `b` a coroutine has gone from `p` on to `q`, past some of its spawns. */
  ghost predicate Passed(a: Books, b: Books, p: Prog, q: Prog) {
    && Balanced(b) && Work(b) <= Work(a) && Accounted(a, b) && Extends(a, b)
    && Stop(q) == Stop(p) && b.queue + Children(q, b.nextId) == a.queue + Children(p, a.nextId)
    && b.sleeping == a.sleeping && b.ended == a.ended && b.nextId == a.nextId + |b.queue| - |a.queue|
  }

  lemma PassedOn(a: Books, b: Books, c: Books, p: Prog, q: Prog, r: Prog)
    requires Passed(a, b, p, q) && Passed(b, c, q, r)
    ensures Passed(a, c, p, r)
  {
  }

  /** From `a` to `b` a coroutine has run `job` until it gives control up: its children are queued in order, and then
      it sleeps or has ended. */
  ghost predicate Resumed(a: Books, b: Books, job: Job) {
    var stop := Stop(job.prog);
    && Balanced(b) && Work(b) < Work(a) && Accounted(a, b) && Extends(a, b)
    && b.queue == a.queue + Children(job.prog, a.nextId) && b.nextId == a.nextId + |b.queue| - |a.queue|
    && b.ended == a.ended + (if stop.End? then multiset{job.id} else multiset{})
    && b.sleeping == a.sleeping + SleepersOf(job)
  }

  lemma PassedThenResumed(a: Books, b: Books, c: Books, job: Job, q: Prog)
    requires Passed(a, b, job.prog, q) && Resumed(b, c, job.(prog := q)) && !q.SpawnDetach?
    ensures Resumed(a, c, job)
  {
  }

  /** A detached task is queued, by whoever is running. */
  ghost function AfterSpawn(b: Books, child: Prog): Books {
    b.(queue := b.queue + [Job(b.nextId, true, child)], spawnCount := b.spawnCount + 1, nextId := b.nextId + 1,
       queued := b.queued + [b.nextId])
  }

  /** `block` starts a root. */
  ghost function AfterRoot(b: Books, prog: Prog): Books {
    b.(held := [Job(b.nextId, false, prog)], rootDone := false, nextId := b.nextId + 1)
  }

  /** The handle being resumed goes on behind what it has just spawned. */
  ghost function AfterTurn(b: Books): Books
    requires b.held != [] && b.held[0].prog.SpawnDetach?
  {
    b.(held := [b.held[0].(prog := b.held[0].prog.next)] + b.held[1..])
  }

  ghost function AfterSleep(b: Books): Books
    requires b.held != [] && b.held[0].prog.Sleep?
  {
    b.(sleeping := b.sleeping + [b.held[0].(prog := b.held[0].prog.next)], held := b.held[1..], slept := b.slept + 1)
  }

  /** The handle being resumed ends and its callback runs. */
  ghost function AfterEnd(b: Books): Books
    requires b.held != []
  {
    var j := b.held[0];
    b.(held := b.held[1..], ended := b.ended + multiset{j.id}, rootDone := b.rootDone || !j.detached,
       spawnCount := if j.detached then b.spawnCount - 1 else b.spawnCount)
  }

  /** The handle at the head of the queue is taken off it to be resumed. */
  ghost function AfterPop(b: Books): Books
    requires b.queue != []
  {
    b.(queue := b.queue[1..], held := [b.queue[0]], dequeued := b.dequeued + [b.queue[0].id])
  }

  /** From `a` to `b` the coroutines `js` have been resumed in order, all but `left`. */
  ghost predicate ResumedAllBut(a: Books, b: Books, js: seq<Job>, left: seq<Job>) {
    && Balanced(b) && Work(b) + |js| <= Work(a) + |left| && Accounted(a, b) && Extends(a, b)
    && b.queue + Offspring(left, b.nextId) == a.queue + Offspring(js, a.nextId)
    && b.sleeping + Sleepers(left) == a.sleeping + Sleepers(js)
  }

  lemma ResumedOneMore(a: Books, b: Books, c: Books, js: seq<Job>, left: seq<Job>)
    requires left != [] && ResumedAllBut(a, b, js, left) && Resumed(b, c, left[0])
    ensures ResumedAllBut(a, c, js, left[1..])
  {
    OffspringGoesOn(b.queue, left, b.nextId);
    assert |c.queue| - |b.queue| == |Children(left[0].prog, b.nextId)|;
    SleepersGoOn(b.sleeping, left);
  }

  lemma OffspringGoesOn(queue: seq<Job>, js: seq<Job>, id: nat)
    requires js != []
    ensures var own := Children(js[0].prog, id);
      queue + Offspring(js, id) == (queue + own) + Offspring(js[1..], id + |own|)
  {
  }

  lemma SleepersGoOn(sleeping: seq<Job>, js: seq<Job>)
    requires js != []
    ensures sleeping + Sleepers(js) == (sleeping + SleepersOf(js[0])) + Sleepers(js[1..])
  {
  }

  // What each of these does to a sum over all handles.

  lemma SpawnSum(b: Books, child: Prog, f: Job -> nat)
    ensures Sum(AfterSpawn(b, child), f) == Sum(b, f) + f(Job(b.nextId, true, child))
  {
    TotalAppend(f, b.queue, Job(b.nextId, true, child));
  }

  lemma RootSum(b: Books, prog: Prog, f: Job -> nat)
    requires b.held == []
    ensures Sum(AfterRoot(b, prog), f) == Sum(b, f) + f(Job(b.nextId, false, prog))
  {
    TotalOne(f, Job(b.nextId, false, prog));
  }

  lemma TurnSum(b: Books, f: Job -> nat)
    requires b.held != [] && b.held[0].prog.SpawnDetach?
    ensures Sum(AfterTurn(b), f) + f(b.held[0]) == Sum(b, f) + f(b.held[0].(prog := b.held[0].prog.next))
  {
    assert AfterTurn(b).held[1..] == b.held[1..];
  }

  lemma SleepSum(b: Books, f: Job -> nat)
    requires b.held != [] && b.held[0].prog.Sleep?
    ensures Sum(AfterSleep(b), f) + f(b.held[0]) == Sum(b, f) + f(b.held[0].(prog := b.held[0].prog.next))
  {
    TotalAppend(f, b.sleeping, b.held[0].(prog := b.held[0].prog.next));
  }

  lemma EndSum(b: Books, f: Job -> nat)
    requires b.held != []
    ensures Sum(AfterEnd(b), f) + f(b.held[0]) == Sum(b, f)
  {
  }

  lemma PopSum(b: Books, f: Job -> nat)
    requires b.queue != [] && b.held == []
    ensures Sum(AfterPop(b), f) == Sum(b, f)
  {
    TotalOne(f, b.queue[0]);
  }

  lemma ReportSum(b: Books, fired: seq<Job>, rest: seq<Job>, f: Job -> nat)
    requires b.held == [] && SplitsUp(b.sleeping, fired, rest)
    ensures Sum(b.(sleeping := rest, held := fired), f) == Sum(b, f)
  {
    SplitTotals(f, b.sleeping, fired, rest);
  }

  lemma SpawnKeepsBalance(b: Books, child: Prog)
    requires Balanced(b)
    ensures Balanced(AfterSpawn(b, child)) && Work(AfterSpawn(b, child)) == Work(b) + Size(child)
  {
    var t := AfterSpawn(b, child);
    SpawnSum(b, child, IsDetached);
    SpawnSum(b, child, IsRoot);
    SpawnSum(b, child, JobSize);
    forall x: nat ensures Sum(t, HasId(x)) + t.ended[x] == if x < t.nextId then 1 else 0 {
      SpawnSum(b, child, HasId(x));
      assert Sum(b, HasId(x)) + b.ended[x] == if x < b.nextId then 1 else 0;
    }
    assert Ids(t.queue) == Ids(b.queue) + [b.nextId];
  }

  lemma RootKeepsBalance(b: Books, prog: Prog)
    requires Balanced(b) && b.held == [] && b.rootDone
    ensures Balanced(AfterRoot(b, prog))
    ensures Sum(AfterRoot(b, prog), JobSpawns) == Sum(b, JobSpawns) + Spawns(prog)
    ensures Sum(AfterRoot(b, prog), JobSleeps) == Sum(b, JobSleeps) + Sleeps(prog)
  {
    var t := AfterRoot(b, prog);
    RootSum(b, prog, IsDetached);
    RootSum(b, prog, IsRoot);
    RootSum(b, prog, JobSpawns);
    RootSum(b, prog, JobSleeps);
    forall x: nat ensures Sum(t, HasId(x)) + t.ended[x] == if x < t.nextId then 1 else 0 {
      RootSum(b, prog, HasId(x));
      assert Sum(b, HasId(x)) + b.ended[x] == if x < b.nextId then 1 else 0;
    }
  }

  lemma TurnKeepsBalance(b: Books)
    requires Balanced(b) && b.held != [] && b.held[0].prog.SpawnDetach?
    ensures Balanced(AfterTurn(b)) && Work(AfterTurn(b)) + 1 + Size(b.held[0].prog.child) == Work(b)
  {
    var t := AfterTurn(b);
    TurnSum(b, IsDetached);
    TurnSum(b, IsRoot);
    TurnSum(b, JobSize);
    forall x: nat ensures Sum(t, HasId(x)) + t.ended[x] == if x < t.nextId then 1 else 0 {
      TurnSum(b, HasId(x));
      assert Sum(b, HasId(x)) + b.ended[x] == if x < b.nextId then 1 else 0;
    }
  }

  /** A coroutine that goes on past a spawn has spawned exactly that child. */
  lemma TurnPasses(b: Books)
    requires Balanced(b) && b.held != [] && b.held[0].prog.SpawnDetach?
    ensures var p := b.held[0].prog; Passed(b, AfterSpawn(AfterTurn(b), p.child), p, p.next)
  {
    var turned, child := AfterTurn(b), b.held[0].prog.child;
    TurnKeepsBalance(b);
    SpawnKeepsBalance(turned, child);
    TurnSum(b, JobSpawns);
    TurnSum(b, JobSleeps);
    SpawnSum(turned, child, JobSpawns);
    SpawnSum(turned, child, JobSleeps);
  }

  lemma SleepKeepsBalance(b: Books)
    requires Balanced(b) && b.held != [] && b.held[0].prog.Sleep?
    ensures Balanced(AfterSleep(b)) && Work(AfterSleep(b)) < Work(b) && Accounted(b, AfterSleep(b))
  {
    var t := AfterSleep(b);
    SleepSum(b, IsDetached);
    SleepSum(b, IsRoot);
    SleepSum(b, JobSize);
    SleepSum(b, JobSpawns);
    SleepSum(b, JobSleeps);
    forall x: nat ensures Sum(t, HasId(x)) + t.ended[x] == if x < t.nextId then 1 else 0 {
      SleepSum(b, HasId(x));
      assert Sum(b, HasId(x)) + b.ended[x] == if x < b.nextId then 1 else 0;
    }
  }

  lemma EndKeepsBalance(b: Books)
    requires Balanced(b) && b.held != [] && b.held[0].prog.End?
    ensures Balanced(AfterEnd(b)) && Work(AfterEnd(b)) < Work(b) && Accounted(b, AfterEnd(b))
  {
    var t := AfterEnd(b);
    EndSum(b, IsDetached);
    EndSum(b, IsRoot);
    EndSum(b, JobSize);
    EndSum(b, JobSpawns);
    EndSum(b, JobSleeps);
    forall x: nat ensures Sum(t, HasId(x)) + t.ended[x] == if x < t.nextId then 1 else 0 {
      EndSum(b, HasId(x));
      assert Sum(b, HasId(x)) + b.ended[x] == if x < b.nextId then 1 else 0;
    }
  }

  lemma PopKeepsBalance(b: Books)
    requires Balanced(b) && b.queue != [] && b.held == []
    ensures Balanced(AfterPop(b)) && Work(AfterPop(b)) == Work(b) && Accounted(b, AfterPop(b))
  {
    var t := AfterPop(b);
    PopSum(b, IsDetached);
    PopSum(b, IsRoot);
    PopSum(b, JobSize);
    PopSum(b, JobSpawns);
    PopSum(b, JobSleeps);
    forall x: nat ensures Sum(t, HasId(x)) + t.ended[x] == if x < t.nextId then 1 else 0 {
      PopSum(b, HasId(x));
      assert Sum(b, HasId(x)) + b.ended[x] == if x < b.nextId then 1 else 0;
    }
    assert Ids(b.queue) == [b.queue[0].id] + Ids(b.queue[1..]);
  }

  lemma ReportKeepsBalance(b: Books, fired: seq<Job>, rest: seq<Job>)
    requires Balanced(b) && b.held == [] && SplitsUp(b.sleeping, fired, rest)
    ensures var t := b.(sleeping := rest, held := fired);
      Balanced(t) && Work(t) == Work(b) && Accounted(b, t)
  {
    var t := b.(sleeping := rest, held := fired);
    ReportSum(b, fired, rest, IsDetached);
    ReportSum(b, fired, rest, IsRoot);
    ReportSum(b, fired, rest, JobSize);
    ReportSum(b, fired, rest, JobSpawns);
    ReportSum(b, fired, rest, JobSleeps);
    forall x: nat ensures Sum(t, HasId(x)) + t.ended[x] == if x < t.nextId then 1 else 0 {
      ReportSum(b, fired, rest, HasId(x));
      assert Sum(b, HasId(x)) + b.ended[x] == if x < b.nextId then 1 else 0;
    }
  }

  /** When nothing is queued and something is unfinished, something is asleep: the reactor has a timer to wait for. */
  lemma UnfinishedMeansSleeping(b: Books)
    requires Balanced(b) && b.queue == [] && b.held == [] && !(b.rootDone && b.spawnCount == 0)
    ensures b.sleeping != []
  {
  }

  /** When the executor stops, every task it ever numbered has ended exactly once. */
  lemma StoppedMeansAllEnded(b: Books)
    requires Balanced(b) && b.queue == [] && b.held == [] && b.rootDone && b.spawnCount == 0
    ensures b.sleeping == [] && b.dequeued == b.queued
    ensures forall x: nat :: b.ended[x] == if x < b.nextId then 1 else 0
  {
  }

  // ---- the executor ----

  class Executor {
    var mQueue: seq<Job>
    var mSpawnCount: int
    var mRootDone: bool
    var mNotified: bool
    var mSleeping: seq<Job>
    var mNextId: nat
    ghost var ended: multiset<nat>  // history: tasks whose callback has run
    ghost var queued: seq<nat>      // history: detached tasks in the order they were queued
    ghost var dequeued: seq<nat>    // history: detached tasks in the order they were taken off the queue
    ghost var slept: nat            // history: how often a coroutine has gone to sleep

    ghost function View(held: seq<Job>): Books
      reads this
    {
      Books(mQueue, mSleeping, held, mSpawnCount, mRootDone, mNextId, ended, queued, dequeued, slept)
    }

    constructor ()
      ensures Balanced(View([])) && mQueue == [] && mSpawnCount == 0 && mSleeping == [] && mRootDone && !mNotified
      ensures mNextId == slept == 0 && queued == dequeued == [] && ended == multiset{}
    {
      mQueue, mSpawnCount, mRootDone, mNotified, mSleeping, mNextId := [], 0, true, false, [], 0;
      ended, queued, dequeued, slept := multiset{}, [], [], 0;
    }

    /** `spawnDetach`, called by a coroutine being resumed or from outside, before or between calls of `block`. */
    method SpawnTask(child: Prog, ghost held: seq<Job>)
      requires Balanced(View(held))
      modifies `mQueue, `mSpawnCount, `mNextId, `queued
      ensures View(held) == AfterSpawn(old(View(held)), child) && Balanced(View(held))
      ensures mQueue == old(mQueue) + [Job(old(mNextId), true, child)]
      ensures mSpawnCount == old(mSpawnCount) + 1 && mNextId == old(mNextId) + 1
    {
      SpawnKeepsBalance(View(held), child);
      mSpawnCount := mSpawnCount + 1;
      mQueue := mQueue + [Job(mNextId, true, child)];
      queued := queued + [mNextId];
      mNextId := mNextId + 1;
    }

    /** `sleep` inserts a timer, which notifies the reactor. */
    method Suspend(j: Job, ghost held: seq<Job>)
      requires j.prog.Sleep? && Balanced(View([j] + held))
      modifies `mSleeping, `mNotified, `slept
      ensures View(held) == AfterSleep(old(View([j] + held))) && Balanced(View(held)) && mNotified
      ensures mSleeping == old(mSleeping) + [j.(prog := j.prog.next)]
    {
      SleepKeepsBalance(View([j] + held));
      assert ([j] + held)[1..] == held;
      mSleeping, slept := mSleeping + [j.(prog := j.prog.next)], slept + 1;
      mNotified := true;
    }

    /** The callback of a finished task: discount it, or set the root's result, then notify the reactor. */
    method Finish(j: Job, ghost held: seq<Job>)
      requires j.prog.End? && Balanced(View([j] + held))
      modifies `mRootDone, `mSpawnCount, `mNotified, `ended
      ensures View(held) == AfterEnd(old(View([j] + held))) && Balanced(View(held)) && mNotified
      ensures ended == old(ended) + multiset{j.id}
      ensures mSpawnCount == old(mSpawnCount) - IsDetached(j) && mRootDone == (old(mRootDone) || !j.detached)
    {
      ghost var b := View([j] + held);
      if j.detached {
        mSpawnCount := mSpawnCount - 1;
      } else {
        mRootDone := true;
      }
      ended := ended + multiset{j.id};
      mNotified := true;
      assert View(held) == AfterEnd(b) by {
        assert ([j] + held)[1..] == held;
      }
      EndKeepsBalance(b);
    }

    /** A coroutine at a spawn: the child is queued and the coroutine goes on behind it. */
    method PassSpawn(j: Job, ghost held: seq<Job>) returns (left: Job)
      requires Balanced(View([j] + held)) && j.prog.SpawnDetach?
      modifies `mQueue, `mSpawnCount, `mNextId, `queued
      ensures left == j.(prog := j.prog.next)
      ensures Passed(old(View([j] + held)), View([left] + held), j.prog, left.prog)
      ensures mQueue == old(mQueue) + [Job(old(mNextId), true, j.prog.child)] && mNextId == old(mNextId) + 1
    {
      ghost var b := View([j] + held);
      TurnKeepsBalance(b);
      left := j.(prog := j.prog.next);
      assert AfterTurn(b) == View([left] + held) by {
        assert ([j] + held)[1..] == held;
      }
      SpawnTask(j.prog.child, [left] + held);
      TurnPasses(b);
    }

    /** A coroutine that comes to a sleep or to its end gives control up. */
    method GiveUp(j: Job, ghost held: seq<Job>)
      requires Balanced(View([j] + held)) && !j.prog.SpawnDetach?
      modifies `mSleeping, `mNotified, `slept, `mRootDone, `mSpawnCount, `ended
      ensures Resumed(old(View([j] + held)), View(held), j) && mNotified
    {
      if j.prog.Sleep? {
        SleepKeepsBalance(View([j] + held));
        Suspend(j, held);
      } else {
        EndKeepsBalance(View([j] + held));
        Finish(j, held);
      }
    }

    /** Resume a handle: it spawns what comes before its next sleep or its end, and sleeps or ends there. */
    method Resume(job: Job, ghost held: seq<Job>)
      requires Balanced(View([job] + held))
      modifies this
      ensures Resumed(old(View([job] + held)), View(held), job) && mNotified
    {
      ghost var b := View([job] + held);
      var j := job;
      while j.prog.SpawnDetach?
        invariant j.(prog := job.prog) == job && Passed(b, View([j] + held), job.prog, j.prog)
        decreases j.prog
      {
        ghost var c, p := View([j] + held), j.prog;
        j := PassSpawn(j, held);
        PassedOn(b, c, View([j] + held), job.prog, p, j.prog);
      }
      ghost var c := View([j] + held);
      GiveUp(j, held);
      PassedThenResumed(b, c, View(held), job, j.prog);
    }

    /** Take the head off the queue. */
    method PopQueue() returns (j: Job)
      requires Balanced(View([])) && mQueue != []
      modifies `mQueue, `dequeued
      ensures Balanced(View([j])) && Work(View([j])) == old(Work(View([]))) && Extends(old(View([])), View([]))
      ensures Accounted(old(View([])), View([j])) && [j] + mQueue == old(mQueue)
      ensures j == old(mQueue)[0] && dequeued == old(dequeued) + [j.id]
    {
      ghost var b := View([]);
      PopKeepsBalance(b);
      j := mQueue[0];
      mQueue := mQueue[1..];
      dequeued := dequeued + [j.id];
      assert View([j]) == AfterPop(b);
    }

    method DrainQueue()
      requires Balanced(View([]))
      modifies this
      ensures Balanced(View([])) && mQueue == []
      ensures Extends(old(View([])), View([])) && Accounted(old(View([])), View([]))
      ensures || Work(View([])) < old(Work(View([])))
              || (Work(View([])) == old(Work(View([]))) && mNotified == old(mNotified))
    {
      while mQueue != []
        invariant Balanced(View([])) && Extends(old(View([])), View([])) && Accounted(old(View([])), View([]))
        invariant || Work(View([])) < old(Work(View([])))
                  || (Work(View([])) == old(Work(View([]))) && mNotified == old(mNotified))
        decreases Work(View([]))
      {
        var j := PopQueue();
        assert [j] + [] == [j];
        Resume(j, []);
      }
    }

    /** One reactor pass: a pending notification ends the wait at once and may report nothing; without one the pass
        waits until some sleeper expires, or a signal interrupts it, which leaves the notification pending. Reported
        handles are resumed on the spot. */
    method React(k: nat, reports: Reports, quiet: nat -> bool, signals: nat -> bool)
      requires Balanced(View([])) && FiresSome(reports)
      requires mNotified || mSleeping != []
      modifies this
      ensures Balanced(View([])) && Extends(old(View([])), View([])) && Accounted(old(View([])), View([]))
      ensures || Work(View([])) < old(Work(View([])))
              || (View([]) == old(View([]))
                  && if signals(k) then mNotified == old(mNotified) else old(mNotified) && !mNotified)
      ensures var (fired, rest) := reports(k, old(mSleeping));
        if ((old(mNotified) || signals(k)) && quiet(k)) || old(mSleeping) == [] then View([]) == old(View([]))
        else mQueue == old(mQueue) + Offspring(fired, old(mNextId)) && mSleeping == rest + Sleepers(fired) && mNotified
    {
      var endsAtOnce := mNotified || signals(k);
      if !signals(k) {
        mNotified := false;
      }
      if (endsAtOnce && quiet(k)) || mSleeping == [] {
        return;
      }
      ghost var b := View([]);
      var (fired, rest) := reports(k, mSleeping);
      assert SplitsUp(mSleeping, fired, rest);
      mSleeping := rest;
      ReportKeepsBalance(b, fired, rest);
      assert View(fired) == b.(sleeping := rest, held := fired);
      ResumeAll(fired);
    }

    method ResumeAll(fired: seq<Job>)
      requires Balanced(View(fired)) && fired != []
      modifies this
      ensures ResumedAllBut(old(View(fired)), View([]), fired, []) && mNotified
    {
      ghost var b := View(fired);
      var i := 0;
      assert fired[0..] == fired;
      while i < |fired|
        invariant 0 <= i <= |fired| && (i > 0 ==> mNotified)
        invariant ResumedAllBut(b, View(fired[i..]), fired, fired[i..])
      {
        ghost var c := View(fired[i..]);
        assert fired[i..] == [fired[i]] + fired[i + 1..];
        Resume(fired[i], fired[i + 1..]);
        ResumedOneMore(b, c, View(fired[i + 1..]), fired, fired[i..]);
        i := i + 1;
      }
      assert fired[i..] == [];
    }

    /** The root is numbered and resumed for the first time. */
    method StartRoot(root: Prog)
      requires Balanced(View([])) && mRootDone
      modifies this
      ensures Balanced(View([])) && old(mNextId) < mNextId && old(queued) <= queued
      ensures mQueue == old(mQueue) + Children(root, old(mNextId) + 1)
      ensures mSleeping == old(mSleeping) + SleepersOf(Job(old(mNextId), false, root))
      ensures mNextId + Sum(View([]), JobSpawns) == old(mNextId + Sum(View([]), JobSpawns)) + 1 + Spawns(root)
      ensures slept + Sum(View([]), JobSleeps) == old(slept + Sum(View([]), JobSleeps)) + Sleeps(root)
    {
      ghost var b := View([]);
      RootKeepsBalance(b, root);
      var handle := Job(mNextId, false, root);
      mNextId, mRootDone := mNextId + 1, false;
      assert View([handle] + []) == AfterRoot(b, root) by {
        assert [handle] + [] == [handle];
      }
      Resume(handle, []);
    }

    /** Drain the queue and run the reactor in turns until the root is done and nothing is spawned or queued. */
    method RunUntilDone(reports: Reports, quiet: nat -> bool, signals: nat -> bool, ghost calm: nat)
      requires Balanced(View([])) && FiresSome(reports) && CalmsDown(signals, calm)
      modifies this
      ensures Balanced(View([])) && mRootDone && mSpawnCount == 0 && mQueue == []
      ensures Extends(old(View([])), View([])) && Accounted(old(View([])), View([]))
    {
      var k := 0;
      while true
        invariant Balanced(View([])) && Extends(old(View([])), View([])) && Accounted(old(View([])), View([]))
        decreases Work(View([])), if mNotified then 1 else 0, if k < calm then calm - k else 0
      {
        DrainQueue();
        if mSpawnCount == 0 && mRootDone && mQueue == [] {
          break;
        }
        UnfinishedMeansSleeping(View([]));
        React(k, reports, quiet, signals);
        k := k + 1;
      }
    }

    /** `block`: runs the root and everything spawned, and returns. Whatever order the reactor reports sleepers in, and
        whichever passes are interrupted, it ends, with every task ended exactly once and the detached ones taken in the
        order they were queued. It may be called again, and tasks may be spawned before it. */
    method Block(root: Prog, reports: Reports, quiet: nat -> bool, signals: nat -> bool, ghost calm: nat)
      requires Balanced(View([])) && mRootDone && FiresSome(reports) && CalmsDown(signals, calm)
      modifies this
      ensures Balanced(View([])) && mRootDone && mSpawnCount == 0 && mQueue == [] && mSleeping == []
      ensures old(queued) <= queued && dequeued == queued
      ensures mNextId == old(mNextId + Sum(View([]), JobSpawns)) + 1 + Spawns(root)
      ensures slept == old(slept + Sum(View([]), JobSleeps)) + Sleeps(root)
      ensures forall x: nat :: ended[x] == if x < mNextId then 1 else 0
    {
      StartRoot(root);
      RunUntilDone(reports, quiet, signals, calm);
      StoppedMeansAllEnded(View([]));
    }
  }
}
