/** The join handle: a rendezvous between one joiner and the completion of one spawned task, over an atomic word that
    is 0 (not done), 1 (done) or the address of the waiting joiner. One step is one atomic operation, one write of
    the result or one resumption. */
module JoinHandle {
  import opened Wrappers
  import Runs

  datatype Mark = Zero | One | Address

  datatype Joiner =
    | Start             // await_ready, first load
    | SecondLoad        // await_ready, second load
    | Suspending        // await_suspend, about to compare-exchange 0 to its own address
    | LoadAfterFailure  // the compare-exchange failed
    | Skipped           // not suspended, goes on at once
    | Parked
    | Woken             // handed to the executor
    | Continued(got: Option<int>)
    | AssertFailed

  datatype Completer =
    | Completing        // the task is done and destroyed, about to compare-exchange 0 to 1
    | Emplacing         // found an address, about to fill the result
    | Executing         // about to execute the address
    | Finished
    | BadAddress

  datatype State = State(
    mark: Mark,
    result: Option<int>,
    joiner: Joiner,
    completer: Completer,
    value: int,             // what the task returned
    isVoid: bool,           // the handle carries no value
    parkedFirst: bool,      // history: the joiner's compare-exchange won
    executions: nat)        // history: times the joiner was handed to the executor

  datatype Step =
    | LoadFirst | LoadSecond | JoinExchange | LoadThird | JoinResume
    | CompleteExchange | Emplace | ExecuteJoiner

  ghost predicate Init(s: State) {
    s.mark.Zero? && s.result.None? && s.joiner.Start? && s.completer.Completing? && !s.parkedFirst && s.executions == 0
  }

  ghost predicate Enabled(s: State, st: Step) {
    match st
    case LoadFirst => s.joiner.Start?
    case LoadSecond => s.joiner.SecondLoad?
    case JoinExchange => s.joiner.Suspending?
    case LoadThird => s.joiner.LoadAfterFailure?
    case JoinResume => s.joiner.Skipped? || s.joiner.Woken?
    case CompleteExchange => s.completer.Completing?
    case Emplace => s.completer.Emplacing?
    case ExecuteJoiner => s.completer.Executing?
  }

  ghost function Apply(s: State, st: Step): State {
    match st
    case LoadFirst => s.(joiner := if s.mark.Zero? then Suspending else SecondLoad)
    case LoadSecond => s.(joiner := if s.mark.One? then Skipped else AssertFailed)
    case JoinExchange =>
      if s.mark.Zero? then s.(mark := Address, joiner := Parked, parkedFirst := true)
      else s.(joiner := LoadAfterFailure)
    case LoadThird => s.(joiner := if s.mark.One? then Skipped else AssertFailed)
    case JoinResume => s.(joiner := Continued(s.result))
    case CompleteExchange =>
      if s.mark.Zero? then s.(mark := One, completer := Finished)
      else s.(completer := if s.isVoid then Executing else Emplacing)
    case Emplace => s.(result := Some(s.value), completer := Executing)
    case ExecuteJoiner =>
      if s.mark.Address? && s.joiner.Parked? then
        s.(joiner := Woken, completer := Finished, executions := s.executions + 1)
      else s.(completer := BadAddress)
  }

  ghost predicate Next(s: State, t: State) {
    exists st :: Enabled(s, st) && t == Apply(s, st)
  }

  ghost predicate Reachable(s: State) {
    Runs.Reachable(Init, Next, s)
  }

  ghost predicate Inv(s: State) {
    && !s.joiner.AssertFailed? && !s.completer.BadAddress?
    && (s.parkedFirst <==> s.mark.Address?)
    && (s.mark.One? ==> s.completer.Finished?)
    && (s.mark.Zero? ==> s.completer.Completing?)
    && (s.completer.Emplacing? ==> !s.isVoid)
    && (s.result.Some? <==> s.parkedFirst && !s.isVoid && (s.completer.Executing? || s.completer.Finished?))
    && (s.result.Some? ==> s.result.value == s.value)
    && s.executions == (if s.parkedFirst && s.completer.Finished? then 1 else 0)
    && match s.joiner
       case Start => !s.parkedFirst
       case SecondLoad => s.mark.One?
       case Suspending => !s.parkedFirst
       case LoadAfterFailure => s.mark.One?
       case Skipped => s.mark.One?
       case Parked => s.parkedFirst && !s.completer.Finished?
       case Woken => s.parkedFirst && s.completer.Finished?
       case Continued(got) => s.completer.Finished? && got == s.result && !s.mark.Zero?
       case AssertFailed => false
  }

  lemma StepKeepsInv(s: State, st: Step)
    requires Inv(s) && Enabled(s, st)
    ensures Inv(Apply(s, st))
  {
  }

  lemma ReachableInv(s: State)
    requires Reachable(s)
    ensures Inv(s)
  {
    forall a, b | Inv(a) && Next(a, b) ensures Inv(b) {
      var st :| Enabled(a, st) && b == Apply(a, st);
      StepKeepsInv(a, st);
    }
    Runs.InvariantIfReachable(Init, Next, Inv, s);
  }

  /** No interleaving reaches an assertion or executes a bad address. */
  lemma AssertionsAreUnreachable(s: State)
    requires Reachable(s)
    ensures !s.joiner.AssertFailed? && !s.completer.BadAddress?
  {
    ReachableInv(s);
  }

  /** The joiner is executed by the completer exactly when it parked first, and then exactly once. */
  lemma ContinuesExactlyOnce(s: State)
    requires Reachable(s) && s.completer.Finished?
    ensures s.executions == (if s.parkedFirst then 1 else 0)
    ensures !s.joiner.Parked?
    ensures s.joiner.Continued? ==> (s.parkedFirst <==> s.executions == 1)
  {
    ReachableInv(s);
  }

  /** The joiner of a value finds it if and only if the joiner parked before the task completed; when the task
      completed first the result was never filled, and taking it throws. */
  lemma JoinerGetsValueIffItParkedFirst(s: State)
    requires Reachable(s) && s.joiner.Continued? && !s.isVoid
    ensures s.joiner.got == Some(s.value) <==> s.parkedFirst
    ensures s.joiner.got == None <==> !s.parkedFirst
  {
    ReachableInv(s);
  }

  /** The steps left, over both sides. */
  ghost function StepsLeft(s: State): nat {
    (match s.joiner
     case Start => 4 case SecondLoad => 2 case Suspending => 3 case LoadAfterFailure => 2
     case Parked => 2 case Skipped => 1 case Woken => 1 case _ => 0) +
    (match s.completer
     case Completing => 3 case Emplacing => 2 case Executing => 1 case _ => 0)
  }

  /** The rendezvous always completes: every step brings it closer, and while one side has not ended a step is
      possible. */
  lemma RendezvousCompletes(s: State)
    requires Reachable(s)
    ensures forall st :: Enabled(s, st) ==> StepsLeft(Apply(s, st)) < StepsLeft(s)
    ensures (exists st :: Enabled(s, st)) <==> !(s.joiner.Continued? && s.completer.Finished?)
  {
    ReachableInv(s);
    var st := match s.joiner
      case Start => LoadFirst
      case SecondLoad => LoadSecond
      case Suspending => JoinExchange
      case LoadAfterFailure => LoadThird
      case Skipped => JoinResume
      case Woken => JoinResume
      case _ =>
        if s.completer.Completing? then CompleteExchange
        else if s.completer.Emplacing? then Emplace
        else ExecuteJoiner;
    assert !(s.joiner.Continued? && s.completer.Finished?) ==> Enabled(s, st);
  }

  /** A task that completes before it is joined: the joiner goes on without a value. */
  lemma CompletingFirstLosesTheValue(value: int) returns (s: State)
    ensures Reachable(s) && !s.isVoid && s.value == value
    ensures s.completer.Finished? && s.joiner == Continued(None)
  {
    var s0 := State(Zero, None, Start, Completing, value, false, false, 0);
    Runs.ReachableInit(Init, Next, s0);
    var s1 := Advance(s0, CompleteExchange);
    var s2 := Advance(s1, LoadFirst);
    var s3 := Advance(s2, LoadSecond);
    s := Advance(s3, JoinResume);
  }

  lemma Advance(s: State, st: Step) returns (t: State)
    requires Reachable(s) && Enabled(s, st)
    ensures t == Apply(s, st) && Reachable(t)
  {
    t := Apply(s, st);
    assert Next(s, t);
    Runs.ReachableStep(Init, Next, s, t);
  }

  /** The handle as the object both sides update. */
  class Rendezvous {
    var handle: Mark
    var result: Option<int>
    const value: int
    const isVoid: bool
    ghost var joiner: Joiner
    ghost var completer: Completer
    ghost var parkedFirst: bool
    ghost var executions: nat

    ghost function View(): State
      reads this
    {
      State(handle, result, joiner, completer, value, isVoid, parkedFirst, executions)
    }

    constructor (value: int, isVoid: bool)
      ensures Init(View()) && Inv(View()) && this.value == value && this.isVoid == isVoid
    {
      this.value, this.isVoid := value, isVoid;
      handle, result := Zero, None;
      joiner, completer, parkedFirst, executions := Start, Completing, false, 0;
    }

    method ReadyFirst() returns (notDone: bool)
      requires Inv(View()) && joiner == Start
      modifies `joiner
      ensures View() == Apply(old(View()), LoadFirst) && Inv(View())
      ensures (notDone <==> handle == Zero) && joiner == if notDone then Suspending else SecondLoad
    {
      notDone := handle == Zero;
      joiner := if notDone then Suspending else SecondLoad;
    }

    /** The second load of `await_ready`; the original asserts that it finds 1. */
    method ReadySecond() returns (done: bool)
      requires Inv(View()) && joiner == SecondLoad
      modifies `joiner
      ensures View() == Apply(old(View()), LoadSecond) && Inv(View()) && done && handle == One && joiner == Skipped
    {
      done := handle == One;
      joiner := Skipped;
    }

    method AwaitSuspend() returns (parked: bool)
      requires Inv(View()) && joiner == Suspending
      modifies `handle, `joiner, `parkedFirst
      ensures View() == Apply(old(View()), JoinExchange) && Inv(View())
      ensures (parked <==> old(handle) == Zero) && joiner == (if parked then Parked else LoadAfterFailure)
      ensures handle == if parked then Address else old(handle)
    {
      parked := handle == Zero;
      if parked {
        handle := Address;
        parkedFirst := true;
      }
      joiner := if parked then Parked else LoadAfterFailure;
    }

    /** What `await_suspend` does after losing its exchange: the load that the original asserts finds 1. */
    method LoadAgain() returns (done: bool)
      requires Inv(View()) && joiner == LoadAfterFailure
      modifies `joiner
      ensures View() == Apply(old(View()), LoadThird) && Inv(View()) && done && handle == One && joiner == Skipped
    {
      done := handle == One;
      joiner := Skipped;
    }

    method AwaitResume() returns (got: Option<int>)
      requires Inv(View()) && Enabled(View(), JoinResume)
      modifies `joiner
      ensures View() == Apply(old(View()), JoinResume) && Inv(View()) && joiner == Continued(got) && got == result
    {
      got := result;
      joiner := Continued(got);
    }

    /** The compare-exchange of the after-done callback. */
    method MarkDone() returns (someoneWaits: bool)
      requires Inv(View()) && completer == Completing
      modifies `handle, `completer
      ensures View() == Apply(old(View()), CompleteExchange) && Inv(View())
      ensures (someoneWaits <==> old(handle) == Address) && handle == (if someoneWaits then Address else One)
      ensures completer == if !someoneWaits then Finished else if isVoid then Executing else Emplacing
    {
      someoneWaits := handle != Zero;
      if !someoneWaits {
        handle := One;
        completer := Finished;
      } else {
        completer := if isVoid then Executing else Emplacing;
      }
    }

    method FillResult()
      requires Inv(View()) && completer == Emplacing
      modifies `result, `completer
      ensures View() == Apply(old(View()), Emplace) && Inv(View()) && result == Some(value)
    {
      result := Some(value);
      completer := Executing;
    }

    /** The address in the word is executed: it is that of the parked joiner. */
    method ExecuteWaiting()
      requires Inv(View()) && completer == Executing
      modifies `joiner, `completer, `executions
      ensures View() == Apply(old(View()), ExecuteJoiner) && Inv(View())
      ensures old(joiner) == Parked && joiner == Woken && executions == old(executions) + 1
    {
      joiner, completer, executions := Woken, Finished, executions + 1;
    }
  }
}
