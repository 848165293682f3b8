/** Coroutine chaining: `Task`, its promise and the final awaiters as a machine that transfers control through
    continueHandle, proved to compute what direct-style evaluation of nested awaits computes. */
module Coroutines {
  import opened Wrappers

  type Handle = nat
  type Env = seq<int>

  /** What an awaited coroutine leaves in its promise: a value or an exception. */
  datatype Outcome = Returned(v: int) | Threw(x: int)

  /** A finite coroutine body. Values come from the local variables; an await binds the callee's value in `next`,
      or its exception in `handler` when there is one. */
  datatype Code =
    | Return(value: Env -> int)
    | Throw(value: Env -> int)
    | Branch(cond: Env -> bool, thn: Code, els: Code)
    | Suspend(next: Code)
    | Await(callee: Code, args: Env -> Env, next: Code, handler: Option<Code>)

  /** Direct style: an await is a call. */
  function Eval(code: Code, env: Env): Outcome
    decreases code
  {
    match code
    case Return(e) => Returned(e(env))
    case Throw(e) => Threw(e(env))
    case Branch(c, thn, els) => if c(env) then Eval(thn, env) else Eval(els, env)
    case Suspend(next) => Eval(next, env)
    case Await(callee, args, next, handler) =>
      match Eval(callee, args(env))
      case Returned(v) => Eval(next, env + [v])
      case Threw(x) => (match handler case Some(h) => Eval(h, env + [x]) case None => Threw(x))
  }

  // ---- the evaluator with its call stack made explicit ----

  /** A caller waiting for its callee. */
  datatype Call = Call(env: Env, next: Code, handler: Option<Code>)
  datatype Focus = Running(code: Code, env: Env) | Done(o: Outcome)
  datatype Evaluator = Evaluator(calls: seq<Call>, focus: Focus)

  function Continue(c: Call, o: Outcome): Focus {
    match o
    case Returned(v) => Running(c.next, c.env + [v])
    case Threw(x) => match c.handler case Some(h) => Running(h, c.env + [x]) case None => Done(o)
  }

  function EvalStep(e: Evaluator): Evaluator {
    match e.focus
    case Done(o) =>
      if e.calls == [] then e
      else Evaluator(e.calls[..|e.calls| - 1], Continue(e.calls[|e.calls| - 1], o))
    case Running(code, env) =>
      match code
      case Return(v) => e.(focus := Done(Returned(v(env))))
      case Throw(v) => e.(focus := Done(Threw(v(env))))
      case Branch(c, thn, els) => e.(focus := Running(if c(env) then thn else els, env))
      case Suspend(next) => e.(focus := Running(next, env))
      case Await(callee, args, next, handler) =>
        Evaluator(e.calls + [Call(env, next, handler)], Running(callee, args(env)))
  }

  function FocusOutcome(f: Focus): Outcome {
    match f
    case Running(code, env) => Eval(code, env)
    case Done(o) => o
  }

  /** The outcome the whole stack will produce once the innermost call has produced `o`. */
  function Unwind(calls: seq<Call>, o: Outcome): Outcome
    decreases |calls|
  {
    if calls == [] then o
    else Unwind(calls[..|calls| - 1], FocusOutcome(Continue(calls[|calls| - 1], o)))
  }

  function Answer(e: Evaluator): Outcome {
    Unwind(e.calls, FocusOutcome(e.focus))
  }

  lemma EvalStepKeepsAnswer(e: Evaluator)
    ensures Answer(EvalStep(e)) == Answer(e)
  {
  }

  function Size(code: Code): nat {
    match code
    case Return(_) => 1
    case Throw(_) => 1
    case Branch(_, thn, els) => 1 + Size(thn) + Size(els)
    case Suspend(next) => 1 + Size(next)
    case Await(callee, _, next, handler) => 2 + Size(callee) + Size(next) + HandlerSize(handler)
  }

  function HandlerSize(handler: Option<Code>): nat {
    match handler case None => 0 case Some(h) => Size(h)
  }

  function CallSize(calls: seq<Call>): nat
    decreases |calls|
  {
    if calls == [] then 0
    else var c := calls[|calls| - 1]; 1 + Size(c.next) + HandlerSize(c.handler) + CallSize(calls[..|calls| - 1])
  }

  /** A bound on the evaluator steps left. */
  function Remaining(e: Evaluator): nat {
    CallSize(e.calls) + (if e.focus.Running? then Size(e.focus.code) else 0)
  }

  lemma EvalStepMakesProgress(e: Evaluator)
    requires e.focus.Running? || e.calls != []
    ensures Remaining(EvalStep(e)) < Remaining(e)
  {
  }

  // ---- the machine ----

  datatype Point = Initial | Active | AtLeaf | Awaiting(callee: Handle) | Final

  /** A coroutine frame with its promise. `detached` frames belong to a DetachTask. */
  datatype Frame = Frame(
    point: Point,
    code: Code,
    env: Env,
    continueHandle: Option<Handle>,
    returnValue: Option<int>,
    exceptionPtr: Option<int>,
    detached: bool)

  /** Who has control. */
  datatype Control =
    | Resume(h: Handle)                     // h is the target of a transfer or of the executor
    | Exec(h: Handle)                       // h runs its body
    | AwaitSuspend(caller: Handle, callee: Handle)
    | FinalSuspend(h: Handle)               // h is done, its final awaiter runs
    | Parked(h: Handle)                     // h gave control back at a leaf; the executor holds it
    | Finished
    | AssertFailed

  /** `default` is what the value member of a DetachTask's promise holds before anything is returned; it may be
      anything, since the original leaves it uninitialised for types such as int. */
  datatype Machine = Machine(
    frames: map<Handle, Frame>, nextHandle: Handle, control: Control, default: int, callback: Option<int>)

  function NewFrame(code: Code, env: Env, detached: bool): Frame {
    Frame(Initial, code, env, None, None, None, detached)
  }

  /** One coroutine, just created and about to be resumed for the first time. */
  function Start(code: Code, env: Env, detached: bool, default: int): Machine {
    Machine(map[0 := NewFrame(code, env, detached)], 1, Resume(0), default, None)
  }

  function Put(m: Machine, h: Handle, f: Frame, c: Control): Machine {
    m.(frames := m.frames[h := f], control := c)
  }

  function ReturnFrom(m: Machine, h: Handle, v: int): Machine
    requires h in m.frames
  {
    Put(m, h, m.frames[h].(returnValue := Some(v), point := Final), FinalSuspend(h))
  }

  function ThrowFrom(m: Machine, h: Handle, x: int): Machine
    requires h in m.frames
  {
    Put(m, h, m.frames[h].(exceptionPtr := Some(x), point := Final), FinalSuspend(h))
  }

  function ExecStep(m: Machine, h: Handle): Machine
    requires h in m.frames
  {
    var f := m.frames[h];
    match f.code
    case Return(e) => ReturnFrom(m, h, e(f.env))
    case Throw(e) => ThrowFrom(m, h, e(f.env))
    case Branch(c, thn, els) => Put(m, h, f.(code := if c(f.env) then thn else els), Exec(h))
    case Suspend(next) => Put(m, h, f.(code := next, point := AtLeaf), Parked(h))
    case Await(callee, args, _, _) =>
      var c := m.nextHandle;
      m.(frames := m.frames[h := f.(point := Awaiting(c))][c := NewFrame(callee, args(f.env), false)],
         nextHandle := c + 1, control := AwaitSuspend(h, c))
  }

  /** `await_suspend` of the task awaiter: remember the caller and transfer to the callee. */
  function AwaitSuspendStep(m: Machine, caller: Handle, callee: Handle): Machine
    requires callee in m.frames
  {
    Put(m, callee, m.frames[callee].(continueHandle := Some(caller)), Resume(callee))
  }

  /** `await_resume`: take the callee's result or rethrow its exception; the awaited temporary is then destroyed,
      which asserts that it is done. */
  function AwaitResumeStep(m: Machine, h: Handle, callee: Handle): Machine
    requires h in m.frames && m.frames[h].code.Await?
  {
    var f := m.frames[h];
    if callee !in m.frames || callee == h || !m.frames[callee].point.Final? then m.(control := AssertFailed)
    else
      var p := m.frames[callee];
      var rest := m.(frames := m.frames - {callee});
      if p.exceptionPtr.Some? then
        (match f.code.handler
         case Some(c) => Put(rest, h, f.(point := Active, code := c, env := f.env + [p.exceptionPtr.value]), Exec(h))
         case None => ThrowFrom(rest, h, p.exceptionPtr.value))
      else if p.returnValue.Some? then
        Put(rest, h, f.(point := Active, code := f.code.next, env := f.env + [p.returnValue.value]), Exec(h))
      else m.(control := AssertFailed)
  }

  function ResumeStep(m: Machine, h: Handle): Machine {
    if h !in m.frames then m.(control := AssertFailed)
    else
      var f := m.frames[h];
      match f.point
      case Initial => Put(m, h, f.(point := Active), Exec(h))
      case AtLeaf => Put(m, h, f.(point := Active), Exec(h))
      case Awaiting(c) => if f.code.Await? then AwaitResumeStep(m, h, c) else m.(control := AssertFailed)
      case _ => m.(control := AssertFailed)
  }

  /** The final awaiters. A task transfers to its continuation, or to the no-op coroutine when it has none.
      A detached task destroys itself and calls its callback with its value member. */
  function FinalSuspendStep(m: Machine, h: Handle): Machine {
    if h !in m.frames || !m.frames[h].point.Final? then m.(control := AssertFailed)
    else
      var f := m.frames[h];
      if f.detached then
        m.(frames := m.frames - {h}, control := Finished,
           callback := Some(match f.returnValue case Some(v) => v case None => m.default))
      else
        match f.continueHandle
        case Some(k) => m.(control := Resume(k))
        case None => m.(control := Finished)
  }

  function Step(m: Machine): Machine {
    match m.control
    case Resume(h) => ResumeStep(m, h)
    case Exec(h) => if h in m.frames then ExecStep(m, h) else m.(control := AssertFailed)
    case AwaitSuspend(k, c) => if c in m.frames then AwaitSuspendStep(m, k, c) else m.(control := AssertFailed)
    case FinalSuspend(h) => FinalSuspendStep(m, h)
    case Parked(h) => m.(control := Resume(h))
    case Finished => m
    case AssertFailed => m
  }

  function Iterate(m: Machine, n: nat): Machine
    decreases n
  {
    if n == 0 then m else Iterate(Step(m), n - 1)
  }

  // ---- the machine's frames are the evaluator's call stack ----

  function PromiseOutcome(f: Frame): Outcome {
    match f.exceptionPtr
    case Some(x) => Threw(x)
    case None => match f.returnValue case Some(v) => Returned(v) case None => Returned(0)
  }

  ghost function FocusOf(f: Frame): Focus {
    if f.point.Final? then Done(PromiseOutcome(f)) else Running(f.code, f.env)
  }

  ghost function LinkTo(callers: seq<Handle>): Option<Handle> {
    if callers == [] then None else Some(callers[|callers| - 1])
  }

  /** The promise of a frame is empty until the frame is done, and holds exactly one outcome from then on. */
  ghost predicate PromiseMatchesPoint(f: Frame) {
    if f.point.Final? then f.exceptionPtr.Some? != f.returnValue.Some?
    else f.exceptionPtr.None? && f.returnValue.None?
  }

  /** `callers` lists the frames suspended below `callee`, root first: each awaits the next one, holds an empty
      promise, and links through continueHandle to the one before it. */
  ghost predicate Callers(frames: map<Handle, Frame>, callers: seq<Handle>, callee: Handle)
    decreases |callers|
  {
    callers == [] ||
    var k, below := callers[|callers| - 1], callers[..|callers| - 1];
    && k in frames && k < callee
    && frames[k].point == Awaiting(callee) && frames[k].code.Await?
    && frames[k].continueHandle == LinkTo(below)
    && PromiseMatchesPoint(frames[k])
    && (below != [] ==> !frames[k].detached)
    && Callers(frames, below, k)
  }

  /** The evaluator's view of the suspended frames. */
  ghost function CallsOf(frames: map<Handle, Frame>, callers: seq<Handle>, callee: Handle): seq<Call>
    requires Callers(frames, callers, callee)
    decreases |callers|
  {
    if callers == [] then []
    else
      var k := callers[|callers| - 1];
      CallsOf(frames, callers[..|callers| - 1], k) + [Call(frames[k].env, frames[k].code.next, frames[k].code.handler)]
  }

  lemma {:induction false} CallersUntouched(frames: map<Handle, Frame>, frames': map<Handle, Frame>,
                                              callers: seq<Handle>, callee: Handle)
    requires Callers(frames, callers, callee)
    requires forall h :: h in frames && h < callee ==> h in frames' && frames'[h] == frames[h]
    ensures Callers(frames', callers, callee)
    ensures CallsOf(frames', callers, callee) == CallsOf(frames, callers, callee)
    ensures forall h :: h in callers ==> h < callee
    decreases |callers|
  {
    if callers != [] {
      var k, below := callers[|callers| - 1], callers[..|callers| - 1];
      CallersUntouched(frames, frames', below, k);
      assert callers == below + [k];
    }
  }

  /** Where control is agrees with where the innermost frame `top` stands. */
  ghost predicate ControlFits(control: Control, callers: seq<Handle>, top: Handle, f: Frame) {
    match control
    case Resume(h) =>
      if f.point.Final? then LinkTo(callers) == Some(h) else h == top && (f.point.Initial? || f.point.AtLeaf?)
    case Exec(h) => h == top && f.point.Active?
    case AwaitSuspend(k, c) => c == top && LinkTo(callers) == Some(k) && f.point.Initial?
    case FinalSuspend(h) => h == top && f.point.Final?
    case Parked(h) => h == top && f.point.AtLeaf?
    case Finished => callers == [] && f.point.Final? && !f.detached
    case AssertFailed => false
  }

  /** The frames alive are `callers` and `top`, chained and consistent. */
  ghost predicate Live(m: Machine, callers: seq<Handle>, top: Handle) {
    && Callers(m.frames, callers, top)
    && m.frames.Keys == (set h | h in callers) + {top}
    && top < m.nextHandle
    && m.frames[top].continueHandle == (if m.control.AwaitSuspend? then None else LinkTo(callers))
    && PromiseMatchesPoint(m.frames[top])
    && (callers != [] ==> !m.frames[top].detached)
    && ControlFits(m.control, callers, top, m.frames[top])
    && m.callback == None
  }

  ghost function View(m: Machine, callers: seq<Handle>, top: Handle): Evaluator
    requires Live(m, callers, top)
  {
    Evaluator(CallsOf(m.frames, callers, top), FocusOf(m.frames[top]))
  }

  /** The innermost frame after one more step: a call adds one, a return to the caller removes one. */
  ghost function After(m: Machine, callers: seq<Handle>, top: Handle): (r: (seq<Handle>, Handle)) {
    if m.control.Exec? && m.control.h in m.frames && m.frames[m.control.h].code.Await? then
      (callers + [top], m.nextHandle)
    else if m.control.Resume? && callers != [] && m.control.h != top then
      (callers[..|callers| - 1], callers[|callers| - 1])
    else (callers, top)
  }

  /** Steps that the evaluator makes too; the others only move control between frames. */
  ghost predicate IsEvalStep(m: Machine) {
    m.control.Exec? || (m.control.Resume? && m.control.h in m.frames && m.frames[m.control.h].point.Awaiting?)
  }

  /** One machine step keeps the chain and is one evaluator step or none. */
  ghost predicate Simulates(m: Machine, callers: seq<Handle>, top: Handle)
    requires Live(m, callers, top)
  {
    var t, (callers', top') := Step(m), After(m, callers, top);
    && Live(t, callers', top')
    && View(t, callers', top') == if IsEvalStep(m) then EvalStep(View(m, callers, top)) else View(m, callers, top)
  }

  lemma ExecSimulates(m: Machine, callers: seq<Handle>, top: Handle)
    requires Live(m, callers, top) && m.control.Exec? && !m.frames[top].code.Await?
    ensures Simulates(m, callers, top)
  {
    CallersUntouched(m.frames, Step(m).frames, callers, top);
  }

  lemma CallSimulates(m: Machine, callers: seq<Handle>, top: Handle)
    requires Live(m, callers, top) && m.control.Exec? && m.frames[top].code.Await?
    ensures Simulates(m, callers, top)
  {
    var t, c := Step(m), m.nextHandle;
    CallersUntouched(m.frames, m.frames, callers, top);
    CallersUntouched(m.frames, t.frames, callers, top);
    var callers' := callers + [top];
    assert callers'[..|callers'| - 1] == callers;
    assert Callers(t.frames, callers', c);
  }

  lemma AwaitSuspendSimulates(m: Machine, callers: seq<Handle>, top: Handle)
    requires Live(m, callers, top) && m.control.AwaitSuspend?
    ensures Simulates(m, callers, top)
  {
    CallersUntouched(m.frames, Step(m).frames, callers, top);
  }

  lemma WakeSimulates(m: Machine, callers: seq<Handle>, top: Handle)
    requires Live(m, callers, top) && m.control.Resume? && !m.frames[top].point.Final?
    ensures Simulates(m, callers, top)
  {
    CallersUntouched(m.frames, Step(m).frames, callers, top);
  }

  /** Destroying the innermost frame and rewriting its caller leaves the rest of the chain alone. */
  lemma PopFrame(m: Machine, callers: seq<Handle>, top: Handle, f: Frame)
    requires Live(m, callers, top) && callers != []
    ensures var k, below := callers[|callers| - 1], callers[..|callers| - 1];
      var frames := (m.frames - {top})[k := f];
      && k in m.frames && k < top && frames.Keys == (set h | h in below) + {k}
      && Callers(m.frames, below, k) && Callers(frames, below, k)
      && CallsOf(frames, below, k) == CallsOf(m.frames, below, k)
  {
    var k, below := callers[|callers| - 1], callers[..|callers| - 1];
    var frames := (m.frames - {top})[k := f];
    assert callers == below + [k];
    CallersUntouched(m.frames, m.frames, below, k);
    CallersUntouched(m.frames, frames, below, k);
    assert frames.Keys == (set h | h in below) + {k};
  }

  lemma ReturnSimulates(m: Machine, callers: seq<Handle>, top: Handle)
    requires Live(m, callers, top) && m.control.Resume? && m.frames[top].point.Final?
    ensures Simulates(m, callers, top)
  {
    var k := callers[|callers| - 1];
    PopFrame(m, callers, top, Step(m).frames[k]);
    assert Step(m).frames == (m.frames - {top})[k := Step(m).frames[k]];
  }

  lemma TransferSimulates(m: Machine, callers: seq<Handle>, top: Handle)
    requires Live(m, callers, top)
    requires m.control.Parked? || (m.control.FinalSuspend? && !m.frames[top].detached) || m.control.Finished?
    ensures Simulates(m, callers, top)
  {
  }

  // ---- whole executions ----

  function Root(callers: seq<Handle>, top: Handle): Handle {
    if callers == [] then top else callers[0]
  }

  /** What a detached task hands to its callback. */
  function Delivery(o: Outcome, default: int): int {
    match o case Returned(v) => v case Threw(_) => default
  }

  /** The promise holds the outcome and nothing else. */
  ghost predicate PromiseHolds(f: Frame, o: Outcome) {
    match o
    case Returned(v) => f.returnValue == Some(v) && f.exceptionPtr == None
    case Threw(x) => f.returnValue == None && f.exceptionPtr == Some(x)
  }

  /** The root task has finished with outcome `o`: a task keeps it in its promise, a detached task has destroyed
      itself and called back. Every other frame is gone. */
  ghost predicate FinishedWith(m: Machine, o: Outcome, detached: bool) {
    && m.control == Finished
    && if detached then m.frames == map[] && m.callback == Some(Delivery(o, m.default))
       else m.frames.Keys == {0} && m.frames[0].point.Final? && PromiseHolds(m.frames[0], o) && m.callback == None
  }

  /** A machine under way whose frames, read as a call stack, will produce `o`. */
  ghost predicate UnderWay(m: Machine, callers: seq<Handle>, top: Handle, o: Outcome, detached: bool) {
    && Live(m, callers, top)
    && Answer(View(m, callers, top)) == o
    && Root(callers, top) == 0 && 0 in m.frames && m.frames[0].detached == detached
  }

  lemma StartUnderWay(code: Code, env: Env, detached: bool, default: int)
    ensures UnderWay(Start(code, env, detached, default), [], 0, Eval(code, env), detached)
  {
  }

  lemma SimulatesUnlessDetachEnds(m: Machine, callers: seq<Handle>, top: Handle)
    requires Live(m, callers, top)
    requires !(m.control.FinalSuspend? && m.frames[top].detached)
    ensures Simulates(m, callers, top)
  {
    match m.control
    case Exec(_) =>
      if m.frames[top].code.Await? { CallSimulates(m, callers, top); } else { ExecSimulates(m, callers, top); }
    case Resume(_) =>
      if m.frames[top].point.Final? { ReturnSimulates(m, callers, top); } else { WakeSimulates(m, callers, top); }
    case AwaitSuspend(_, _) => AwaitSuspendSimulates(m, callers, top);
    case _ => TransferSimulates(m, callers, top);
  }

  lemma RootStays(m: Machine, callers: seq<Handle>, top: Handle)
    requires Live(m, callers, top) && Root(callers, top) == 0
    requires !(m.control.FinalSuspend? && m.frames[top].detached)
    ensures 0 in m.frames && 0 in Step(m).frames && Root(After(m, callers, top).0, After(m, callers, top).1) == 0
  {
  }

  lemma KindStays(m: Machine, h: Handle)
    requires h in m.frames && h in Step(m).frames && h < m.nextHandle
    ensures Step(m).frames[h].detached == m.frames[h].detached
  {
  }

  /** One step of an execution: it stays under way to the same outcome, or a detached root delivers that outcome. */
  lemma StepKeepsUnderWay(m: Machine, callers: seq<Handle>, top: Handle, o: Outcome, detached: bool)
    requires UnderWay(m, callers, top, o, detached)
    ensures if m.control.FinalSuspend? && m.frames[top].detached then FinishedWith(Step(m), o, true) && detached
            else UnderWay(Step(m), After(m, callers, top).0, After(m, callers, top).1, o, detached)
  {
    if m.control.FinalSuspend? && m.frames[top].detached {
      assert callers == [] && top == 0;
    } else {
      SimulatesUnlessDetachEnds(m, callers, top);
      RootStays(m, callers, top);
      CallersUntouched(m.frames, m.frames, callers, top);
      KindStays(m, 0);
      EvalStepKeepsAnswer(View(m, callers, top));
    }
  }

  function Rank(c: Control): nat {
    match c
    case AwaitSuspend(_, _) => 2
    case FinalSuspend(_) => 2
    case Parked(_) => 2
    case Resume(_) => 1
    case _ => 0
  }

  /** A bound on the machine steps left. */
  ghost function StepsLeft(m: Machine, callers: seq<Handle>, top: Handle): nat
    requires Live(m, callers, top)
  {
    3 * Remaining(View(m, callers, top)) + Rank(m.control)
  }

  lemma StepMakesProgress(m: Machine, callers: seq<Handle>, top: Handle)
    requires Live(m, callers, top) && m.control != Finished
    requires !(m.control.FinalSuspend? && m.frames[top].detached)
    ensures var (callers', top') := After(m, callers, top);
      Live(Step(m), callers', top') && StepsLeft(Step(m), callers', top') < StepsLeft(m, callers, top)
  {
    SimulatesUnlessDetachEnds(m, callers, top);
    if IsEvalStep(m) {
      EvalStepMakesProgress(View(m, callers, top));
    }
  }

  /** One step either ends a detached root with its delivery or brings the end closer. */
  lemma StepAdvances(m: Machine, callers: seq<Handle>, top: Handle, o: Outcome, detached: bool)
    requires UnderWay(m, callers, top, o, detached) && m.control != Finished
    ensures var (callers', top') := After(m, callers, top);
      if Step(m).callback.Some? then FinishedWith(Step(m), o, detached)
      else
        && UnderWay(Step(m), callers', top', o, detached)
        && StepsLeft(Step(m), callers', top') < StepsLeft(m, callers, top)
  {
    StepKeepsUnderWay(m, callers, top, o, detached);
    if !(m.control.FinalSuspend? && m.frames[top].detached) {
      StepMakesProgress(m, callers, top);
    }
  }

  lemma {:induction false} FinishesFrom(m: Machine, callers: seq<Handle>, top: Handle, o: Outcome, detached: bool)
    returns (n: nat)
    requires UnderWay(m, callers, top, o, detached)
    ensures FinishedWith(Iterate(m, n), o, detached)
    decreases StepsLeft(m, callers, top)
  {
    if m.control == Finished {
      n := 0;
    } else {
      StepAdvances(m, callers, top, o, detached);
      if Step(m).callback.Some? {
        n := 1;
        assert Iterate(Step(m), 0) == Step(m);
      } else {
        var (callers', top') := After(m, callers, top);
        n := FinishesFrom(Step(m), callers', top', o, detached);
        n := n + 1;
      }
    }
  }

  /** Chaining preserves meaning: every finite program runs to completion, with exactly the outcome of direct-style
      evaluation and no frame left but the root's. */
  lemma ChainingComputesEval(code: Code, env: Env, default: int)
    ensures exists n :: FinishedWith(Iterate(Start(code, env, false, default), n), Eval(code, env), false)
  {
    StartUnderWay(code, env, false, default);
    var n := FinishesFrom(Start(code, env, false, default), [], 0, Eval(code, env), false);
  }

  // ---- every moment of an execution ----

  function EvalIterate(e: Evaluator, n: nat): Evaluator
    decreases n
  {
    if n == 0 then e else EvalIterate(EvalStep(e), n - 1)
  }

  lemma {:induction false} OneMoreStep(m: Machine, n: nat)
    ensures Iterate(m, n + 1) == Step(Iterate(m, n))
    decreases n
  {
    if n != 0 {
      OneMoreStep(Step(m), n - 1);
    }
  }

  lemma {:induction false} OneMoreEvalStep(e: Evaluator, n: nat)
    ensures EvalIterate(e, n + 1) == EvalStep(EvalIterate(e, n))
    decreases n
  {
    if n != 0 {
      OneMoreEvalStep(EvalStep(e), n - 1);
    }
  }

  /** The continuation chain is the evaluator's call stack at some point of its computation. */
  ghost predicate ChainIsCallStack(m: Machine, callers: seq<Handle>, top: Handle, code: Code, env: Env, k: nat) {
    Live(m, callers, top) && View(m, callers, top) == EvalIterate(Evaluator([], Running(code, env)), k)
  }

  lemma CallStackStep(m: Machine, callers: seq<Handle>, top: Handle, code: Code, env: Env, k: nat)
    requires ChainIsCallStack(m, callers, top, code, env, k) && !(m.control.FinalSuspend? && m.frames[top].detached)
    ensures ChainIsCallStack(Step(m), After(m, callers, top).0, After(m, callers, top).1, code, env,
                             if IsEvalStep(m) then k + 1 else k)
  {
    SimulatesUnlessDetachEnds(m, callers, top);
    OneMoreEvalStep(Evaluator([], Running(code, env)), k);
  }

  lemma StartIsCallStack(code: Code, env: Env, detached: bool, default: int)
    ensures ChainOrGone(Start(code, env, detached, default), code, env, detached, 0)
  {
    assert ChainIsCallStack(Start(code, env, detached, default), [], 0, code, env, 0);
  }

  /** Within `n` steps of the evaluator its call stack was the present chain, unless a detached root is gone. */
  ghost predicate ChainOrGone(m: Machine, code: Code, env: Env, detached: bool, n: nat) {
    || (exists callers, top, k: nat :: k <= n && ChainIsCallStack(m, callers, top, code, env, k))
    || (detached && m.control == Finished && m.frames == map[])
  }

  lemma ChainOrGoneStep(m: Machine, code: Code, env: Env, detached: bool, n: nat)
    requires ChainOrGone(m, code, env, detached, n) && forall h :: h in m.frames && m.frames[h].detached ==> detached
    ensures ChainOrGone(Step(m), code, env, detached, n + 1)
  {
    if callers, top, k: nat :| k <= n && ChainIsCallStack(m, callers, top, code, env, k) {
      if !(m.control.FinalSuspend? && m.frames[top].detached) {
        CallStackStep(m, callers, top, code, env, k);
      }
    }
  }

  lemma ChainOrGoneHasNotFailed(m: Machine, code: Code, env: Env, detached: bool, n: nat)
    requires ChainOrGone(m, code, env, detached, n)
    ensures m.control != AssertFailed
  {
  }

  /** After any number of steps the live frames, from the root along continueHandle, are exactly the callers on the
      evaluator's call stack; no assertion of the original has failed. */
  lemma {:induction false} ChainIsAlwaysTheCallStack(code: Code, env: Env, detached: bool, default: int, n: nat)
    ensures var m := Iterate(Start(code, env, detached, default), n);
      m.control != AssertFailed && ChainOrGone(m, code, env, detached, n)
    decreases n
  {
    var start := Start(code, env, detached, default);
    if n == 0 {
      StartIsCallStack(code, env, detached, default);
    } else {
      var before := Iterate(start, n - 1);
      ChainIsAlwaysTheCallStack(code, env, detached, default, n - 1);
      KindIsKept(code, env, detached, default, n - 1);
      ChainOrGoneStep(before, code, env, detached, n - 1);
      OneMoreStep(start, n - 1);
    }
    ChainOrGoneHasNotFailed(Iterate(start, n), code, env, detached, n);
  }

  /** Only the root of a detached start is ever detached. */
  lemma {:induction false} KindIsKept(code: Code, env: Env, detached: bool, default: int, n: nat)
    ensures var m := Iterate(Start(code, env, detached, default), n);
      forall h :: h in m.frames && m.frames[h].detached ==> detached
    decreases n
  {
    if n != 0 {
      KindIsKept(code, env, detached, default, n - 1);
      OneMoreStep(Start(code, env, detached, default), n - 1);
    }
  }

  /** A step destroys a frame only when that frame is done. */
  lemma OnlyDoneFramesAreDestroyed(m: Machine, callers: seq<Handle>, top: Handle, h: Handle)
    requires Live(m, callers, top) && h in m.frames && h !in Step(m).frames
    ensures m.frames[h].point.Final? && h == top
  {
  }

  // ---- suspensions at leaves ----

  /** Direct style: how often the evaluation of nested awaits suspends at a leaf. */
  function Suspensions(code: Code, env: Env): nat
    decreases code
  {
    match code
    case Return(_) => 0
    case Throw(_) => 0
    case Branch(c, thn, els) => if c(env) then Suspensions(thn, env) else Suspensions(els, env)
    case Suspend(next) => 1 + Suspensions(next, env)
    case Await(callee, args, next, handler) =>
      Suspensions(callee, args(env)) +
      match Eval(callee, args(env))
      case Returned(v) => Suspensions(next, env + [v])
      case Threw(x) => (match handler case Some(h) => Suspensions(h, env + [x]) case None => 0)
  }

  function FocusSuspensions(f: Focus): nat {
    match f
    case Running(code, env) => Suspensions(code, env)
    case Done(_) => 0
  }

  /** The suspensions of the callers to come once the innermost call has produced `o`. */
  function UnwindSuspensions(calls: seq<Call>, o: Outcome): nat
    decreases |calls|
  {
    if calls == [] then 0
    else
      var f := Continue(calls[|calls| - 1], o);
      FocusSuspensions(f) + UnwindSuspensions(calls[..|calls| - 1], FocusOutcome(f))
  }

  function SuspensionsLeft(e: Evaluator): nat {
    FocusSuspensions(e.focus) + UnwindSuspensions(e.calls, FocusOutcome(e.focus))
  }

  lemma EvalStepSuspends(e: Evaluator)
    ensures SuspensionsLeft(e) ==
            SuspensionsLeft(EvalStep(e)) + if e.focus.Running? && e.focus.code.Suspend? then 1 else 0
  {
  }

  /** How many of the first `n` states have given control back to the executor. */
  function Parks(m: Machine, n: nat): nat
    decreases n
  {
    if n == 0 then 0 else (if m.control.Parked? then 1 else 0) + Parks(Step(m), n - 1)
  }

  lemma {:induction false} FinishedParksNoMore(m: Machine, n: nat)
    requires m.control == Finished
    ensures Parks(m, n) == 0
    decreases n
  {
    if n != 0 { FinishedParksNoMore(Step(m), n - 1); }
  }

  /** The present state counts if control is with the executor. */
  ghost function ParksLeft(m: Machine, callers: seq<Handle>, top: Handle): nat
    requires Live(m, callers, top)
  {
    SuspensionsLeft(View(m, callers, top)) + if m.control.Parked? then 1 else 0
  }

  lemma StepParks(m: Machine, callers: seq<Handle>, top: Handle)
    requires Live(m, callers, top) && !(m.control.FinalSuspend? && m.frames[top].detached)
    ensures var (callers', top') := After(m, callers, top);
      && Live(Step(m), callers', top')
      && ParksLeft(m, callers, top) == ParksLeft(Step(m), callers', top') + if m.control.Parked? then 1 else 0
  {
    SimulatesUnlessDetachEnds(m, callers, top);
    EvalStepSuspends(View(m, callers, top));
  }

  lemma NoParksAtTheEnd(m: Machine, callers: seq<Handle>, top: Handle)
    requires Live(m, callers, top) && m.frames[top].point.Final? && callers == []
    ensures ParksLeft(m, callers, top) == 0
  {
  }

  lemma {:induction false} ParksFrom(m: Machine, callers: seq<Handle>, top: Handle, n: nat)
    requires Live(m, callers, top) && Iterate(m, n).control == Finished
    ensures Parks(m, n) == ParksLeft(m, callers, top)
    decreases n
  {
    if m.control.FinalSuspend? && m.frames[top].detached {
      NoParksAtTheEnd(m, callers, top);
      FinishedParksNoMore(Step(m), n - 1);
    } else if n == 0 {
      NoParksAtTheEnd(m, callers, top);
    } else {
      StepParks(m, callers, top);
      ParksFrom(Step(m), After(m, callers, top).0, After(m, callers, top).1, n - 1);
    }
  }

  /** A run gives control back to the executor exactly as often as direct-style evaluation suspends at a leaf. */
  lemma ParksExactlyAtSuspensions(code: Code, env: Env, detached: bool, default: int, n: nat)
    requires Iterate(Start(code, env, detached, default), n).control == Finished
    ensures Parks(Start(code, env, detached, default), n) == Suspensions(code, env)
  {
    ParksFrom(Start(code, env, detached, default), [], 0, n);
  }

  // ---- detached tasks ----

  /** `co_return co_await task`, the body every executor wraps around a task. */
  function Wrapper(task: Code, args: Env -> Env): Code {
    Await(task, args, Return((e: Env) => if e == [] then 0 else e[|e| - 1]), None)
  }

  lemma WrapperIsTransparent(task: Code, args: Env -> Env, env: Env)
    ensures Eval(Wrapper(task, args), env) == Eval(task, args(env))
  {
  }

  /** A wrapped task always ends by calling its callback once. The callback learns the task's outcome if and only if
      the task returns: an exception is dropped and the default value delivered in its place. */
  lemma DetachedTaskDelivers(task: Code, args: Env -> Env, env: Env, default: int)
    ensures exists n ::
      var m, o := Iterate(Start(Wrapper(task, args), env, true, default), n), Eval(task, args(env));
      && FinishedWith(m, o, true)
      && (o == Returned(m.callback.value) <==> o.Returned?)
      && (o.Threw? ==> m.callback.value == default)
  {
    var code := Wrapper(task, args);
    StartUnderWay(code, env, true, default);
    WrapperIsTransparent(task, args, env);
    var n := FinishesFrom(Start(code, env, true, default), [], 0, Eval(code, env), true);
    DefaultIsKept(Start(code, env, true, default), n);
  }

  /** A task that throws 7: the callback is told the default, whatever that is. */
  lemma AnExceptionIsDropped(default: int) returns (n: nat)
    ensures var throws, args := Throw((e: Env) => 7), (e: Env) => e;
      && Eval(throws, []) == Threw(7)
      && Iterate(Start(Wrapper(throws, args), [], true, default), n).control == Finished
      && Iterate(Start(Wrapper(throws, args), [], true, default), n).callback == Some(default)
  {
    var throws, args := Throw((e: Env) => 7), (e: Env) => e;
    DetachedTaskDelivers(throws, args, [], default);
    n :| FinishedWith(Iterate(Start(Wrapper(throws, args), [], true, default), n), Threw(7), true);
    DefaultIsKept(Start(Wrapper(throws, args), [], true, default), n);
  }

  lemma {:induction false} DefaultIsKept(m: Machine, n: nat)
    ensures Iterate(m, n).default == m.default
    decreases n
  {
    if n != 0 {
      DefaultIsKept(Step(m), n - 1);
    }
  }

  // ---- the frames as the objects that the awaiters update ----

  class Runner {
    var mFrames: map<Handle, Frame>
    var mNext: Handle
    var mControl: Control
    var mDefault: int
    var mCallback: Option<int>

    function State(): Machine
      reads this
    {
      Machine(mFrames, mNext, mControl, mDefault, mCallback)
    }

    constructor (code: Code, env: Env, detached: bool, default: int)
      ensures State() == Start(code, env, detached, default)
    {
      mFrames, mNext := map[0 := NewFrame(code, env, detached)], 1;
      mControl, mDefault, mCallback := Resume(0), default, None;
    }

    /** The next thing the body of `h` does: a branch, or the suspension it leads to. */
    method RunBody(h: Handle)
      requires mControl == Exec(h) && h in mFrames
      modifies this
      ensures State() == Step(old(State()))
    {
      var f := mFrames[h];
      match f.code {
        case Return(e) => ReturnValue(h, e(f.env));
        case Throw(e) => UnhandledException(h, e(f.env));
        case Branch(c, thn, els) =>
          mFrames := mFrames[h := f.(code := if c(f.env) then thn else els)];
        case Suspend(next) =>
          mFrames := mFrames[h := f.(code := next, point := AtLeaf)];
          mControl := Parked(h);
        case Await(callee, args, _, _) =>
          var c := mNext;
          mFrames := mFrames[h := f.(point := Awaiting(c))];
          mFrames := mFrames[c := NewFrame(callee, args(f.env), false)];
          mNext := c + 1;
          mControl := AwaitSuspend(h, c);
      }
    }

    method ReturnValue(h: Handle, v: int)
      requires h in mFrames
      modifies `mFrames, `mControl
      ensures State() == ReturnFrom(old(State()), h, v)
    {
      mFrames := mFrames[h := mFrames[h].(returnValue := Some(v), point := Final)];
      mControl := FinalSuspend(h);
    }

    method UnhandledException(h: Handle, x: int)
      requires h in mFrames
      modifies `mFrames, `mControl
      ensures State() == ThrowFrom(old(State()), h, x)
    {
      mFrames := mFrames[h := mFrames[h].(exceptionPtr := Some(x), point := Final)];
      mControl := FinalSuspend(h);
    }

    method SetContinue(caller: Handle, callee: Handle)
      requires mControl == AwaitSuspend(caller, callee) && callee in mFrames
      modifies `mFrames, `mControl
      ensures State() == Step(old(State()))
    {
      mFrames := mFrames[callee := mFrames[callee].(continueHandle := Some(caller))];
      mControl := Resume(callee);
    }

    method AwaitResume(h: Handle, callee: Handle)
      requires mControl == Resume(h) && h in mFrames && mFrames[h].point == Awaiting(callee) && mFrames[h].code.Await?
      requires callee in mFrames && callee != h && mFrames[callee].point.Final? && PromiseMatchesPoint(mFrames[callee])
      modifies `mFrames, `mControl
      ensures State() == Step(old(State()))
    {
      var p, f := mFrames[callee], mFrames[h];
      mFrames := mFrames - {callee};
      if p.exceptionPtr.Some? {
        match f.code.handler {
          case Some(c) =>
            mFrames := mFrames[h := f.(point := Active, code := c, env := f.env + [p.exceptionPtr.value])];
            mControl := Exec(h);
          case None => UnhandledException(h, p.exceptionPtr.value);
        }
      } else {
        mFrames := mFrames[h := f.(point := Active, code := f.code.next, env := f.env + [p.returnValue.value])];
        mControl := Exec(h);
      }
    }

    method FinalAwaitSuspend(h: Handle)
      requires mControl == FinalSuspend(h) && h in mFrames && mFrames[h].point.Final?
      modifies `mFrames, `mControl, `mCallback
      ensures State() == Step(old(State()))
    {
      var f := mFrames[h];
      if f.detached {
        mFrames := mFrames - {h};
        mCallback := Some(match f.returnValue case Some(v) => v case None => mDefault);
        mControl := Finished;
      } else {
        match f.continueHandle {
          case Some(k) => mControl := Resume(k);
          case None => mControl := Finished;
        }
      }
    }

    /** Drive the root to its end, resuming parked leaves as the executor does. */
    method RunToCompletion(ghost o: Outcome, ghost detached: bool)
      requires exists callers, top :: UnderWay(State(), callers, top, o, detached)
      modifies this
      ensures FinishedWith(State(), o, detached)
    {
      ghost var callers, top :| UnderWay(State(), callers, top, o, detached);
      while mControl != Finished
        invariant UnderWay(State(), callers, top, o, detached)
        decreases StepsLeft(State(), callers, top)
      {
        ghost var after := After(State(), callers, top);
        StepAdvances(State(), callers, top, o, detached);
        StepOnce(callers, top);
        if mCallback.Some? {
          return;
        }
        callers, top := after.0, after.1;
      }
    }

    method StepOnce(ghost callers: seq<Handle>, ghost top: Handle)
      requires Live(State(), callers, top) && mControl != Finished
      modifies this
      ensures State() == Step(old(State()))
    {
      CallersUntouched(mFrames, mFrames, callers, top);
      match mControl {
        case Exec(h) => RunBody(h);
        case AwaitSuspend(k, c) => SetContinue(k, c);
        case FinalSuspend(h) => FinalAwaitSuspend(h);
        case Parked(h) => mControl := Resume(h);
        case Resume(h) =>
          if mFrames[h].point.Awaiting? {
            AwaitResume(h, mFrames[h].point.callee);
          } else {
            mFrames := mFrames[h := mFrames[h].(point := Active)];
            mControl := Exec(h);
          }
      }
    }
  }
}
