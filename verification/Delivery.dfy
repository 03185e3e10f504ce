/**
 Callbacks and Lua references over all runs: what a callback says about what happened, how often it runs, how often
 a reference is freed, and what has been delivered when `wait` returns.
 */
module Delivery {
  import opened QueryTypes
  import opened BlockingQueues
  import opened Lifecycle
  import opened Conservation

  function EventsOf(events: seq<Event>, d: DataId): nat {
    if events == [] then 0 else EventsOf(events[..|events| - 1], d) + if events[|events| - 1].data == d then 1 else 0
  }

  /** How often the reference of `d` in `slot` was freed. */
  function FreesOf(frees: seq<Release>, d: DataId, slot: Slot): nat {
    if frees == [] then 0
    else
      var last := frees[|frees| - 1];
      FreesOf(frees[..|frees| - 1], d, slot) + if last.data == d && slot in last.slots then 1 else 0
  }

  /** How many loops are inside the callback of `d`. */
  function InCallback(stack: seq<Frame>, d: DataId): nat {
    if stack == [] then 0
    else InCallback(stack[..|stack| - 1], d) + if stack[|stack| - 1].current == Some(d) then 1 else 0
  }

  // ---------------------------------------------------------------------------------------------------------
  // References
  // ---------------------------------------------------------------------------------------------------------

  /** The references made at the start of `d`. */
  function Made(h: History, d: DataId): set<Slot> {
    if d in h.created then h.created[d] else {}
  }

  /** A data object holds what was made for it until it is delivered, and nothing afterwards; each of its references
      has been freed once if it was delivered, and not at all before. */
  predicate RefsRight(s: State, d: DataId) {
    && (d in s.h.created <==> d in s.h.started)
    && (Made(s.h, d) == {} || TableRef in Made(s.h, d))
    && (d in s.sh.info ==> s.sh.info[d].refs == if d in s.h.done then {} else Made(s.h, d))
    && (forall slot :: FreesOf(s.h.frees, d, slot) == if d in s.h.done && slot in Made(s.h, d) then 1 else 0)
  }

  /** What an unmade data object has not been through. */
  lemma UnmadeIsNowhere(s: State, d: DataId)
    requires Facts(s, d) && d !in s.sh.info
    ensures d !in s.h.done && d !in s.h.taken && d !in s.h.aborted && d !in s.h.fails && d !in s.h.outcome
    ensures OnStack(s.stack, d) == 0
  {
    CountIn(s.h.done, d);
    CountIn(s.h.taken, d);
    CountIn(s.h.aborted, d);
    CountIn(s.h.fails, d);
  }

  lemma StartRefs(s: State, call: LuaStep, d: DataId)
    requires call.StartPut? && CanCall(s, call) && RefsRight(s, d) && Facts(s, d)
    ensures RefsRight(Called(s, call), d)
  {
    if d !in s.sh.info {
      UnmadeIsNowhere(s, d);
    }
  }

  /** The history `RefsRight` looks at. */
  lemma CallKeepsRefHistory(s: State, call: LuaStep)
    requires CanCall(s, call) && !call.EndDeliver? && !call.StartPut?
    ensures var h' := Called(s, call).h;
      && h'.created == s.h.created && h'.started == s.h.started && h'.done == s.h.done && h'.frees == s.h.frees
  {
  }

  lemma CallRefs(s: State, call: LuaStep, d: DataId)
    requires CanCall(s, call) && !call.EndDeliver? && !call.StartPut? && RefsRight(s, d)
    ensures RefsRight(Called(s, call), d)
  {
    CallKeys(s, call);
    CallKeepsRefHistory(s, call);
    if d in s.sh.info {
      CallRecord(s, call, d);
    }
  }

  lemma EndDeliverRefs(s: State, d: DataId)
    requires CanCall(s, EndDeliver) && RefsRight(s, d)
    ensures RefsRight(Called(s, EndDeliver), d)
  {
  }

  lemma WorkRefs(s: State, work: WorkerStep, d: DataId)
    requires CanWork(s, work) && RefsRight(s, d)
    ensures RefsRight(Worked(s, work), d)
  {
    WorkKeys(s, work);
    if d in s.sh.info {
      WorkRecord(s, work, d);
    }
    var h' := Worked(s, work).h;
    assert h'.created == s.h.created && h'.started == s.h.started && h'.done == s.h.done && h'.frees == s.h.frees;
  }

  // ---------------------------------------------------------------------------------------------------------
  // Results
  // ---------------------------------------------------------------------------------------------------------

  /** The recorded result of a started data object is the outcome of its execution, unless a wait on it failed,
      which records an error. Without either there is no result. */
  predicate ResultRight(s: State, d: DataId) {
    d in s.sh.info ==>
      var result := s.sh.info[d].result;
      && (result == NoResult <==> d !in s.h.outcome && d !in s.h.fails)
      && (result == Success ==> d in s.h.outcome && s.h.outcome[d] == Success)
      && (result == Error ==> d in s.h.fails || (d in s.h.outcome && s.h.outcome[d] == Error))
  }

  lemma StartResult(s: State, call: LuaStep, d: DataId)
    requires call.StartPut? && CanCall(s, call) && ResultRight(s, d) && Facts(s, d)
    ensures ResultRight(Called(s, call), d)
  {
    if d !in s.sh.info {
      UnmadeIsNowhere(s, d);
    }
  }

  lemma CallResult(s: State, call: LuaStep, d: DataId)
    requires !call.StartPut? && CanCall(s, call) && ResultRight(s, d)
    ensures ResultRight(Called(s, call), d)
  {
    CallKeys(s, call);
    if d in s.sh.info {
      CallRecord(s, call, d);
    }
    var h' := Called(s, call).h;
    assert h'.outcome == s.h.outcome;
    assert h'.fails == if call == WaitEnter && !s.sh.canWait then s.h.fails + [s.op.data] else s.h.fails;
  }

  lemma WorkResult(s: State, work: WorkerStep, d: DataId)
    requires CanWork(s, work) && ResultRight(s, d)
    ensures ResultRight(Worked(s, work), d)
  {
    WorkKeys(s, work);
    if d in s.sh.info {
      WorkRecord(s, work, d);
    }
  }

  // ---------------------------------------------------------------------------------------------------------
  // What the loops hold
  // ---------------------------------------------------------------------------------------------------------

  predicate HasResult(h: History, d: DataId) {
    d in h.outcome || d in h.fails
  }

  /** A loop over aborted data holds aborted data, a loop over finished data holds data with a result. */
  predicate Fits(h: History, aborted: bool, d: DataId) {
    if aborted then d in h.aborted else HasResult(h, d)
  }

  ghost predicate FrameFits(h: History, f: Frame) {
    && (forall i :: 0 <= i < |f.rest| ==> Fits(h, f.aborted, f.rest[i]))
    && (f.current.Some? ==> Fits(h, f.aborted, f.current.value))
  }

  ghost predicate LoopsFit(s: State) {
    && (forall i :: 0 <= i < |s.stack| ==> FrameFits(s.h, s.stack[i]))
    && (forall i :: 0 <= i < |s.sh.finishedQueries| ==> HasResult(s.h, s.sh.finishedQueries[i]))
    && (s.op.Aborting? ==> forall i :: 0 <= i < |s.op.removed| ==> s.op.removed[i] in s.h.aborted)
    && (s.worker.Executed? ==> s.worker.data in s.h.outcome)
  }

  ghost predicate HistoryGrows(h: History, h': History) {
    && (forall d :: HasResult(h, d) ==> HasResult(h', d))
    && (forall d :: d in h.aborted ==> d in h'.aborted)
  }

  lemma FrameStillFits(h: History, h': History, f: Frame)
    requires HistoryGrows(h, h') && FrameFits(h, f)
    ensures FrameFits(h', f)
  {
  }

  lemma CallHistoryGrows(s: State, call: LuaStep)
    requires CanCall(s, call)
    ensures HistoryGrows(s.h, Called(s, call).h)
  {
  }

  lemma CallFits(s: State, call: LuaStep)
    requires CanCall(s, call) && LoopsFit(s)
    ensures LoopsFit(Called(s, call))
  {
    CallHistoryGrows(s, call);
    var s' := Called(s, call);
    forall i | 0 <= i < |s.stack| ensures FrameFits(s'.h, s.stack[i]) {
      FrameStillFits(s.h, s'.h, s.stack[i]);
    }
  }

  lemma WorkFits(s: State, work: WorkerStep)
    requires CanWork(s, work) && LoopsFit(s)
    ensures LoopsFit(Worked(s, work))
  {
  }

  // ---------------------------------------------------------------------------------------------------------
  // Events
  // ---------------------------------------------------------------------------------------------------------

  /** What a callback of each kind says about what was done to its data. */
  predicate Truthful(h: History, e: Event) {
    match e.kind
    case SuccessCallback => e.data in h.outcome && h.outcome[e.data] == Success
    case ErrorCallback => e.data in h.fails || (e.data in h.outcome && h.outcome[e.data] == Error)
    case AbortedCallback => e.data in h.aborted
  }

  ghost predicate EventsRight(s: State) {
    forall i :: 0 <= i < |s.h.events| ==> Truthful(s.h, s.h.events[i])
  }

  lemma CallEvents(s: State, call: LuaStep)
    requires CanCall(s, call) && !call.BeginDeliver? && EventsRight(s)
    ensures EventsRight(Called(s, call))
  {
    CallHistoryGrows(s, call);
  }

  lemma DeliverEvents(s: State, call: LuaStep)
    requires call.BeginDeliver? && CanCall(s, call) && EventsRight(s) && LoopsFit(s)
    requires ResultRight(s, Top(s).rest[0])
    ensures EventsRight(Called(s, call))
  {
    var f := Top(s);
    assert FrameFits(s.h, f);
    assert Fits(s.h, f.aborted, f.rest[0]);
  }

  lemma WorkEvents(s: State, work: WorkerStep)
    requires CanWork(s, work) && EventsRight(s)
    requires work.Execute? ==> TakenIsFinished(s, s.worker.data)
    ensures EventsRight(Worked(s, work))
  {
  }

  /** At most one callback; and once it has run, its data is delivered or still inside it. */
  predicate Once(s: State, d: DataId) {
    && EventsOf(s.h.events, d) <= 1
    && (EventsOf(s.h.events, d) == 1 ==> d in s.h.done || InCallback(s.stack, d) > 0)
  }

  /** The step delivers a data object from inside a callback of that same object. */
  predicate Reenters(s: State, step: Step) {
    Enabled(s, step) && step.Lua? && step.call.BeginDeliver? && InCallback(s.stack, Top(s).rest[0]) > 0
  }

  /** The step delivers `d` from inside a callback of `d`, both deliveries having found a callback to run. */
  predicate Repeats(s: State, step: Step, d: DataId) {
    && Reenters(s, step) && Top(s).rest[0] == d && EventsOf(s.h.events, d) >= 1
    && Callback(s.sh.info[d], Top(s).aborted, step.call.hasField).Some?
  }

  lemma InCallbackPush(stack: seq<Frame>, f: Frame, d: DataId)
    ensures InCallback(stack + [f], d) == InCallback(stack, d) + if f.current == Some(d) then 1 else 0
  {
    assert (stack + [f])[..|stack|] == stack;
  }

  lemma EventsPush(events: seq<Event>, e: Event, d: DataId)
    ensures EventsOf(events + [e], d) == EventsOf(events, d) + if e.data == d then 1 else 0
  {
    assert (events + [e])[..|events|] == events;
  }

  /** A callback runs only for data that still holds its table reference, so not for delivered data. */
  lemma CallbackNeedsRefs(data: Data, aborted: bool, hasField: bool)
    requires Callback(data, aborted, hasField).Some?
    ensures data.refs != {}
  {
  }

  lemma DeliverOnce(s: State, call: LuaStep, d: DataId)
    requires call.BeginDeliver? && CanCall(s, call) && Once(s, d) && RefsRight(s, d)
    requires !Repeats(s, Lua(call), d)
    ensures Once(Called(s, call), d)
  {
    var f := Top(s);
    var x := f.rest[0];
    var callback := Callback(s.sh.info[x], f.aborted, call.hasField);
    InCallbackPush(Below(s), f.(current := Some(x), rest := f.rest[1..]), d);
    if callback.Some? {
      EventsPush(s.h.events, Event(x, callback.value), d);
      CallbackNeedsRefs(s.sh.info[x], f.aborted, call.hasField);
    }
  }

  /** A new loop is in no callback yet. */
  lemma LoopOnce(s: State, s': State, f: Frame, d: DataId)
    requires Once(s, d) && f.current == None
    requires s'.h.events == s.h.events && s'.h.done == s.h.done && s'.stack == s.stack + [f]
    ensures Once(s', d)
  {
    InCallbackPush(s.stack, f, d);
  }

  /** A callback that ends leaves its data delivered. */
  lemma EndOnce(s: State, s': State, d: DataId)
    requires Once(s, d) && HasTop(s) && Top(s).current.Some?
    requires s'.h.events == s.h.events && s'.h.done == s.h.done + [Top(s).current.value]
    requires s'.stack == Below(s) + [Top(s).(current := None)]
    ensures Once(s', d)
  {
    InCallbackPush(Below(s), Top(s).(current := None), d);
    if Top(s).current.value == d {
      assert s'.h.done[|s.h.done|] == d;
    }
  }

  lemma EndDeliverOnce(s: State, d: DataId)
    requires CanCall(s, EndDeliver) && Once(s, d)
    ensures Once(Called(s, EndDeliver), d)
  {
    var s' := Called(s, EndDeliver);
    assert s' == DoEndDeliver(s);
    EndOnce(s, s', d);
  }

  lemma QuietOnce(s: State, call: LuaStep, d: DataId)
    requires !call.BeginDeliver? && !call.EndDeliver? && !call.AbortDone? && !call.AbortAll? && !call.ThinkTake?
    requires CanCall(s, call) && Once(s, d)
    ensures Once(Called(s, call), d)
  {
    var s' := Called(s, call);
    assert s'.h.events == s.h.events && s'.h.done == s.h.done;
    assert call.FrameEnd? || s'.stack == s.stack;
  }

  lemma CallOnce(s: State, call: LuaStep, d: DataId)
    requires !call.BeginDeliver? && CanCall(s, call) && Once(s, d)
    ensures Once(Called(s, call), d)
  {
    match call
    case AbortDone => LoopOnce(s, Called(s, call), Frame(None, s.op.removed, true, None), d);
    case AbortAll => LoopOnce(s, Called(s, call), Frame(None, QueueData(s.sh.queue), true, None), d);
    case ThinkTake => LoopOnce(s, Called(s, call), Frame(None, s.sh.finishedQueries, false, s.op.waited), d);
    case EndDeliver => EndDeliverOnce(s, d);
    case _ => QuietOnce(s, call, d);
  }

  // ---------------------------------------------------------------------------------------------------------
  // What `wait` has delivered when it returns
  // ---------------------------------------------------------------------------------------------------------

  /** The data a loop runs for is delivered, or in this loop, or in one around it. */
  predicate Promised(stack: seq<Frame>, done: seq<DataId>) {
    stack != [] ==>
      var top := stack[|stack| - 1];
      && Promised(stack[..|stack| - 1], done)
      && (top.waited.Some? ==> OnStack(stack, top.waited.value) > 0 || top.waited.value in done)
  }

  lemma {:induction false} PromisedGrows(stack: seq<Frame>, done: seq<DataId>, x: DataId)
    requires Promised(stack, done)
    ensures Promised(stack, done + [x])
  {
    if stack != [] {
      PromisedGrows(stack[..|stack| - 1], done, x);
    }
  }

  lemma PromisedPush(stack: seq<Frame>, f: Frame, done: seq<DataId>)
    requires Promised(stack, done)
    requires f.waited.Some? ==> OnStack(stack + [f], f.waited.value) > 0 || f.waited.value in done
    ensures Promised(stack + [f], done)
  {
    assert (stack + [f])[..|stack|] == stack;
  }

  lemma ThinkPromised(s: State)
    requires CanCall(s, ThinkTake) && Inv(s) && Promised(s.stack, s.h.done)
    ensures var s' := Called(s, ThinkTake); Promised(s'.stack, s'.h.done)
  {
    var f := Frame(None, s.sh.finishedQueries, false, s.op.waited);
    if f.waited.Some? {
      var w := f.waited.value;
      assert Facts(s, w);
      StackPush(s.stack, f, w);
      CountIn(s.h.done, w);
    }
    PromisedPush(s.stack, f, s.h.done);
  }

  lemma BeginPromised(s: State, call: LuaStep)
    requires call.BeginDeliver? && CanCall(s, call) && Promised(s.stack, s.h.done)
    ensures var s' := Called(s, call); Promised(s'.stack, s'.h.done)
  {
  }

  lemma EndPromised(s: State)
    requires CanCall(s, EndDeliver) && Promised(s.stack, s.h.done)
    ensures var s' := Called(s, EndDeliver); Promised(s'.stack, s'.h.done)
  {
    var f := Top(s);
    var g := f.(current := None);
    PromisedGrows(Below(s), s.h.done, f.current.value);
    if g.waited.Some? {
      StackPush(Below(s), g, g.waited.value);
    }
    PromisedPush(Below(s), g, s.h.done + [f.current.value]);
  }

  lemma CallPromised(s: State, call: LuaStep)
    requires CanCall(s, call) && Inv(s) && Promised(s.stack, s.h.done)
    ensures var s' := Called(s, call); Promised(s'.stack, s'.h.done)
  {
    match call
    case AbortDone => PromisedPush(s.stack, Frame(None, s.op.removed, true, None), s.h.done);
    case AbortAll => PromisedPush(s.stack, Frame(None, QueueData(s.sh.queue), true, None), s.h.done);
    case ThinkTake => ThinkPromised(s);
    case BeginDeliver(_) => BeginPromised(s, call);
    case EndDeliver => EndPromised(s);
    case _ =>
  }

  // ---------------------------------------------------------------------------------------------------------
  // Over all runs
  // ---------------------------------------------------------------------------------------------------------

  ghost predicate DeliveryInv(s: State) {
    && Inv(s)
    && (forall d: DataId :: RefsRight(s, d))
    && (forall d: DataId :: ResultRight(s, d))
    && LoopsFit(s)
    && EventsRight(s)
    && Promised(s.stack, s.h.done)
  }

  lemma CallRefsAndResult(s: State, call: LuaStep, d: DataId)
    requires CanCall(s, call) && RefsRight(s, d) && ResultRight(s, d) && Facts(s, d)
    ensures RefsRight(Called(s, call), d) && ResultRight(Called(s, call), d)
  {
    match call
    case StartPut(_, _, _, _, _, _) => StartRefs(s, call, d); StartResult(s, call, d);
    case EndDeliver => EndDeliverRefs(s, d); CallResult(s, call, d);
    case _ => CallRefs(s, call, d); CallResult(s, call, d);
  }

  lemma DeliveryCall(s: State, call: LuaStep)
    requires DeliveryInv(s) && CanCall(s, call)
    ensures DeliveryInv(Called(s, call))
  {
    StepKeeps(s, Lua(call));
    forall d: DataId ensures RefsRight(Called(s, call), d) && ResultRight(Called(s, call), d) {
      assert RefsRight(s, d) && ResultRight(s, d) && Facts(s, d);
      CallRefsAndResult(s, call, d);
    }
    CallFits(s, call);
    if call.BeginDeliver? {
      assert ResultRight(s, Top(s).rest[0]);
      DeliverEvents(s, call);
    } else {
      CallEvents(s, call);
    }
    CallPromised(s, call);
  }

  lemma DeliveryWork(s: State, work: WorkerStep)
    requires DeliveryInv(s) && CanWork(s, work)
    ensures DeliveryInv(Worked(s, work))
  {
    StepKeeps(s, Work(work));
    forall d: DataId ensures RefsRight(Worked(s, work), d) && ResultRight(Worked(s, work), d) {
      WorkRefs(s, work, d);
      WorkResult(s, work, d);
    }
    WorkFits(s, work);
    if work.Execute? {
      assert Facts(s, s.worker.data);
    }
    WorkEvents(s, work);
    assert Worked(s, work).stack == s.stack && Worked(s, work).h.done == s.h.done;
  }

  /** Every step keeps the delivery invariant. */
  lemma DeliveryStep(s: State, step: Step)
    requires DeliveryInv(s) && Enabled(s, step)
    ensures DeliveryInv(Next(s, step))
  {
    match step
    case Lua(call) => DeliveryCall(s, call);
    case Work(work) => DeliveryWork(s, work);
  }

  lemma {:induction false} DeliveryRun(s: State, steps: seq<Step>)
    requires DeliveryInv(s) && CanRun(s, steps)
    ensures DeliveryInv(Run(s, steps))
    decreases |steps|
  {
    if steps != [] {
      DeliveryStep(s, steps[0]);
      DeliveryRun(Next(s, steps[0]), steps[1..]);
    }
  }

  lemma InitDelivery()
    ensures DeliveryInv(INIT)
  {
    InitHolds();
  }

  /** No step of the run delivers a data object from inside that object's own callback. */
  predicate NeverReenters(s: State, steps: seq<Step>)
    decreases |steps|
  {
    steps != [] ==> !Reenters(s, steps[0]) && NeverReenters(Next(s, steps[0]), steps[1..])
  }

  lemma OnceStep(s: State, step: Step, d: DataId)
    requires DeliveryInv(s) && Enabled(s, step) && Once(s, d) && !Repeats(s, step, d)
    ensures Once(Next(s, step), d)
  {
    match step
    case Lua(call) => if call.BeginDeliver? { DeliverOnce(s, call, d); } else { CallOnce(s, call, d); }
    case Work(work) => assert Worked(s, work).h.events == s.h.events && Worked(s, work).stack == s.stack
                              && Worked(s, work).h.done == s.h.done;
  }

  lemma {:induction false} OnceRun(s: State, steps: seq<Step>, d: DataId)
    requires DeliveryInv(s) && CanRun(s, steps) && Once(s, d) && NeverReenters(s, steps)
    ensures Once(Run(s, steps), d)
    decreases |steps|
  {
    if steps != [] {
      OnceStep(s, steps[0], d);
      DeliveryStep(s, steps[0]);
      OnceRun(Next(s, steps[0]), steps[1..], d);
    }
  }

  // ---------------------------------------------------------------------------------------------------------
  // Main results
  // ---------------------------------------------------------------------------------------------------------

  /** After every run in which no callback re-enters its own delivery, each data object has had at most one success,
      error or aborted callback, also when a failed wait put it into both queues. */
  lemma CallbacksAtMostOnce(steps: seq<Step>, d: DataId)
    requires CanRun(INIT, steps) && NeverReenters(INIT, steps)
    ensures EventsOf(Run(INIT, steps).h.events, d) <= 1
  {
    InitDelivery();
    OnceRun(INIT, steps, d);
  }

  /** Where callbacks have so far run at most once, a step runs a second one exactly when it repeats one. */
  lemma RepeatStepIff(s: State, step: Step, d: DataId)
    requires DeliveryInv(s) && Once(s, d) && Enabled(s, step)
    ensures EventsOf(Next(s, step).h.events, d) > 1 <==> Repeats(s, step, d)
  {
    if Repeats(s, step, d) {
      var callback := Callback(s.sh.info[d], Top(s).aborted, step.call.hasField);
      EventsPush(s.h.events, Event(d, callback.value), d);
    } else {
      OnceStep(s, step, d);
    }
  }

  lemma EventsGrowCall(s: State, call: LuaStep)
    requires CanCall(s, call)
    ensures var events := Called(s, call).h.events;
      events == s.h.events || (events != [] && events[..|events| - 1] == s.h.events)
  {
  }

  /** Callbacks that ran stay in the history. */
  lemma {:induction false} EventsGrow(s: State, steps: seq<Step>, d: DataId)
    requires CanRun(s, steps)
    ensures EventsOf(Run(s, steps).h.events, d) >= EventsOf(s.h.events, d)
    decreases |steps|
  {
    if steps != [] {
      match steps[0] {
        case Lua(call) => EventsGrowCall(s, call);
        case Work(work) => assert Worked(s, work).h.events == s.h.events;
      }
      EventsGrow(Next(s, steps[0]), steps[1..], d);
    }
  }

  predicate SomeRepeats(s: State, steps: seq<Step>, d: DataId)
    decreases |steps|
  {
    steps != [] && (Repeats(s, steps[0], d) || SomeRepeats(Next(s, steps[0]), steps[1..], d))
  }

  lemma {:induction false} RepeatsRun(s: State, steps: seq<Step>, d: DataId)
    requires DeliveryInv(s) && Once(s, d) && CanRun(s, steps)
    ensures EventsOf(Run(s, steps).h.events, d) > 1 <==> SomeRepeats(s, steps, d)
    decreases |steps|
  {
    if steps != [] {
      RepeatStepIff(s, steps[0], d);
      if Repeats(s, steps[0], d) {
        EventsGrow(Next(s, steps[0]), steps[1..], d);
      } else {
        OnceStep(s, steps[0], d);
        DeliveryStep(s, steps[0]);
        RepeatsRun(Next(s, steps[0]), steps[1..], d);
      }
    }
  }

  /** The condition is exact: over any run a data object has had a second callback if and only if, at some point, it
      was delivered from inside its own callback, and both deliveries found a callback to run. */
  lemma SecondCallbackIff(steps: seq<Step>, d: DataId)
    requires CanRun(INIT, steps)
    ensures EventsOf(Run(INIT, steps).h.events, d) > 1 <==> SomeRepeats(INIT, steps, d)
  {
    InitDelivery();
    RepeatsRun(INIT, steps, d);
  }

  /** After every run, whatever callbacks do: the references of delivered data have been freed exactly once, those of
      other data not at all and are still held. */
  lemma ReferencesFreedOnce(steps: seq<Step>, d: DataId, slot: Slot)
    requires CanRun(INIT, steps) && d in Run(INIT, steps).h.started
    ensures var s := Run(INIT, steps);
      && FreesOf(s.h.frees, d, slot) == (if d in s.h.done && slot in Made(s.h, d) then 1 else 0)
      && d in s.sh.info
      && (slot in s.sh.info[d].refs <==> d !in s.h.done && slot in Made(s.h, d))
  {
    InitDelivery();
    DeliveryRun(INIT, steps);
    assert RefsRight(Run(INIT, steps), d) && Facts(Run(INIT, steps), d);
  }

  /** Every callback that ran tells what happened: success means executed with success, an error means executed with
      an error or a failed wait, aborted means never taken by the worker. */
  lemma CallbacksTellTheTruth(steps: seq<Step>, i: nat)
    requires CanRun(INIT, steps) && i < |Run(INIT, steps).h.events|
    ensures var h := Run(INIT, steps).h; var e := h.events[i];
      && Truthful(h, e)
      && (e.kind == AbortedCallback ==> e.data !in h.taken && e.data !in h.outcome)
      && (e.kind == ErrorCallback && e.data !in h.fails ==> h.outcome[e.data] == Error)
  {
    InitDelivery();
    DeliveryRun(INIT, steps);
    var s := Run(INIT, steps);
    var d := s.h.events[i].data;
    assert Facts(s, d);
    CountIn(s.h.aborted, d);
    CountIn(s.h.taken, d);
  }

  /** A delivery never meets a started data object without a result, and never one that was not made. */
  lemma DeliveriesHaveResults(steps: seq<Step>)
    requires CanRun(INIT, steps) && InLoop(Run(INIT, steps)) && Top(Run(INIT, steps)).rest != []
    ensures var s := Run(INIT, steps); var d := Top(s).rest[0];
      d in s.sh.info && (d in s.h.started && !Top(s).aborted ==> s.sh.info[d].result != NoResult)
  {
    InitDelivery();
    DeliveryRun(INIT, steps);
    var s := Run(INIT, steps);
    var d := Top(s).rest[0];
    assert Facts(s, d) && ResultRight(s, d) && FrameFits(s.h, Top(s)) && Fits(s.h, Top(s).aborted, d);
  }

  /** When `wait` returns, the data it waited for has been delivered, unless a loop around the call holds it; for
      started data no wait on which has failed, exactly one of the two. */
  lemma WaitReturnsDelivered(steps: seq<Step>)
    requires CanRun(INIT, steps) && CanCall(Run(INIT, steps), FrameEnd)
    requires Top(Run(INIT, steps)).waited.Some?
    ensures var s := Run(INIT, steps); var d := Top(s).waited.value;
      && (d in s.h.done || OnStack(Below(s), d) > 0)
      && (|s.stack| == 1 ==> d in s.h.done)
      && (d in s.h.started && d !in s.h.fails ==> (d !in s.h.done <==> OnStack(Below(s), d) > 0))
  {
    InitDelivery();
    DeliveryRun(INIT, steps);
    var s := Run(INIT, steps);
    var d := Top(s).waited.value;
    assert Facts(s, d);
    CountIn(s.h.done, d);
    CountIn(s.h.fails, d);
  }
}
