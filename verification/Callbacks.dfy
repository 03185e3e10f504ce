/**
 Which callback a delivery runs, and that over all runs every delivery of data that was given callbacks runs the one
 that tells what happened, once.
 */
module Callbacks {
  import opened QueryTypes
  import opened BlockingQueues
  import opened Lifecycle
  import opened Conservation
  import opened Delivery

  /** The reference in which a start keeps a callback. */
  function SlotOf(kind: CallbackKind): Slot {
    match kind
    case SuccessCallback => SuccessRef
    case ErrorCallback => ErrorRef
    case AbortedCallback => AbortRef
  }

  /** A start made references to the script's table and to this callback. */
  predicate Given(refs: set<Slot>, kind: CallbackKind) {
    {TableRef, SlotOf(kind)} <= refs
  }

  // ---------------------------------------------------------------------------------------------------------
  // One delivery
  // ---------------------------------------------------------------------------------------------------------

  /** A callback of this kind can be found: its reference is kept, or the data was the first one of its query and the
      script's table has the field. Only the success of a single query does not need the table for a kept callback. */
  predicate Found(data: Data, kind: CallbackKind, hasField: bool) {
    && (SlotOf(kind) in data.refs || (data.first && TableRef in data.refs && hasField))
    && (TableRef in data.refs || (kind == SuccessCallback && !data.transaction))
  }

  /** A delivery runs the callback that its loop and the recorded result ask for if and only if it can be found. It
      runs at most this one, and only for its data. */
  lemma DeliveryRunsIff(s: State, call: LuaStep, kind: CallbackKind)
    requires call.BeginDeliver? && CanCall(s, call)
    ensures var f := Top(s); var d := f.rest[0]; var data := s.sh.info[d]; var events := Called(s, call).h.events;
      && (events == s.h.events + [Event(d, kind)] <==>
            && (if f.aborted then kind == AbortedCallback
                else (kind == SuccessCallback && data.result == Success)
                     || (kind == ErrorCallback && data.result == Error))
            && Found(data, kind, call.hasField))
      && (events != s.h.events ==> exists k :: events == s.h.events + [Event(d, k)])
  {
    var events := Called(s, call).h.events;
    var d := Top(s).rest[0];
    if events != s.h.events {
      assert events[|events| - 1].data == d && events == s.h.events + [Event(d, events[|events| - 1].kind)];
    }
  }

  /** With its table and its callbacks still referenced a delivery always runs one. */
  lemma GivenCallbackRuns(s: State, call: LuaStep, kind: CallbackKind)
    requires call.BeginDeliver? && CanCall(s, call)
    requires var f := Top(s); var data := s.sh.info[f.rest[0]];
      && kind == (if f.aborted then AbortedCallback else if data.result == Success then SuccessCallback
                  else ErrorCallback)
      && (f.aborted || data.result != NoResult) && Given(data.refs, kind)
    ensures Called(s, call).h.events == s.h.events + [Event(Top(s).rest[0], kind)]
  {
    DeliveryRunsIff(s, call, kind);
  }

  // ---------------------------------------------------------------------------------------------------------
  // The callbacks of one data object
  // ---------------------------------------------------------------------------------------------------------

  /** The callbacks `d` has had, in order. */
  function KindsOf(events: seq<Event>, d: DataId): seq<CallbackKind> {
    if events == [] then []
    else
      var last := events[|events| - 1];
      KindsOf(events[..|events| - 1], d) + if last.data == d then [last.kind] else []
  }

  lemma KindsPush(events: seq<Event>, e: Event, d: DataId)
    ensures KindsOf(events + [e], d) == KindsOf(events, d) + if e.data == d then [e.kind] else []
  {
    assert (events + [e])[..|events|] == events;
  }

  /** The delivery of `d` has begun, or is over. */
  predicate Begun(s: State, d: DataId) {
    d in s.h.done || InCallback(s.stack, d) > 0
  }

  /** The callback that tells what happened to data no wait on which has failed. */
  function Due(h: History, d: DataId): CallbackKind {
    if d in h.aborted then AbortedCallback
    else if d in h.outcome && h.outcome[d] == Success then SuccessCallback
    else ErrorCallback
  }

  /** Data that is delivered without a failed wait: its one callback is the due one, and it has run if it was given, and
      can otherwise come only from the table of the first data of its query. */
  predicate DueHasRun(h: History, d: DataId, first: bool) {
    var kinds := KindsOf(h.events, d);
    && (d in h.outcome || d in h.aborted)
    && (kinds == [] || kinds == [Due(h, d)])
    && (Given(Made(h, d), Due(h, d)) ==> kinds == [Due(h, d)])
    && (SlotOf(Due(h, d)) !in Made(h, d) && !first ==> kinds == [])
  }

  /** Data that is delivered although a wait on it has failed: some callback has run if all were given, and if it was
      neither executed nor aborted, that is the error callback. */
  predicate FailedHasRun(h: History, d: DataId) {
    var kinds := KindsOf(h.events, d);
    && (Given(Made(h, d), SuccessCallback) && Given(Made(h, d), ErrorCallback) && Given(Made(h, d), AbortedCallback)
        ==> kinds != [])
    && (d !in h.outcome && d !in h.aborted ==>
          && (forall kind :: kind in kinds ==> kind == ErrorCallback)
          && (Given(Made(h, d), ErrorCallback) ==> kinds != []))
  }

  predicate CallbackRight(s: State, d: DataId) {
    && (!Begun(s, d) ==> KindsOf(s.h.events, d) == [])
    && (Begun(s, d) && d in s.h.started ==>
          && d in s.sh.info
          && if d in s.h.fails then FailedHasRun(s.h, d) else DueHasRun(s.h, d, s.sh.info[d].first))
  }

  // ---------------------------------------------------------------------------------------------------------
  // Steps that run no callback
  // ---------------------------------------------------------------------------------------------------------

  lemma {:induction false} InCallbackBound(stack: seq<Frame>, d: DataId)
    ensures InCallback(stack, d) + (if stack == [] then 0 else Count(stack[|stack| - 1].rest, d)) <= OnStack(stack, d)
  {
    if stack != [] {
      InCallbackBound(stack[..|stack| - 1], d);
    }
  }

  /** Data whose delivery has begun and no wait on which has failed is nowhere else. */
  lemma BegunIsOnce(s: State, d: DataId)
    requires Facts(s, d) && Begun(s, d) && d in s.h.started && d !in s.h.fails
    ensures Item(d) !in s.sh.queue && s.worker != Taken(d) && s.worker != Executing(d)
  {
    InCallbackBound(s.stack, d);
    CountIn(s.h.fails, d);
    CountIn(s.h.done, d);
    CountIn(s.sh.queue, Item(d));
  }

  /** A step that runs no callback of `d` keeps the claim: what happened to data without a failed wait is settled when
      its delivery has begun. */
  lemma OtherKeeps(s: State, t: State, d: DataId)
    requires CallbackRight(s, d) && t.h.events == s.h.events && (Begun(t, d) <==> Begun(s, d))
    requires Made(t.h, d) == Made(s.h, d) && (d in t.h.started <==> d in s.h.started)
    requires d in s.sh.info ==> d in t.sh.info && t.sh.info[d].first == s.sh.info[d].first
    requires (d in s.h.fails ==> d in t.h.fails) && (d in s.h.aborted ==> d in t.h.aborted)
    requires d in s.h.outcome ==> d in t.h.outcome
    requires Begun(s, d) && d in s.h.started && d !in s.h.fails ==>
      && (d in t.h.aborted <==> d in s.h.aborted) && (d in t.h.outcome <==> d in s.h.outcome)
      && (d in s.h.outcome ==> t.h.outcome[d] == s.h.outcome[d])
    ensures CallbackRight(t, d)
  {
  }

  /** Pushing a loop that is in no callback yet, or popping one that is past its last. */
  lemma LoopBegun(s: State, t: State, f: Frame, d: DataId)
    requires f.current == None && t.h.done == s.h.done
    requires t.stack == s.stack + [f] || s.stack == t.stack + [f]
    ensures Begun(t, d) <==> Begun(s, d)
  {
    if t.stack == s.stack + [f] {
      InCallbackPush(s.stack, f, d);
    } else {
      InCallbackPush(t.stack, f, d);
    }
  }

  lemma EndBegun(s: State, d: DataId)
    requires CanCall(s, EndDeliver)
    ensures Begun(Called(s, EndDeliver), d) <==> Begun(s, d)
  {
    var t := Called(s, EndDeliver);
    var f := Top(s);
    assert t == DoEndDeliver(s);
    assert s.stack == Below(s) + [f];
    InCallbackPush(Below(s), f, d);
    InCallbackPush(Below(s), f.(current := None), d);
    if f.current == Some(d) {
      assert t.h.done[|s.h.done|] == d;
    }
  }

  lemma CallBegun(s: State, call: LuaStep, d: DataId)
    requires !call.BeginDeliver? && CanCall(s, call)
    ensures Begun(Called(s, call), d) <==> Begun(s, d)
  {
    var t := Called(s, call);
    match call
    case AbortDone => LoopBegun(s, t, Frame(None, s.op.removed, true, None), d);
    case AbortAll => LoopBegun(s, t, Frame(None, QueueData(s.sh.queue), true, None), d);
    case ThinkTake => LoopBegun(s, t, Frame(None, s.sh.finishedQueries, false, s.op.waited), d);
    case FrameEnd =>
      assert s.stack == Below(s) + [Top(s)];
      LoopBegun(s, t, Top(s), d);
    case EndDeliver => EndBegun(s, d);
    case _ =>
  }

  /** The history `CallbackRight` looks at. */
  lemma CallHistory(s: State, call: LuaStep)
    requires !call.BeginDeliver? && CanCall(s, call)
    ensures var h' := Called(s, call).h;
      h'.events == s.h.events && h'.outcome == s.h.outcome
  {
  }

  lemma CallStarts(s: State, call: LuaStep)
    requires CanCall(s, call)
    ensures var h' := Called(s, call).h;
      && h'.started == (if call.StartPut? then s.h.started + {call.data} else s.h.started)
      && h'.created == (if call.StartPut? then s.h.created[call.data := call.refs] else s.h.created)
  {
  }

  lemma CallHistoryGrowsOnly(s: State, call: LuaStep)
    requires CanCall(s, call)
    ensures s.h.fails <= Called(s, call).h.fails && s.h.aborted <= Called(s, call).h.aborted
  {
  }

  /** Only queued data is aborted. */
  lemma AbortedWasQueued(s: State, call: LuaStep, d: DataId)
    requires !call.BeginDeliver? && CanCall(s, call) && d !in s.h.aborted && d in Called(s, call).h.aborted
    ensures Item(d) in s.sh.queue
  {
    match call
    case AbortAll =>
      QueueDataCounts(s.sh.queue, d);
      CountIn(QueueData(s.sh.queue), d);
      CountIn(s.sh.queue, Item(d));
    case _ =>
  }

  lemma CallFirst(s: State, call: LuaStep, d: DataId)
    requires CanCall(s, call) && d in s.sh.info
    ensures d in Called(s, call).sh.info && Called(s, call).sh.info[d].first == s.sh.info[d].first
  {
    if !call.StartPut? {
      CallRecord(s, call, d);
    }
  }

  lemma StartCallback(s: State, call: LuaStep)
    requires call.StartPut? && CanCall(s, call) && DeliveryInv(s) && CallbackRight(s, call.data)
    ensures CallbackRight(Called(s, call), call.data)
  {
    var d := call.data;
    assert Facts(s, d);
    UnmadeIsNowhere(s, d);
    InCallbackBound(s.stack, d);
    CallBegun(s, call, d);
  }

  lemma CallCallback(s: State, call: LuaStep, d: DataId)
    requires !call.BeginDeliver? && CanCall(s, call) && DeliveryInv(s) && CallbackRight(s, d)
    ensures CallbackRight(Called(s, call), d)
  {
    if call.StartPut? && call.data == d {
      StartCallback(s, call);
    } else {
      var t := Called(s, call);
      assert Facts(s, d);
      CallBegun(s, call, d);
      CallHistory(s, call);
      CallHistoryGrowsOnly(s, call);
      CallStarts(s, call);
      if d in s.sh.info {
        CallFirst(s, call, d);
      }
      if Begun(s, d) && d in s.h.started && d !in s.h.fails {
        BegunIsOnce(s, d);
        if d !in s.h.aborted && d in t.h.aborted {
          AbortedWasQueued(s, call, d);
        }
      }
      OtherKeeps(s, t, d);
    }
  }

  lemma WorkHistory(s: State, work: WorkerStep)
    requires CanWork(s, work)
    ensures var t := Worked(s, work);
      && t.h.events == s.h.events && t.stack == s.stack && t.h.done == s.h.done && t.h.aborted == s.h.aborted
      && t.h.started == s.h.started && t.h.created == s.h.created && s.h.fails <= t.h.fails
  {
  }

  lemma WorkOutcomes(s: State, work: WorkerStep, d: DataId)
    requires CanWork(s, work)
    ensures var t := Worked(s, work);
      && (s.worker != Executing(d) ==>
            (d in t.h.outcome <==> d in s.h.outcome) && (d in s.h.outcome ==> t.h.outcome[d] == s.h.outcome[d]))
      && (d in s.h.outcome ==> d in t.h.outcome)
  {
  }

  lemma WorkCallback(s: State, work: WorkerStep, d: DataId)
    requires CanWork(s, work) && DeliveryInv(s) && CallbackRight(s, d)
    ensures CallbackRight(Worked(s, work), d)
  {
    assert Facts(s, d);
    WorkHistory(s, work);
    WorkOutcomes(s, work, d);
    if d in s.sh.info {
      WorkRecord(s, work, d);
    }
    if Begun(s, d) && d in s.h.started && d !in s.h.fails {
      BegunIsOnce(s, d);
    }
    OtherKeeps(s, Worked(s, work), d);
  }

  // ---------------------------------------------------------------------------------------------------------
  // The beginning of a delivery
  // ---------------------------------------------------------------------------------------------------------

  /** A delivery that begins although no wait on its data has failed is the first, and its loop and the recorded result
      say what happened. */
  lemma FirstDelivery(s: State, d: DataId)
    requires DeliveryInv(s) && InLoop(s) && Top(s).rest != [] && Top(s).rest[0] == d
    requires d in s.h.started && d !in s.h.fails
    ensures !Begun(s, d) && d in s.sh.info && s.sh.info[d].refs == Made(s.h, d)
    ensures d in s.h.outcome || d in s.h.aborted
    ensures if Top(s).aborted then Due(s.h, d) == AbortedCallback
            else if s.sh.info[d].result == Success then Due(s.h, d) == SuccessCallback
            else s.sh.info[d].result == Error && Due(s.h, d) == ErrorCallback
  {
    assert Facts(s, d) && RefsRight(s, d) && ResultRight(s, d);
    assert FrameFits(s.h, Top(s)) && Fits(s.h, Top(s).aborted, d);
    InCallbackBound(s.stack, d);
    CountIn(s.h.fails, d);
    CountIn(s.h.done, d);
    CountIn(s.h.aborted, d);
    CountIn(s.h.taken, d);
    if !Top(s).aborted {
      DueIsEither(s, d);
    }
  }

  /** Executions have ended with a success or an error. */
  lemma DueIsEither(s: State, d: DataId)
    requires InLoop(s) && d in s.sh.info && ResultRight(s, d)
    requires d !in s.h.fails && d in s.h.outcome && d !in s.h.aborted
    ensures s.sh.info[d].result != NoResult
    ensures if s.sh.info[d].result == Success then Due(s.h, d) == SuccessCallback else Due(s.h, d) == ErrorCallback
  {
  }

  /** What a delivery that begins leaves alone. */
  lemma BeginHistory(s: State, call: LuaStep, d: DataId)
    requires call.BeginDeliver? && CanCall(s, call)
    ensures var t := Called(s, call);
      && t.h == s.h.(events := t.h.events)
      && (d in s.sh.info ==> d in t.sh.info && t.sh.info[d].first == s.sh.info[d].first)
      && (Begun(t, d) <==> Begun(s, d) || Top(s).rest[0] == d)
  {
    var f := Top(s);
    assert s.stack == Below(s) + [f];
    InCallbackPush(Below(s), f, d);
    InCallbackPush(Below(s), f.(current := Some(f.rest[0]), rest := f.rest[1..]), d);
  }

  lemma BeginOther(s: State, call: LuaStep, d: DataId)
    requires call.BeginDeliver? && CanCall(s, call) && CallbackRight(s, d) && Top(s).rest[0] != d
    ensures CallbackRight(Called(s, call), d)
  {
    BeginHistory(s, call, d);
    DeliveryRunsIff(s, call, SuccessCallback);
    var t := Called(s, call);
    if t.h.events != s.h.events {
      var k :| t.h.events == s.h.events + [Event(Top(s).rest[0], k)];
      KindsPush(s.h.events, Event(Top(s).rest[0], k), d);
    }
  }

  /** The callbacks `d` has had after its delivery has begun. */
  lemma BeginKinds(s: State, call: LuaStep, d: DataId, kind: CallbackKind)
    requires call.BeginDeliver? && CanCall(s, call) && Top(s).rest[0] == d
    requires if Top(s).aborted then kind == AbortedCallback
             else s.sh.info[d].result == if kind == SuccessCallback then Success else Error
    requires !Top(s).aborted ==> kind != AbortedCallback
    ensures var kinds, data := KindsOf(Called(s, call).h.events, d), s.sh.info[d];
      && (kinds == KindsOf(s.h.events, d) || kinds == KindsOf(s.h.events, d) + [kind])
      && (Given(data.refs, kind) ==> kinds == KindsOf(s.h.events, d) + [kind])
      && (SlotOf(kind) !in data.refs && !data.first ==> kinds == KindsOf(s.h.events, d))
  {
    var t := Called(s, call);
    DeliveryRunsIff(s, call, kind);
    if t.h.events != s.h.events {
      var k :| t.h.events == s.h.events + [Event(d, k)];
      DeliveryRunsIff(s, call, k);
      KindsPush(s.h.events, Event(d, k), d);
    }
  }

  lemma BeginDue(s: State, call: LuaStep, d: DataId)
    requires call.BeginDeliver? && CanCall(s, call) && DeliveryInv(s) && CallbackRight(s, d) && Top(s).rest[0] == d
    requires d in s.h.started && d !in s.h.fails
    ensures CallbackRight(Called(s, call), d)
  {
    FirstDelivery(s, d);
    BeginHistory(s, call, d);
    BeginKinds(s, call, d, Due(s.h, d));
  }

  /** A delivery of data on which a wait has failed: until the first it holds what its start made, and its loop or the
      recorded result asks for a callback, for the error callback if it was neither executed nor aborted. */
  lemma FailedDelivery(s: State, d: DataId)
    requires DeliveryInv(s) && InLoop(s) && Top(s).rest != [] && Top(s).rest[0] == d && d in s.sh.info
    ensures !Begun(s, d) ==> s.sh.info[d].refs == Made(s.h, d)
    ensures !Top(s).aborted ==> s.sh.info[d].result != NoResult
    ensures d !in s.h.outcome && d !in s.h.aborted ==> !Top(s).aborted && s.sh.info[d].result == Error
  {
    assert RefsRight(s, d) && ResultRight(s, d) && FrameFits(s.h, Top(s)) && Fits(s.h, Top(s).aborted, d);
  }

  lemma BeginFailed(s: State, call: LuaStep, d: DataId)
    requires call.BeginDeliver? && CanCall(s, call) && DeliveryInv(s) && CallbackRight(s, d) && Top(s).rest[0] == d
    requires d in s.h.started && d in s.h.fails
    ensures CallbackRight(Called(s, call), d)
  {
    FailedDelivery(s, d);
    BeginHistory(s, call, d);
    BeginKinds(s, call, d, if Top(s).aborted then AbortedCallback
                           else if s.sh.info[d].result == Success then SuccessCallback else ErrorCallback);
  }

  lemma BeginUnstarted(s: State, call: LuaStep, d: DataId)
    requires call.BeginDeliver? && CanCall(s, call) && Top(s).rest[0] == d && d !in s.h.started
    ensures CallbackRight(Called(s, call), d)
  {
    BeginHistory(s, call, d);
  }

  lemma CallbackStep(s: State, step: Step, d: DataId)
    requires DeliveryInv(s) && Enabled(s, step) && CallbackRight(s, d)
    ensures CallbackRight(Next(s, step), d)
  {
    match step
    case Work(work) => WorkCallback(s, work, d);
    case Lua(call) =>
      if !call.BeginDeliver? {
        CallCallback(s, call, d);
      } else if Top(s).rest[0] != d {
        BeginOther(s, call, d);
      } else if d !in s.h.started {
        BeginUnstarted(s, call, d);
      } else if d in s.h.fails {
        BeginFailed(s, call, d);
      } else {
        BeginDue(s, call, d);
      }
  }

  lemma {:induction false} CallbackRun(s: State, steps: seq<Step>, d: DataId)
    requires DeliveryInv(s) && CanRun(s, steps) && CallbackRight(s, d)
    ensures CallbackRight(Run(s, steps), d)
    decreases |steps|
  {
    if steps != [] {
      CallbackStep(s, steps[0], d);
      DeliveryStep(s, steps[0]);
      CallbackRun(Next(s, steps[0]), steps[1..], d);
    }
  }

  // ---------------------------------------------------------------------------------------------------------
  // Main results
  // ---------------------------------------------------------------------------------------------------------

  /** After every run, whatever callbacks do: started data no wait on which has failed has had no callback before its
      delivery, and from then on exactly the one that tells what happened to it, aborted, success or error, if its start
      kept that callback; and none if it kept none and the data was not its query's first. */
  lemma DueCallbackRuns(steps: seq<Step>, d: DataId)
    requires CanRun(INIT, steps) && d in Run(INIT, steps).h.started && d !in Run(INIT, steps).h.fails
    ensures var s := Run(INIT, steps); var kinds := KindsOf(s.h.events, d);
      var kind := if d in s.h.aborted then AbortedCallback
                  else if d in s.h.outcome && s.h.outcome[d] == Success then SuccessCallback else ErrorCallback;
      && d in s.sh.info && d in s.h.created
      && (!Begun(s, d) ==> kinds == [])
      && (Begun(s, d) ==>
            && (d in s.h.aborted || d in s.h.outcome) && (kinds == [] || kinds == [kind])
            && (Given(s.h.created[d], kind) ==> kinds == [kind])
            && (SlotOf(kind) !in s.h.created[d] && !s.sh.info[d].first ==> kinds == []))
  {
    InitDelivery();
    DeliveryRun(INIT, steps);
    CallbackRun(INIT, steps, d);
    assert RefsRight(Run(INIT, steps), d) && Facts(Run(INIT, steps), d);
  }

  /** Delivered data on which a wait has failed has had a callback, if its start kept all three; and if it was neither
      executed nor aborted, only error callbacks, and one if its start kept it. */
  lemma FailedWaitIsTold(steps: seq<Step>, d: DataId)
    requires CanRun(INIT, steps) && d in Run(INIT, steps).h.started && d in Run(INIT, steps).h.fails
    requires Begun(Run(INIT, steps), d)
    ensures var s := Run(INIT, steps); var kinds := KindsOf(s.h.events, d);
      && d in s.h.created
      && ({TableRef, SuccessRef, ErrorRef, AbortRef} <= s.h.created[d] ==> kinds != [])
      && (d !in s.h.outcome && d !in s.h.aborted ==>
            && (forall kind :: kind in kinds ==> kind == ErrorCallback)
            && ({TableRef, ErrorRef} <= s.h.created[d] ==> kinds != []))
  {
    InitDelivery();
    DeliveryRun(INIT, steps);
    CallbackRun(INIT, steps, d);
    assert RefsRight(Run(INIT, steps), d);
  }
}
