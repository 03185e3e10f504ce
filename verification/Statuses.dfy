/** What the status of a started data object can be in each stage of its life. */
module Statuses {
  import opened QueryTypes
  import opened BlockingQueues
  import opened Lifecycle
  import opened Conservation
  import opened Delivery

  /** Once `start` has returned, and unless a wait on the data failed: queued or just taken data says waiting, aborted
      data says aborted, and what the worker writes while it executes can only be hidden by the late waiting mark of
      `start`. */
  predicate StatusRight(s: State, d: DataId) {
    d in s.h.started && d !in s.h.fails && s.op != Starting(d) ==>
      d in s.sh.info &&
      var status := s.sh.info[d].status;
      && (Item(d) in s.sh.queue ==> status == Waiting)
      && (s.worker == Taken(d) ==> status == Waiting)
      && (s.worker == Executing(d) ==> status == Running || status == Waiting)
      && (d in s.h.outcome ==> status == Complete || status == Waiting)
      && (d in s.h.aborted ==> status == Aborted)
  }

  /** After a wait on the data has failed: complete while it is still queued or just taken, running while the worker
      executes it all the same, and complete again; or aborted, until another failed wait says complete. Its `start`
      has returned. */
  predicate FailedStatusRight(s: State, d: DataId) {
    d in s.h.started && d in s.h.fails ==>
      d in s.sh.info && s.op != Starting(d) &&
      var status := s.sh.info[d].status;
      && (Item(d) in s.sh.queue ==> status == Complete)
      && (s.worker == Taken(d) ==> status == Complete)
      && (s.worker == Executing(d) ==> status == Running)
      && (d in s.h.outcome ==> status == Complete)
      && (d in s.h.aborted ==> status == Aborted || status == Complete)
  }

  /** Nothing can abort a data object before its `start` returns. */
  predicate StartingFresh(s: State) {
    s.op.Starting? ==> s.op.data !in s.h.aborted
  }

  /** Queued, taken and aborted exclude each other. */
  lemma Exclusive(s: State, d: DataId)
    requires Facts(s, d)
    ensures Item(d) in s.sh.queue ==> d !in s.h.taken && d !in s.h.aborted && d !in s.h.outcome
    ensures d in s.h.aborted ==> d !in s.h.taken && d !in s.h.outcome
    ensures Held(s.worker, d) ==> d in s.h.taken
    ensures d in s.h.outcome ==> d in s.h.taken
    ensures d !in s.sh.info ==> d !in s.h.started
  {
    CountIn(s.sh.queue, Item(d));
    CountIn(s.h.taken, d);
    CountIn(s.h.aborted, d);
  }

  lemma StartStatuses(s: State, call: LuaStep, d: DataId)
    requires call.StartPut? && CanCall(s, call) && StatusRight(s, d) && Facts(s, d)
    ensures StatusRight(Called(s, call), d)
  {
    Exclusive(s, d);
  }

  lemma SwapStatuses(s: State, call: LuaStep, d: DataId)
    requires call.WaitSwap? && CanCall(s, call) && StatusRight(s, d)
    ensures StatusRight(Called(s, call), d)
  {
    var ds := Get(s.running, call.query);
    SwapToFrontPermutes(s.sh.queue, Item(ds[|ds| - 1]), Item(d));
    CountIn(s.sh.queue, Item(d));
    CountIn(SwapToFront(s.sh.queue, Item(ds[|ds| - 1])), Item(d));
  }

  lemma AbortStatuses(s: State, d: DataId)
    requires CanCall(s, AbortOne) && StatusRight(s, d) && Facts(s, d)
    ensures StatusRight(Called(s, AbortOne), d)
  {
    Exclusive(s, d);
    WithoutIn(s.sh.queue, Item(s.op.todo[0]), Item(d));
  }

  lemma AbortAllStatuses(s: State, d: DataId)
    requires CanCall(s, AbortAll) && StatusRight(s, d) && Facts(s, d)
    ensures StatusRight(Called(s, AbortAll), d)
  {
    Exclusive(s, d);
    QueueDataCounts(s.sh.queue, d);
    CountIn(QueueData(s.sh.queue), d);
    CountIn(s.sh.queue, Item(d));
  }

  lemma StartDoneStatuses(s: State, d: DataId)
    requires CanCall(s, StartStatus) && StatusRight(s, d) && StartingFresh(s) && Facts(s, d)
    ensures StatusRight(Called(s, StartStatus), d)
  {
    Exclusive(s, d);
  }

  lemma OtherStatuses(s: State, call: LuaStep, d: DataId)
    requires !call.StartPut? && !call.StartStatus? && !call.WaitSwap? && !call.AbortOne? && !call.AbortAll?
    requires !call.BeginDeliver?
    requires CanCall(s, call) && StatusRight(s, d)
    ensures StatusRight(Called(s, call), d)
  {
    CallKeys(s, call);
    if d in s.sh.info {
      CallRecord(s, call, d);
    }
  }

  /** Only executed data is marked complete by a delivery. */
  lemma BeginDeliverStatuses(s: State, call: LuaStep, d: DataId)
    requires call.BeginDeliver? && CanCall(s, call) && StatusRight(s, d) && Facts(s, d) && ResultRight(s, d)
    ensures StatusRight(Called(s, call), d)
  {
    Exclusive(s, d);
    CallKeys(s, call);
    if d in s.sh.info {
      CallRecord(s, call, d);
    }
  }

  lemma CallStatuses(s: State, call: LuaStep, d: DataId)
    requires CanCall(s, call) && StatusRight(s, d) && StartingFresh(s) && Facts(s, d) && ResultRight(s, d)
    ensures StatusRight(Called(s, call), d)
  {
    match call
    case StartPut(_, _, _, _, _, _) => StartStatuses(s, call, d);
    case StartStatus => StartDoneStatuses(s, d);
    case WaitSwap(_, _) => SwapStatuses(s, call, d);
    case AbortOne => AbortStatuses(s, d);
    case AbortAll => AbortAllStatuses(s, d);
    case BeginDeliver(_) => BeginDeliverStatuses(s, call, d);
    case _ => OtherStatuses(s, call, d);
  }

  lemma TakeStatuses(s: State, d: DataId)
    requires CanWork(s, Take) && StatusRight(s, d)
    ensures StatusRight(Worked(s, Take), d)
  {
    assert s.sh.queue == [s.sh.queue[0]] + s.sh.queue[1..];
  }

  lemma ExecuteStatuses(s: State, work: WorkerStep, d: DataId)
    requires work.Begin? || work.Execute?
    requires CanWork(s, work) && StatusRight(s, d) && Facts(s, d)
    ensures StatusRight(Worked(s, work), d)
  {
    Exclusive(s, d);
  }

  lemma AbortWaitingStatuses(s: State, d: DataId)
    requires CanWork(s, AbortWaiting) && StatusRight(s, d)
    ensures StatusRight(Worked(s, AbortWaiting), d)
  {
  }

  lemma WorkStatuses(s: State, work: WorkerStep, d: DataId)
    requires CanWork(s, work) && StatusRight(s, d) && Facts(s, d)
    ensures StatusRight(Worked(s, work), d)
  {
    match work
    case Take => TakeStatuses(s, d);
    case Begin => ExecuteStatuses(s, work, d);
    case Execute(_, _) => ExecuteStatuses(s, work, d);
    case AbortWaiting => AbortWaitingStatuses(s, d);
    case _ =>
  }

  // ---------------------------------------------------------------------------------------------------------
  // After a failed wait
  // ---------------------------------------------------------------------------------------------------------

  lemma StartFailed(s: State, call: LuaStep, d: DataId)
    requires call.StartPut? && CanCall(s, call) && FailedStatusRight(s, d) && Facts(s, d)
    ensures FailedStatusRight(Called(s, call), d)
  {
    Exclusive(s, d);
    CountIn(s.h.fails, d);
  }

  lemma SwapFailed(s: State, call: LuaStep, d: DataId)
    requires call.WaitSwap? && CanCall(s, call) && FailedStatusRight(s, d)
    ensures FailedStatusRight(Called(s, call), d)
  {
    var ds := Get(s.running, call.query);
    SwapToFrontPermutes(s.sh.queue, Item(ds[|ds| - 1]), Item(d));
    CountIn(s.sh.queue, Item(d));
    CountIn(SwapToFront(s.sh.queue, Item(ds[|ds| - 1])), Item(d));
  }

  lemma AbortOneFailed(s: State, d: DataId)
    requires CanCall(s, AbortOne) && FailedStatusRight(s, d) && Facts(s, d)
    ensures FailedStatusRight(Called(s, AbortOne), d)
  {
    Exclusive(s, d);
    WithoutIn(s.sh.queue, Item(s.op.todo[0]), Item(d));
  }

  lemma AbortAllFailed(s: State, d: DataId)
    requires CanCall(s, AbortAll) && FailedStatusRight(s, d) && Facts(s, d)
    ensures FailedStatusRight(Called(s, AbortAll), d)
  {
    Exclusive(s, d);
    QueueDataCounts(s.sh.queue, d);
    CountIn(QueueData(s.sh.queue), d);
    CountIn(s.sh.queue, Item(d));
  }

  /** A wait fails only while the worker has nothing in hand. */
  lemma WaitFailed(s: State, d: DataId)
    requires CanCall(s, WaitEnter) && FailedStatusRight(s, d) && Facts(s, d) && CanWaitRight(s)
    ensures FailedStatusRight(Called(s, WaitEnter), d)
  {
    Exclusive(s, d);
    CallKeys(s, WaitEnter);
    if d in s.sh.info {
      CallRecord(s, WaitEnter, d);
    }
  }

  lemma OtherFailed(s: State, call: LuaStep, d: DataId)
    requires !call.StartPut? && !call.WaitSwap? && !call.AbortOne? && !call.AbortAll? && !call.WaitEnter?
    requires CanCall(s, call) && FailedStatusRight(s, d) && Facts(s, d) && ResultRight(s, d)
    ensures FailedStatusRight(Called(s, call), d)
  {
    Exclusive(s, d);
    CallKeys(s, call);
    if d in s.sh.info {
      CallRecord(s, call, d);
    }
  }

  lemma CallFailed(s: State, call: LuaStep, d: DataId)
    requires CanCall(s, call) && FailedStatusRight(s, d) && Facts(s, d) && ResultRight(s, d) && CanWaitRight(s)
    ensures FailedStatusRight(Called(s, call), d)
  {
    match call
    case StartPut(_, _, _, _, _, _) => StartFailed(s, call, d);
    case WaitSwap(_, _) => SwapFailed(s, call, d);
    case AbortOne => AbortOneFailed(s, d);
    case AbortAll => AbortAllFailed(s, d);
    case WaitEnter => WaitFailed(s, d);
    case _ => OtherFailed(s, call, d);
  }

  lemma TakeFailed(s: State, d: DataId)
    requires CanWork(s, Take) && FailedStatusRight(s, d)
    ensures FailedStatusRight(Worked(s, Take), d)
  {
    assert s.sh.queue == [s.sh.queue[0]] + s.sh.queue[1..];
  }

  lemma ExecuteFailed(s: State, work: WorkerStep, d: DataId)
    requires work.Begin? || work.Execute?
    requires CanWork(s, work) && FailedStatusRight(s, d) && Facts(s, d)
    ensures FailedStatusRight(Worked(s, work), d)
  {
    Exclusive(s, d);
  }

  lemma AbortWaitingFailed(s: State, d: DataId)
    requires CanWork(s, AbortWaiting) && FailedStatusRight(s, d) && Facts(s, d)
    ensures FailedStatusRight(Worked(s, AbortWaiting), d)
  {
    Exclusive(s, d);
  }

  lemma WorkFailed(s: State, work: WorkerStep, d: DataId)
    requires CanWork(s, work) && FailedStatusRight(s, d) && Facts(s, d)
    ensures FailedStatusRight(Worked(s, work), d)
  {
    match work
    case Take => TakeFailed(s, d);
    case Begin => ExecuteFailed(s, work, d);
    case Execute(_, _) => ExecuteFailed(s, work, d);
    case AbortWaiting => AbortWaitingFailed(s, d);
    case _ =>
  }

  lemma StartingFreshStep(s: State, step: Step)
    requires Enabled(s, step) && StartingFresh(s) && Inv(s)
    ensures StartingFresh(Next(s, step))
  {
    if step.Lua? && step.call.StartPut? {
      assert Facts(s, step.call.data);
      CountIn(s.h.aborted, step.call.data);
    }
  }

  ghost predicate StatusInv(s: State) {
    && DeliveryInv(s) && StartingFresh(s)
    && (forall d: DataId :: StatusRight(s, d) && FailedStatusRight(s, d))
  }

  lemma StatusStep(s: State, step: Step)
    requires StatusInv(s) && Enabled(s, step)
    ensures StatusInv(Next(s, step))
  {
    DeliveryStep(s, step);
    StartingFreshStep(s, step);
    forall d: DataId ensures StatusRight(Next(s, step), d) && FailedStatusRight(Next(s, step), d) {
      assert Facts(s, d) && StatusRight(s, d) && FailedStatusRight(s, d) && ResultRight(s, d);
      match step
      case Lua(call) => CallStatuses(s, call, d); CallFailed(s, call, d);
      case Work(work) => WorkStatuses(s, work, d); WorkFailed(s, work, d);
    }
  }

  lemma {:induction false} StatusRun(s: State, steps: seq<Step>)
    requires StatusInv(s) && CanRun(s, steps)
    ensures StatusInv(Run(s, steps))
    decreases |steps|
  {
    if steps != [] {
      StatusStep(s, steps[0]);
      StatusRun(Next(s, steps[0]), steps[1..]);
    }
  }

  /** After every run the status of a started data object fits its stage, whether or not a wait on it has failed. */
  lemma StatusFitsStage(steps: seq<Step>, d: DataId)
    requires CanRun(INIT, steps)
    ensures StatusRight(Run(INIT, steps), d) && FailedStatusRight(Run(INIT, steps), d)
  {
    InitDelivery();
    StatusRun(INIT, steps);
  }
}
