/**
 Runs that show where a stronger statement about the life cycle would be false. Each lemma returns the run.
 */
module Corners {
  import opened QueryTypes
  import opened BlockingQueues
  import opened Lifecycle
  import opened Conservation
  import opened Delivery
  import opened Progress

  lemma Lets(steps: seq<Step>, call: LuaStep) returns (steps': seq<Step>)
    requires CanRun(INIT, steps) && CanCall(Run(INIT, steps), call)
    ensures CanRun(INIT, steps') && Run(INIT, steps') == Called(Run(INIT, steps), call)
  {
    steps' := steps + [Lua(call)];
    RunAppend(INIT, steps, Lua(call));
  }

  lemma Works(steps: seq<Step>, work: WorkerStep) returns (steps': seq<Step>)
    requires CanRun(INIT, steps) && CanWork(Run(INIT, steps), work)
    ensures CanRun(INIT, steps') && Run(INIT, steps') == Worked(Run(INIT, steps), work)
  {
    steps' := steps + [Work(work)];
    RunAppend(INIT, steps, Work(work));
  }

  const PLAIN := StartPut(1, 7, false, [], {TableRef, ErrorRef}, Complete)

  /** A query started before `connect`, from Lua, up to the end of `start`. */
  lemma Started() returns (steps: seq<Step>)
    ensures CanRun(INIT, steps)
    ensures var s := Run(INIT, steps);
      && s.sh.queue == [Item(1)] && s.sh.finishedQueries == [] && !s.sh.canWait && s.sh.waiting == None
      && s.sh.info == map[1 := Data(7, false, [], true, Waiting, NoResult, NoError, false, {TableRef, ErrorRef})]
      && Get(s.running, 7) == [1] && 9 !in s.running && s.op == Free && s.stack == [] && s.worker == NotStarted
      && s.h.events == [] && s.h.taken == [] && s.h.started == {1} && s.h.outcome == map[] && s.h.done == []
  {
    steps := Lets([], PLAIN);
    steps := Lets(steps, StartStatus);
  }

  /** Delivering a data object that failed runs its error callback. */
  lemma DeliverError(s: State, rest: seq<DataId>, waited: Option<DataId>)
    requires s.op == Free && s.stack == [Frame(None, [1] + rest, false, waited)]
    requires 1 in s.sh.info && s.sh.info[1].result == Error && s.sh.info[1].refs == {TableRef, ErrorRef}
    ensures CanCall(s, BeginDeliver(true))
    ensures Called(s, BeginDeliver(true))
            == s.(stack := [Frame(Some(1), rest, false, waited)],
                  h := s.h.(events := s.h.events + [Event(1, ErrorCallback)]))
  {
    assert ([1] + rest)[1..] == rest;
  }

  lemma WaitFailed() returns (steps: seq<Step>)
    ensures CanRun(INIT, steps)
    ensures var s := Run(INIT, steps);
      && s.sh.queue == [Item(1)] && !s.sh.canWait && s.worker == NotStarted && s.op == ThinkNow(Some(1))
      && s.sh.info == map[1 := Data(7, false, [], true, Complete, Error, WaitImpossible, true, {TableRef, ErrorRef})]
      && Get(s.running, 7) == [1] && s.stack == [] && s.sh.finishedQueries == [1] && s.h.events == []
  {
    steps := Started();
    steps := Lets(steps, WaitSwap(7, false));
    steps := Lets(steps, WaitEnter);
  }

  /** The wait on it has failed, and its error callback is running. */
  lemma FailedAndDelivering() returns (steps: seq<Step>)
    ensures CanRun(INIT, steps)
    ensures var s := Run(INIT, steps);
      && s.sh.queue == [Item(1)] && !s.sh.canWait && s.worker == NotStarted && s.op == Free
      && s.sh.info == map[1 := Data(7, false, [], true, Complete, Error, WaitImpossible, true, {TableRef, ErrorRef})]
      && Get(s.running, 7) == [1] && s.stack == [Frame(Some(1), [], false, Some(1))] && s.sh.finishedQueries == []
      && s.h.events == [] + [Event(1, ErrorCallback)]
  {
    steps := WaitFailed();
    steps := Lets(steps, ThinkTake);
    assert [1] + [] == [1];
    DeliverError(Run(INIT, steps), [], Some(1));
    steps := Lets(steps, BeginDeliver(true));
  }

  lemma FailedAgainInside() returns (steps: seq<Step>)
    ensures CanRun(INIT, steps)
    ensures var s := Run(INIT, steps);
      && s.op == Free && 1 in s.sh.info && s.sh.info[1].result == Error && s.sh.info[1].refs == {TableRef, ErrorRef}
      && s.stack == [Frame(Some(1), [], false, Some(1)), Frame(None, [1], false, Some(1))]
      && s.h.events == [] + [Event(1, ErrorCallback)]
  {
    steps := FailedAndDelivering();
    steps := Lets(steps, WaitSwap(7, false));
    steps := Lets(steps, WaitEnter);
    assert Run(INIT, steps).sh.finishedQueries == [1] && Run(INIT, steps).op == ThinkNow(Some(1));
    steps := Lets(steps, ThinkTake);
  }

  /** Waiting inside its own error callback, with the database not connected, delivers the same data again. */
  lemma WaitInOwnCallback() returns (steps: seq<Step>)
    ensures CanRun(INIT, steps)
    ensures EventsOf(Run(INIT, steps).h.events, 1) == 2
  {
    steps := FailedAgainInside();
    steps := Lets(steps, BeginDeliver(true));
    assert Run(INIT, steps).h.events == [] + [Event(1, ErrorCallback)] + [Event(1, ErrorCallback)];
    EventsPush([] + [Event(1, ErrorCallback)], Event(1, ErrorCallback), 1);
    EventsPush([], Event(1, ErrorCallback), 1);
  }

  /** The end of the only callback of a loop. */
  lemma EndDeliverShape(s: State)
    requires s.op == Free && s.stack == [Frame(Some(1), [], false, Some(1))] && 1 in s.sh.info
    ensures CanCall(s, EndDeliver)
    ensures var s' := Called(s, EndDeliver);
      && s'.sh.queue == s.sh.queue && s'.worker == s.worker && s'.op == Free && s'.h.events == s.h.events
      && s'.stack == [Frame(None, [], false, Some(1))] && 1 in s'.h.done
  {
    var s' := Called(s, EndDeliver);
    assert s' == DoEndDeliver(s);
    assert s'.h.done[|s.h.done|] == 1;
  }

  lemma FailedAndDelivered() returns (steps: seq<Step>)
    ensures CanRun(INIT, steps)
    ensures var s := Run(INIT, steps);
      && s.sh.queue == [Item(1)] && s.worker == NotStarted && UserCode(s) && s.stack == []
      && 1 in s.h.done && s.h.events == [Event(1, ErrorCallback)]
  {
    steps := FailedAndDelivering();
    EndDeliverShape(Run(INIT, steps));
    steps := Lets(steps, EndDeliver);
    steps := Lets(steps, FrameEnd);
  }

  /** A failed wait leaves the data queued: it is delivered as an error and executed after all. */
  lemma FailedWaitExecutesLater() returns (steps: seq<Step>)
    ensures CanRun(INIT, steps)
    ensures var s := Run(INIT, steps);
      1 in s.h.done && s.h.events == [Event(1, ErrorCallback)] && 1 in s.h.outcome && s.h.outcome[1] == Success
  {
    steps := FailedAndDelivered();
    steps := Lets(steps, Connect);
    steps := Works(steps, ConnectOk);
    steps := Works(steps, Take);
    steps := Works(steps, Begin);
    steps := Works(steps, Execute(Success, NoError));
  }

  /** Executed with success on a connected database; nothing delivered yet. */
  lemma ExecutedWithSuccess() returns (steps: seq<Step>)
    ensures CanRun(INIT, steps)
    ensures var s := Run(INIT, steps);
      && s.sh.queue == [] && s.sh.finishedQueries == [1] && s.sh.canWait && s.sh.waiting == None
      && s.sh.info == map[1 := Data(7, false, [], true, Complete, Success, NoError, true, {TableRef, ErrorRef})]
      && Get(s.running, 7) == [1] && s.op == Free && s.stack == [] && s.worker == Idle
      && s.h.events == [] && s.h.outcome == map[1 := Success]
  {
    steps := Started();
    steps := Lets(steps, Connect);
    steps := Works(steps, ConnectOk);
    steps := Works(steps, Take);
    steps := Works(steps, Begin);
    steps := Works(steps, Execute(Success, NoError));
    steps := Works(steps, Publish);
    steps := Works(steps, Finish);
  }

  lemma EndedAfterSuccess() returns (steps: seq<Step>)
    ensures CanRun(INIT, steps)
    ensures var s := Run(INIT, steps);
      && s.sh.finishedQueries == [1] && !s.sh.canWait && s.op == Free && s.stack == [] && s.worker == Ended
      && s.sh.info == map[1 := Data(7, false, [], true, Complete, Success, NoError, true, {TableRef, ErrorRef})]
      && Get(s.running, 7) == [1] && s.h.events == [] && s.h.outcome == map[1 := Success]
  {
    steps := ExecutedWithSuccess();
    steps := Lets(steps, Disconnect(false));
    steps := Works(steps, Take);
    steps := Works(steps, AbortWaiting);
  }

  lemma SuccessOverwritten() returns (steps: seq<Step>)
    ensures CanRun(INIT, steps)
    ensures var s := Run(INIT, steps);
      && s.sh.finishedQueries == [1] + [1] && s.op == ThinkNow(Some(1)) && s.stack == []
      && 1 in s.sh.info && s.sh.info[1].result == Error && s.sh.info[1].refs == {TableRef, ErrorRef}
      && s.h.events == [] && s.h.outcome == map[1 := Success]
  {
    steps := EndedAfterSuccess();
    steps := Lets(steps, WaitSwap(7, false));
    steps := Lets(steps, WaitEnter);
  }

  /** A wait after the worker has ended overwrites a recorded success: the error callback runs instead. */
  lemma WaitOverwritesSuccess() returns (steps: seq<Step>)
    ensures CanRun(INIT, steps)
    ensures var h := Run(INIT, steps).h;
      h.outcome == map[1 := Success] && h.events == [Event(1, ErrorCallback)]
  {
    steps := SuccessOverwritten();
    steps := Lets(steps, ThinkTake);
    DeliverError(Run(INIT, steps), [1], Some(1));
    steps := Lets(steps, BeginDeliver(true));
    assert Run(INIT, steps).h.events == [] + [Event(1, ErrorCallback)];
  }

  lemma BlockedWhileConnecting() returns (steps: seq<Step>)
    ensures CanRun(INIT, steps)
    ensures var s := Run(INIT, steps);
      s.op == Blocked(1) && s.worker == Connecting && 1 in s.h.started && !Finished(s.sh, 1)
  {
    steps := Started();
    steps := Lets(steps, Connect);
    steps := Lets(steps, WaitSwap(7, false));
    steps := Lets(steps, WaitEnter);
  }

  /** The failed `mysql_init` fails no waiter: the Lua thread stays blocked and nothing can happen any more. */
  lemma InitFailureStrandsWaiter() returns (steps: seq<Step>)
    ensures CanRun(INIT, steps)
    ensures var s := Run(INIT, steps); Stuck(s) && s.op == Blocked(1) && 1 in s.h.started
  {
    steps := BlockedWhileConnecting();
    steps := Works(steps, ConnectInitFail);
    WorkerRestsIff(Run(INIT, steps));
  }

  /** A transaction with one member, executed on a connected database. */
  lemma TransactionStarted() returns (steps: seq<Step>)
    ensures CanRun(INIT, steps)
    ensures var s := Run(INIT, steps);
      && s.sh.queue == [Item(1)] && s.op == Free && s.stack == [] && s.worker == Idle && s.sh.canWait
      && Get(s.running, 8) == [2] && 2 in s.sh.info && !s.sh.info[2].finished && 1 in s.sh.info
  {
    steps := Lets([], Connect);
    steps := Works(steps, ConnectOk);
    OwnerOfIs8();
    steps := Lets(steps, StartPut(1, 7, true, [Member(8, 2)], {TableRef}, NotRunning));
    var s := Run(INIT, steps);
    assert s.sh.queue == [Item(1)] && Get(s.running, 8) == [2] && 2 in s.sh.info && !s.sh.info[2].finished;
    steps := Lets(steps, StartStatus);
  }

  lemma TransactionExecuted() returns (steps: seq<Step>)
    ensures CanRun(INIT, steps)
    ensures var s := Run(INIT, steps);
      && s.sh.queue == [] && s.op == Free && s.stack == [] && s.worker == Idle && s.sh.canWait
      && Get(s.running, 8) == [2] && 2 in s.sh.info && !s.sh.info[2].finished
  {
    steps := TransactionStarted();
    steps := Works(steps, Take);
    steps := Works(steps, Begin);
    steps := Works(steps, Execute(Success, NoError));
    steps := Works(steps, Publish);
    steps := Works(steps, Finish);
  }

  lemma WaitingOnMember() returns (steps: seq<Step>)
    ensures CanRun(INIT, steps)
    ensures var s := Run(INIT, steps);
      s.op == Blocked(2) && s.worker == Idle && s.sh.queue == [] && !Finished(s.sh, 2)
  {
    steps := TransactionExecuted();
    steps := Lets(steps, WaitSwap(8, false));
    steps := Lets(steps, WaitEnter);
  }

  lemma BlockedForEver(s: State, d: DataId)
    requires s.op == Blocked(d) && s.worker == Idle && s.sh.queue == [] && !Finished(s.sh, d)
    ensures Stuck(s)
  {
    WorkerRestsIff(s);
  }

  /** Waiting on a query whose last data belongs to a transaction: nobody marks that data finished. */
  lemma MemberWaitNeverEnds() returns (steps: seq<Step>)
    ensures CanRun(INIT, steps)
    ensures var s := Run(INIT, steps); Stuck(s) && s.op == Blocked(2) && s.worker == Idle
  {
    steps := WaitingOnMember();
    BlockedForEver(Run(INIT, steps), 2);
  }

  lemma OwnerOfIs8()
    ensures 2 in MemberData([Member(8, 2)]) && OwnerOf([Member(8, 2)], 2) == 8
  {
  }

  lemma QueuedButNotYetWaiting() returns (steps: seq<Step>)
    ensures CanRun(INIT, steps)
    ensures var s := Run(INIT, steps);
      s.sh.queue == [Item(1)] && s.op == Starting(1) && s.worker == Idle && 1 in s.sh.info
  {
    steps := Lets([], Connect);
    steps := Works(steps, ConnectOk);
    steps := Lets(steps, PLAIN);
  }

  /** `start` sets the status after queueing: a data object can be finished and say it is waiting. */
  lemma StatusIsNotMonotone() returns (steps: seq<Step>)
    ensures CanRun(INIT, steps)
    ensures var s := Run(INIT, steps); Finished(s.sh, 1) && s.sh.info[1].status == Waiting
  {
    steps := QueuedButNotYetWaiting();
    steps := Works(steps, Take);
    steps := Works(steps, Begin);
    steps := Works(steps, Execute(Success, NoError));
    steps := Works(steps, Publish);
    steps := Works(steps, Finish);
    steps := Lets(steps, StartStatus);
  }

  /** Connected, with one query queued. */
  lemma ConnectedWithOne() returns (steps: seq<Step>)
    ensures CanRun(INIT, steps)
    ensures var s := Run(INIT, steps);
      && s.sh.queue == [Item(1)] && s.sh.finishedQueries == [] && s.op == Free && s.stack == [] && s.worker == Idle
      && s.sh.canWait && s.sh.waiting == None && 9 !in s.running && s.h.taken == [] && s.sh.info.Keys == {1}
      && s.h.done == []
  {
    steps := Started();
    steps := Lets(steps, Connect);
    steps := Works(steps, ConnectOk);
  }

  lemma OneAheadOfThePill() returns (steps: seq<Step>)
    ensures CanRun(INIT, steps)
    ensures var s := Run(INIT, steps);
      && s.sh.queue == [Item(1), Pill] && s.op == Free && s.stack == [] && s.worker == Idle
      && 9 !in s.running && s.h.taken == [] && s.sh.info.Keys == {1}
  {
    steps := ConnectedWithOne();
    steps := Lets(steps, Disconnect(false));
  }

  /** Connected, with one query ahead of a pill and one behind it. */
  lemma OneBehindThePill() returns (steps: seq<Step>)
    ensures CanRun(INIT, steps)
    ensures var s := Run(INIT, steps);
      && s.sh.queue == [Item(1), Pill, Item(2)] && s.op == Free && s.stack == [] && s.worker == Idle
      && Get(s.running, 9) == [2] && s.h.taken == [] && 2 in s.sh.info
  {
    steps := OneAheadOfThePill();
    steps := Lets(steps, StartPut(2, 9, false, [], {TableRef}, Complete));
    steps := Lets(steps, StartStatus);
  }

  lemma SwappedFromBehindThePill() returns (steps: seq<Step>)
    ensures CanRun(INIT, steps)
    ensures var s := Run(INIT, steps);
      s.sh.queue == [Item(2), Pill, Item(1)] && s.worker == Idle && s.h.taken == [] && 2 in s.sh.info
  {
    steps := OneBehindThePill();
    var s := Run(INIT, steps);
    assert IndexOf(s.sh.queue, Item(2)) == 2;
    steps := Lets(steps, WaitSwap(9, true));
  }

  /** Swapping a query from behind the pill moves the front entry behind it: it is never executed. */
  lemma SwapLosesFront() returns (steps: seq<Step>)
    ensures CanRun(INIT, steps)
    ensures var s := Run(INIT, steps); s.worker == Closing && 1 !in s.h.taken && Item(1) in s.sh.queue
  {
    steps := SwappedFromBehindThePill();
    steps := Works(steps, Take);
    steps := Works(steps, Begin);
    steps := Works(steps, Execute(Success, NoError));
    steps := Works(steps, Publish);
    steps := Works(steps, Finish);
    assert Run(INIT, steps).sh.queue == [Pill, Item(1)] && Run(INIT, steps).h.taken == [2];
    steps := Works(steps, Take);
    assert Run(INIT, steps).sh.queue == [Item(1)];
  }

  lemma TwoQueued() returns (steps: seq<Step>)
    ensures CanRun(INIT, steps)
    ensures var s := Run(INIT, steps);
      && s.sh.queue == [Item(1), Item(2)] && s.sh.finishedQueries == [] && s.op == Free && s.stack == []
      && s.worker == Idle && s.sh.canWait && s.sh.waiting == None && 1 in s.sh.info && 2 in s.sh.info
      && Get(s.running, 9) == [2] && s.h.done == []
  {
    steps := ConnectedWithOne();
    steps := Lets(steps, StartPut(2, 9, false, [], {TableRef}, Complete));
    steps := Lets(steps, StartStatus);
  }

  lemma OneServed() returns (steps: seq<Step>)
    ensures CanRun(INIT, steps)
    ensures var s := Run(INIT, steps);
      && s.sh.queue == [Item(2)] && s.sh.finishedQueries == [1] && s.op == Free && s.stack == []
      && s.worker == Idle && s.sh.canWait && s.sh.waiting == None && 1 in s.sh.info && 2 in s.sh.info
      && Get(s.running, 9) == [2] && s.h.done == []
  {
    steps := TwoQueued();
    steps := Works(steps, Take);
    steps := Works(steps, Begin);
    steps := Works(steps, Execute(Success, NoError));
    steps := Works(steps, Publish);
    steps := Works(steps, Finish);
  }

  lemma TwoServed() returns (steps: seq<Step>)
    ensures CanRun(INIT, steps)
    ensures var s := Run(INIT, steps);
      && s.sh.finishedQueries == [1, 2] && s.op == Free && s.stack == [] && s.sh.canWait && s.sh.waiting == None
      && 1 in s.sh.info && Finished(s.sh, 2) && Get(s.running, 9) == [2] && s.h.done == []
  {
    steps := OneServed();
    steps := Works(steps, Take);
    steps := Works(steps, Begin);
    steps := Works(steps, Execute(Success, NoError));
    steps := Works(steps, Publish);
    steps := Works(steps, Finish);
  }

  lemma LoopOverBoth() returns (steps: seq<Step>)
    ensures CanRun(INIT, steps)
    ensures var s := Run(INIT, steps);
      && s.op == Free && s.stack == [Frame(None, [1, 2], false, None)] && s.sh.finishedQueries == []
      && s.sh.canWait && 1 in s.sh.info && Finished(s.sh, 2) && Get(s.running, 9) == [2] && s.h.done == []
  {
    steps := TwoServed();
    steps := Lets(steps, Think);
    steps := Lets(steps, ThinkTake);
  }

  /** In the callback of data 1, while the loop still has data 2 to deliver. */
  lemma InsideTheFirst() returns (steps: seq<Step>)
    ensures CanRun(INIT, steps)
    ensures var s := Run(INIT, steps);
      && s.op == Free && s.stack == [Frame(Some(1), [2], false, None)] && s.sh.finishedQueries == []
      && s.sh.canWait && Finished(s.sh, 2) && Get(s.running, 9) == [2] && s.h.done == []
  {
    steps := LoopOverBoth();
    assert [1, 2][1..] == [2];
    steps := Lets(steps, BeginDeliver(true));
  }

  /** The data waited for inside that callback is finished, so the wait goes on to the finished list. */
  lemma WaitingInside() returns (steps: seq<Step>)
    ensures CanRun(INIT, steps)
    ensures var s := Run(INIT, steps);
      && s.op == ThinkNow(Some(2)) && s.stack == [Frame(Some(1), [2], false, None)] && s.sh.finishedQueries == []
      && s.h.done == []
  {
    steps := InsideTheFirst();
    steps := Lets(steps, WaitSwap(9, false));
    steps := Lets(steps, WaitEnter);
  }

  /** The end of a wait that found nothing to deliver. */
  lemma EmptyThink(s: State, f: Frame)
    requires s.op == ThinkNow(Some(2)) && s.stack == [f] && s.sh.finishedQueries == []
    ensures CanCall(s, ThinkTake)
    ensures var s' := Called(s, ThinkTake);
      && CanCall(s', FrameEnd) && Top(s').waited == Some(2) && Below(s') == [f] && s'.h.done == s.h.done
  {
    assert Called(s, ThinkTake) == DoThinkTake(s, Some(2));
  }

  /** A wait inside a callback can return while the data it waited for is still undelivered in the loop around it. */
  lemma NestedWaitReturnsEarly() returns (steps: seq<Step>)
    ensures CanRun(INIT, steps) && CanCall(Run(INIT, steps), FrameEnd)
    ensures var s := Run(INIT, steps);
      Top(s).waited == Some(2) && 2 !in s.h.done && OnStack(Below(s), 2) > 0
  {
    steps := WaitingInside();
    EmptyThink(Run(INIT, steps), Frame(Some(1), [2], false, None));
    steps := Lets(steps, ThinkTake);
  }
}
