/**
 What `disconnect`, `wait`, `abort` and `abortAllQueries` have done when they go on, whatever the database thread does
 meanwhile.
 */
module Calls {
  import opened QueryTypes
  import opened BlockingQueues
  import opened Lifecycle
  import opened Conservation
  import opened Drain
  import opened Outstanding
  import opened Reach

  // ---------------------------------------------------------------------------------------------------------
  // disconnect
  // ---------------------------------------------------------------------------------------------------------

  /** A thread that can be joined has been started, and only such a thread is waited for. */
  predicate Joinable(s: State) {
    && (s.joinable ==> s.worker != NotStarted)
    && (s.op == Joining ==> s.joinable)
  }

  lemma JoinableCall(s: State, call: LuaStep)
    requires Joinable(s) && CanCall(s, call)
    ensures Joinable(Called(s, call))
    ensures Called(s, call).joinable
            == (if call == Connect then true else if call == JoinDone then false else s.joinable)
    ensures Called(s, call).worker == NotStarted <==> s.worker == NotStarted && call != Connect
  {
  }

  lemma JoinableWork(s: State, work: WorkerStep)
    requires Joinable(s) && CanWork(s, work)
    ensures Joinable(Worked(s, work)) && Worked(s, work).joinable == s.joinable
    ensures s.worker != NotStarted && Worked(s, work).worker != NotStarted
  {
  }

  lemma {:induction false} JoinableRun(s: State, steps: seq<Step>)
    requires Joinable(s) && CanRun(s, steps)
    ensures var t := Run(s, steps);
      && Joinable(t)
      && (t.worker == NotStarted <==> s.worker == NotStarted && Lua(Connect) !in steps)
      && (t.joinable <==>
          (s.joinable || (s.worker == NotStarted && Lua(Connect) in steps)) && Lua(JoinDone) !in steps)
    decreases |steps|
  {
    if steps != [] {
      match steps[0] {
        case Lua(call) => JoinableCall(s, call);
        case Work(work) => JoinableWork(s, work);
      }
      JoinableRun(Next(s, steps[0]), steps[1..]);
      assert steps == [steps[0]] + steps[1..];
    }
  }

  /** `disconnect` queues a pill behind everything else. It stops to join the thread if and only if it was asked to wait
      and `connect` has started a thread that was not joined before; without `wait` the script goes on at once. */
  lemma DisconnectJoinsIff(steps: seq<Step>, wait: bool)
    requires CanRun(INIT, steps) && UserCode(Run(INIT, steps))
    ensures var s := Run(INIT, steps); var t := Called(s, Disconnect(wait));
      && t.sh == s.sh.(queue := s.sh.queue + [Pill]) && t.stack == s.stack && t.worker == s.worker && t.h == s.h
      && (t.op == Joining <==> wait && Lua(Connect) in steps && Lua(JoinDone) !in steps)
      && (t.op == Free <==> !wait)
  {
    JoinableRun(INIT, steps);
  }

  lemma JoiningCall(s: State, call: LuaStep)
    requires s.op == Joining && CanCall(s, call)
    ensures call == JoinDone
  {
  }

  lemma JoiningWork(s: State, work: WorkerStep)
    requires CanWork(s, work)
    ensures var t := Worked(s, work); t.op == s.op && t.h.aborted == s.h.aborted && t.stack == s.stack
  {
  }

  /** While the Lua thread joins the other one, only that one moves. */
  lemma JoiningStep(s: State, step: Step)
    requires s.op == Joining && Enabled(s, step)
    ensures step == Lua(JoinDone) || (step.Work? && Next(s, step).op == Joining)
    ensures step.Work? ==> Next(s, step).h.aborted == s.h.aborted && Next(s, step).stack == s.stack
  {
    match step
    case Lua(call) => JoiningCall(s, call);
    case Work(work) => JoiningWork(s, work);
  }

  /** The join is over. */
  lemma {:induction false} JoinEnds(s: State, more: seq<Step>) returns (n: nat)
    requires s.op == Joining && CanRun(s, more) && Run(s, more).op != Joining
    ensures n < |more| && more[n] == Lua(JoinDone) && CanRun(s, more[..n]) && CanCall(Run(s, more[..n]), JoinDone)
    ensures forall i :: 0 <= i < n ==> more[i].Work?
    ensures Run(s, more[..n]).h.aborted == s.h.aborted && Run(s, more[..n]).stack == s.stack
    ensures SwapsStayAhead(s, more[..n])
    decreases |more|
  {
    JoiningStep(s, more[0]);
    if more[0] == Lua(JoinDone) {
      n := 0;
    } else {
      var k := JoinEnds(Next(s, more[0]), more[1..]);
      n := k + 1;
      assert more[..n][1..] == more[1..][..k];
    }
  }

  lemma {:induction false} BeforeLastPill(q: seq<Entry>, d: DataId)
    requires Pill !in q
    ensures d in BeforePill(q + [Pill]) <==> Item(d) in q
  {
    if q == [] {
      assert q + [Pill] == [Pill];
    } else {
      assert (q + [Pill])[1..] == q[1..] + [Pill];
      BeforeLastPill(q[1..], d);
    }
  }

  lemma TakenCall(s: State, call: LuaStep)
    requires CanCall(s, call)
    ensures Called(s, call).h.taken == s.h.taken
  {
  }

  lemma TakenWork(s: State, work: WorkerStep, d: DataId)
    requires CanWork(s, work) && d in s.h.taken
    ensures d in Worked(s, work).h.taken
  {
  }

  lemma {:induction false} TakenStays(s: State, more: seq<Step>, d: DataId)
    requires CanRun(s, more) && d in s.h.taken
    ensures d in Run(s, more).h.taken
    decreases |more|
  {
    if more != [] {
      match more[0] {
        case Lua(call) => TakenCall(s, call);
        case Work(work) => TakenWork(s, work, d);
      }
      TakenStays(Next(s, more[0]), more[1..], d);
    }
  }

  /** The data has been executed, once, and is finished. */
  predicate Executed(s: State, d: DataId) {
    Count(s.h.taken, d) == 1 && d in s.h.outcome && Finished(s.sh, d)
  }

  /** What the thread took it has executed by the time it is past its loop. */
  lemma TakenIsExecuted(s: State, d: DataId)
    requires Facts(s, d) && d in s.h.taken && (s.worker == Ended || s.worker == InitFailed)
    ensures Executed(s, d)
  {
    CountIn(s.h.taken, d);
  }

  lemma QueuedIsNotAborted(s: State, d: DataId)
    requires Facts(s, d) && Item(d) in s.sh.queue
    ensures d !in s.h.aborted
  {
    CountIn(s.sh.queue, Item(d));
    CountIn(s.h.aborted, d);
  }

  /** The thread is joined after a pill was queued: what was ahead of the first pill was executed, unless the connection
      was refused. */
  lemma JoinedExecutes(steps: seq<Step>, more: seq<Step>, d: DataId)
    requires CanRun(INIT, steps) && CanRun(Run(INIT, steps), more) && SwapsStayAhead(Run(INIT, steps), more)
    requires Alive(Run(INIT, steps).worker) && Pill in Run(INIT, steps).sh.queue && !Refused(more)
    requires var t := Run(Run(INIT, steps), more);
      (t.worker == Ended || t.worker == InitFailed) && t.h.aborted == Run(INIT, steps).h.aborted
    requires d in BeforePill(Run(INIT, steps).sh.queue)
    ensures Executed(Run(Run(INIT, steps), more), d)
  {
    DisconnectDrains(steps, more, d);
    InitHolds();
    RunKeeps(INIT, steps);
    BeforePillIn(Run(INIT, steps).sh.queue, d);
    QueuedIsNotAborted(Run(INIT, steps), d);
  }

  /** `disconnect(true)` goes on only after a join, at which the database thread has ended. Until then only that thread
      moves; by then it has finished what it had taken, and executed exactly once whatever was queued ahead of the first
      pill, which is everything that was queued if none was; only a refused connection leaves that undone. */
  lemma DisconnectWaits(steps: seq<Step>, more: seq<Step>, d: DataId) returns (n: nat)
    requires CanRun(INIT, steps) && UserCode(Run(INIT, steps))
    requires CanRun(Called(Run(INIT, steps), Disconnect(true)), more)
    requires Lua(Connect) in steps && Lua(JoinDone) !in steps
    requires Run(Called(Run(INIT, steps), Disconnect(true)), more).op != Joining
    ensures n < |more| && more[n] == Lua(JoinDone) && forall i :: 0 <= i < n ==> more[i].Work?
    ensures var s := Run(INIT, steps); var t := Run(Called(s, Disconnect(true)), more[..n]);
      && (t.worker == Ended || t.worker == InitFailed) && t.stack == s.stack
      && (d in s.h.taken ==> Executed(t, d))
      && (Alive(s.worker) && !Refused(more[..n]) ==>
            && (d in BeforePill(s.sh.queue + [Pill]) ==> Executed(t, d))
            && (Pill !in s.sh.queue && Item(d) in s.sh.queue ==> Executed(t, d)))
  {
    DisconnectJoinsIff(steps, true);
    var s := Run(INIT, steps);
    var t := Called(s, Disconnect(true));
    n := JoinEnds(t, more);
    var steps' := steps + [Lua(Disconnect(true))];
    RunAppend(INIT, steps, Lua(Disconnect(true)));
    InitHolds();
    RunKeeps(INIT, steps');
    RunKeeps(t, more[..n]);
    assert Facts(Run(t, more[..n]), d);
    if d in s.h.taken {
      TakenStays(t, more[..n], d);
      TakenIsExecuted(Run(t, more[..n]), d);
    }
    if Alive(s.worker) && !Refused(more[..n]) {
      assert t.sh.queue[|s.sh.queue|] == Pill;
      if d in BeforePill(t.sh.queue) {
        JoinedExecutes(steps', more[..n], d);
      }
      if Pill !in s.sh.queue {
        BeforeLastPill(s.sh.queue, d);
      }
    }
  }

  // ---------------------------------------------------------------------------------------------------------
  // wait
  // ---------------------------------------------------------------------------------------------------------

  /** The Lua thread is in a `wait` for `d`, before its loop. */
  predicate InWait(op: MainOp, d: DataId) {
    op == WaitReady(d) || op == Blocked(d) || op == ThinkNow(Some(d))
  }

  lemma InWaitCall(s: State, call: LuaStep, d: DataId)
    requires InWait(s.op, d) && CanCall(s, call) && call != ThinkTake
    ensures InWait(Called(s, call).op, d) && Called(s, call).stack == s.stack
  {
  }

  lemma InWaitStep(s: State, step: Step, d: DataId)
    requires InWait(s.op, d) && Enabled(s, step) && step != Lua(ThinkTake)
    ensures InWait(Next(s, step).op, d) && Next(s, step).stack == s.stack
  {
    match step
    case Lua(call) => InWaitCall(s, call, d);
    case Work(work) => assert Worked(s, work).op == s.op && Worked(s, work).stack == s.stack;
  }

  lemma {:induction false} InWaitRun(s: State, more: seq<Step>, d: DataId)
    requires InWait(s.op, d) && CanRun(s, more) && Lua(ThinkTake) !in more
    ensures InWait(Run(s, more).op, d) && Run(s, more).stack == s.stack
    decreases |more|
  {
    if more != [] {
      InWaitStep(s, more[0], d);
      InWaitRun(Next(s, more[0]), more[1..], d);
    }
  }

  lemma SwappedIsFirst(q: seq<Entry>, e: Entry)
    requires e in q
    ensures SwapToFront(q, e)[0] == e
  {
  }

  lemma SwapIs(s: State, q: QueryId, swap: bool)
    requires CanCall(s, WaitSwap(q, swap))
    ensures var t := Called(s, WaitSwap(q, swap)); var ds := Get(s.running, q); var d := ds[|ds| - 1];
      && t.op == WaitReady(d) && t.sh == s.sh.(queue := t.sh.queue) && t.h == s.h && t.stack == s.stack
      && (if swap then t.sh.queue == SwapToFront(s.sh.queue, Item(d)) else t.sh.queue == s.sh.queue)
      && (swap && Item(d) in s.sh.queue ==> t.sh.queue[0] == Item(d))
  {
    var ds := Get(s.running, q);
    var d := ds[|ds| - 1];
    if swap && Item(d) in s.sh.queue {
      SwappedIsFirst(s.sh.queue, Item(d));
    }
  }

  lemma LoopBegins(u: State, d: DataId)
    requires InWait(u.op, d) && OpKnown(u)
    ensures CanCall(u, ThinkTake) ==>
      && Finished(u.sh, d) && Called(u, ThinkTake).op == Free
      && Called(u, ThinkTake).stack == u.stack + [Frame(None, u.sh.finishedQueries, false, Some(d))]
  {
  }

  /** Where a `wait` goes on. */
  lemma WaitGoesOn(t: State, more: seq<Step>, d: DataId)
    requires Inv(t) && InWait(t.op, d) && CanRun(t, more) && Lua(ThinkTake) !in more
    ensures var u := Run(t, more);
      && InWait(u.op, d) && u.stack == t.stack
      && (CanCall(u, ThinkTake) ==>
            && Finished(u.sh, d) && Called(u, ThinkTake).op == Free
            && Called(u, ThinkTake).stack == t.stack + [Frame(None, u.sh.finishedQueries, false, Some(d))])
  {
    InWaitRun(t, more, d);
    RunKeeps(t, more);
    assert OpKnown(Run(t, more));
    LoopBegins(Run(t, more), d);
  }

  /** `wait` is for the data of the query that was started last among its undelivered data. With a swap that data comes
      to the front of the queue if it is queued; nothing else is exchanged but the entry it changes places with. The
      call leaves the loops around it alone until it goes on to the finished list, and then its data is finished. */
  lemma WaitIsForTheLast(steps: seq<Step>, q: QueryId, swap: bool, more: seq<Step>)
    requires CanRun(INIT, steps) && CanCall(Run(INIT, steps), WaitSwap(q, swap))
    requires CanRun(Called(Run(INIT, steps), WaitSwap(q, swap)), more) && Lua(ThinkTake) !in more
    ensures var s := Run(INIT, steps); var t := Called(s, WaitSwap(q, swap));
      var ds := Remaining(StartedFor(steps, q), s.h.gone);
      && ds != [] &&
      var d := ds[|ds| - 1];
      && t.op == WaitReady(d) && t.sh == s.sh.(queue := t.sh.queue) && t.h == s.h
      && (if swap then t.sh.queue == SwapToFront(s.sh.queue, Item(d)) else t.sh.queue == s.sh.queue)
      && (swap && Item(d) in s.sh.queue ==> t.sh.queue[0] == Item(d))
      && var u := Run(t, more);
         InWait(u.op, d) && u.stack == s.stack
         && (CanCall(u, ThinkTake) ==>
               && Finished(u.sh, d) && Called(u, ThinkTake).op == Free
               && Called(u, ThinkTake).stack == s.stack + [Frame(None, u.sh.finishedQueries, false, Some(d))])
  {
    var s := Run(INIT, steps);
    RunningListIsOutstanding(steps, q, 0);
    SwapIs(s, q, swap);
    InitHolds();
    RunKeeps(INIT, steps);
    StepKeeps(s, Lua(WaitSwap(q, swap)));
    var ds := Get(s.running, q);
    WaitGoesOn(Called(s, WaitSwap(q, swap)), more, ds[|ds| - 1]);
  }

  /** What a `wait` finds: before `connect` and once the thread has ended its data is failed and published at once;
      otherwise it blocks, in the waiter slot, if and only if the data is unfinished, and changes nothing else. */
  lemma WaitBlocksIff(steps: seq<Step>)
    requires CanRun(INIT, steps) && Run(INIT, steps).op.WaitReady?
    ensures var s := Run(INIT, steps); var t := Called(s, WaitEnter); var d := s.op.data;
      && d in s.sh.info && d in t.sh.info
      && (t.op == Blocked(d)
          <==> s.worker != NotStarted && s.worker != Ended && !s.sh.info[d].finished)
      && (t.op != Blocked(d) ==> t.op == ThinkNow(Some(d)) && t.sh.info[d].finished)
      && (if s.worker == NotStarted || s.worker == Ended
          then t.sh.info[d].error == WaitImpossible && t.sh.info[d].result == Error
               && t.sh.finishedQueries == s.sh.finishedQueries + [d]
          else t.sh == if s.sh.info[d].finished then s.sh else s.sh.(waiting := Some(d)))
  {
    InitHolds();
    RunKeeps(INIT, steps);
  }

  // ---------------------------------------------------------------------------------------------------------
  // abort
  // ---------------------------------------------------------------------------------------------------------

  /** The data of `ds` that an abort begun in `s` has missed by `u`: not queued in the first place, or taken since. */
  function Missed(s: State, u: State, ds: seq<DataId>): set<DataId> {
    set x | x in ds && (Item(x) !in s.sh.queue || x in u.h.taken)
  }

  /** An abort of the outstanding data `ds` that was begun in `s` has got through the first `k` of it: those of them
      that were queued and have not been taken are removed, in order, and the queue lacks exactly these and what was
      taken. */
  ghost predicate Aborts(s: State, u: State, ds: seq<DataId>, k: nat) {
    && k <= |ds| && u.op == Aborting(ds[k..], Remaining(ds[..k], Missed(s, u, ds)))
    && u.stack == s.stack && u.h.aborted == s.h.aborted + u.op.removed
    && (forall x: DataId :: Item(x) in u.sh.queue <==>
          Item(x) in s.sh.queue && x !in u.h.taken && x !in u.op.removed)
  }

  lemma AbortsFirst(s: State, q: QueryId)
    requires Inv(s) && UserCode(s)
    ensures Aborts(s, Called(s, AbortBegin(q)), Get(s.running, q), 0)
  {
    var t := Called(s, AbortBegin(q));
    assert t == s.(op := Aborting(Get(s.running, q), []));
    forall x: DataId ensures Item(x) in s.sh.queue ==> x !in s.h.taken {
      assert Facts(s, x);
      CountIn(s.sh.queue, Item(x));
      CountIn(s.h.taken, x);
    }
    assert s.h.aborted + [] == s.h.aborted;
  }

  lemma AbortsOne(s: State, u: State, ds: seq<DataId>, k: nat)
    requires Aborts(s, u, ds, k) && k < |ds| && (forall i :: 0 <= i < k ==> ds[i] != ds[k])
    ensures Aborts(s, Called(u, AbortOne), ds, k + 1)
  {
    var x := ds[k];
    var t := Called(u, AbortOne);
    assert t == DoAbortOne(u, u.op.todo, u.op.removed);
    RemainingIn(ds[..k], Missed(s, u, ds), x);
    RemainingAppend(ds[..k], Missed(s, u, ds), x);
    assert ds[..k + 1] == ds[..k] + [x];
    assert Missed(s, t, ds) == Missed(s, u, ds);
    forall y: DataId ensures Item(y) in Without(u.sh.queue, Item(x)) <==> Item(y) in u.sh.queue && y != x {
      WithoutIn(u.sh.queue, Item(x), Item(y));
    }
    if Item(x) in u.sh.queue {
      assert u.h.aborted + [x] == s.h.aborted + (u.op.removed + [x]);
    }
  }

  /** A take removes one entry of the queue, and if that is data, it was there once. */
  lemma TakenLeaves(u: State, x: DataId)
    requires CanWork(u, Take) && Facts(u, x)
    ensures var e := u.sh.queue[0];
      Item(x) in u.sh.queue[1..] <==> Item(x) in u.sh.queue && e != Item(x)
  {
    CountIn(u.sh.queue[1..], Item(x));
    CountIn(u.sh.queue, Item(x));
    assert u.sh.queue == [u.sh.queue[0]] + u.sh.queue[1..];
  }

  /** What is still queued the abort has not got to. */
  lemma FrontIsAhead(s: State, u: State, ds: seq<DataId>, k: nat, x: DataId)
    requires Aborts(s, u, ds, k) && Item(x) in u.sh.queue
    ensures x !in ds[..k]
  {
    RemainingIn(ds[..k], Missed(s, u, ds), x);
  }

  /** What is taken meanwhile changes nothing for what the abort has got through. */
  lemma MissedGrows(s: State, u: State, t: State, ds: seq<DataId>, k: nat)
    requires Aborts(s, u, ds, k) && CanWork(u, Take) && t == Worked(u, Take)
    ensures Remaining(ds[..k], Missed(s, t, ds)) == Remaining(ds[..k], Missed(s, u, ds))
  {
    var e := u.sh.queue[0];
    assert e in u.sh.queue;
    if e.Item? {
      FrontIsAhead(s, u, ds, k, e.data);
      assert t.h.taken == u.h.taken + [e.data];
    }
    RemainingSame(ds[..k], Missed(s, u, ds), Missed(s, t, ds));
  }

  lemma AbortsTake(s: State, u: State, ds: seq<DataId>, k: nat)
    requires Aborts(s, u, ds, k) && CanWork(u, Take) && Inv(u)
    ensures Aborts(s, Worked(u, Take), ds, k)
  {
    var t := Worked(u, Take);
    MissedGrows(s, u, t, ds, k);
    forall x: DataId
      ensures Item(x) in t.sh.queue <==> Item(x) in s.sh.queue && x !in t.h.taken && x !in u.op.removed
    {
      assert Facts(u, x);
      TakenLeaves(u, x);
    }
  }

  lemma AbortsWork(s: State, u: State, ds: seq<DataId>, k: nat, work: WorkerStep)
    requires Aborts(s, u, ds, k) && CanWork(u, work) && Inv(u)
    ensures Aborts(s, Worked(u, work), ds, k)
  {
    if work == Take {
      AbortsTake(s, u, ds, k);
    } else {
      var t := Worked(u, work);
      assert t.h.taken == u.h.taken && t.h.aborted == u.h.aborted && t.sh.queue == u.sh.queue && t.op == u.op;
      assert t.stack == u.stack && Missed(s, t, ds) == Missed(s, u, ds);
    }
  }

  lemma AbortingCalls(u: State, call: LuaStep)
    requires u.op.Aborting? && CanCall(u, call) && call != AbortDone
    ensures call == AbortOne && u.op.todo != []
  {
  }

  predicate Distinct(ds: seq<DataId>) {
    forall i, j :: 0 <= i < j < |ds| ==> ds[i] != ds[j]
  }

  lemma {:induction false} AbortsRun(s: State, u: State, ds: seq<DataId>, k: nat, more: seq<Step>) returns (n: nat)
    requires Aborts(s, u, ds, k) && Inv(u) && CanRun(u, more) && Lua(AbortDone) !in more && Distinct(ds)
    ensures Aborts(s, Run(u, more), ds, n)
    decreases |more|
  {
    n := k;
    if more != [] {
      match more[0] {
        case Lua(call) =>
          AbortingCalls(u, call);
          AbortsOne(s, u, ds, k);
          n := k + 1;
        case Work(work) => AbortsWork(s, u, ds, k, work);
      }
      StepKeeps(u, more[0]);
      n := AbortsRun(s, Next(u, more[0]), ds, n, more[1..]);
    }
  }

  lemma {:induction false} OnceIsDistinct(ds: seq<DataId>)
    requires forall d: DataId :: Count(ds, d) <= 1
    ensures Distinct(ds)
  {
    if ds != [] {
      forall d: DataId ensures Count(ds[1..], d) <= 1 {
        assert Count(ds, d) <= 1;
      }
      OnceIsDistinct(ds[1..]);
      assert Count(ds, ds[0]) <= 1;
      CountIn(ds[1..], ds[0]);
      forall i, j | 0 <= i < j < |ds| ensures ds[i] != ds[j] {
        if i == 0 {
          assert ds[j] == ds[1..][j - 1];
        } else {
          assert ds[1..][i - 1] != ds[1..][j - 1];
        }
      }
    }
  }

  /** `abort`, while the database thread goes on: when its loop begins, nothing of the query is queued any more, and the
      loop is over exactly that data of the query that was queued when the call began and was not taken meanwhile, in
      start order; it is what the call has aborted. */
  lemma AbortTakesTheRest(steps: seq<Step>, q: QueryId, more: seq<Step>)
    requires CanRun(INIT, steps) && UserCode(Run(INIT, steps)) && CanRun(Called(Run(INIT, steps), AbortBegin(q)), more)
    requires Lua(AbortDone) !in more && CanCall(Run(Called(Run(INIT, steps), AbortBegin(q)), more), AbortDone)
    ensures var s := Run(INIT, steps); var u := Run(Called(s, AbortBegin(q)), more); var t := Called(u, AbortDone);
      var ds := Remaining(StartedFor(steps, q), s.h.gone); var rest := Remaining(ds, Missed(s, u, ds));
      && t.stack == s.stack + [Frame(None, rest, true, None)] && t.op == Free
      && t.h.aborted == s.h.aborted + rest
      && (forall d :: d in ds ==> Item(d) !in t.sh.queue)
      && (forall d :: d in rest <==> d in ds && Item(d) in s.sh.queue && d !in t.h.taken)
      && (forall d :: d !in ds ==>
            (Item(d) in t.sh.queue <==> Item(d) in s.sh.queue && d !in t.h.taken))
  {
    var s := Run(INIT, steps);
    InitHolds();
    RunKeeps(INIT, steps);
    var ds := Get(s.running, q);
    forall d: DataId ensures Count(ds, d) <= 1 {
      RunningListIsOutstanding(steps, q, d);
    }
    RunningListIsOutstanding(steps, q, 0);
    OnceIsDistinct(ds);
    AbortsFirst(s, q);
    StepKeeps(s, Lua(AbortBegin(q)));
    var n := AbortsRun(s, Called(s, AbortBegin(q)), ds, 0, more);
    var u := Run(Called(s, AbortBegin(q)), more);
    assert ds[..n] == ds;
    forall d: DataId ensures d in Remaining(ds, Missed(s, u, ds)) <==> d in ds && d !in Missed(s, u, ds) {
      RemainingIn(ds, Missed(s, u, ds), d);
    }
  }

  // ---------------------------------------------------------------------------------------------------------
  // abortAllQueries
  // ---------------------------------------------------------------------------------------------------------

  lemma {:induction false} QueueDataIs(q: seq<Entry>)
    requires Pill !in q
    ensures |QueueData(q)| == |q| && forall i :: 0 <= i < |q| ==> q[i] == Item(QueueData(q)[i])
  {
    if q != [] {
      QueueDataIs(q[1..]);
    }
  }

  /** `abortAllQueries` empties the queue and goes over what was queued, in the order of the queue, all of it marked. */
  lemma AbortAllTakesAll(s: State)
    requires CanCall(s, AbortAll) && Inv(s)
    ensures var t := Called(s, AbortAll); var q := s.sh.queue;
      && t.sh.queue == [] && |t.stack| == |s.stack| + 1 && t.stack[..|s.stack|] == s.stack
      && var f := t.stack[|s.stack|];
         && f.aborted && f.current == None && f.waited == None && |f.rest| == |q|
         && t.h.aborted == s.h.aborted + f.rest
         && forall i :: 0 <= i < |q| ==>
              && q[i] == Item(f.rest[i]) && f.rest[i] in t.sh.info
              && t.sh.info[f.rest[i]].status == Aborted && t.sh.info[f.rest[i]].finished
  {
    var q := s.sh.queue;
    QueueDataIs(q);
    forall i | 0 <= i < |q| ensures QueueData(q)[i] in s.sh.info {
      assert Facts(s, QueueData(q)[i]);
      CountIn(q, Item(QueueData(q)[i]));
    }
  }

  // ---------------------------------------------------------------------------------------------------------
  // What script code can call
  // ---------------------------------------------------------------------------------------------------------

  /** The members' data is new, different from `d`, and no two members share it. */
  ghost predicate Fresh(s: State, d: DataId, members: seq<Member>) {
    && (forall i :: 0 <= i < |members| ==> members[i].data !in s.sh.info && members[i].data != d)
    && (forall i, j :: 0 <= i < j < |members| ==> members[i].data != members[j].data)
  }

  lemma FreshIsNew(s: State, d: DataId, members: seq<Member>)
    requires Fresh(s, d, members)
    ensures MemberData(members) !! s.sh.info.Keys
  {
    forall x | x in MemberData(members) ensures x !in s.sh.info {
      MemberDataIff(members, x);
    }
  }

  /** Wherever script code runs it can start a query, or a transaction of any members, with new data. */
  lemma ScriptStarts(s: State, d: DataId, q: QueryId, transaction: bool, members: seq<Member>, refs: set<Slot>,
                     built: QueryStatus)
    requires UserCode(s) && d !in s.sh.info && Fresh(s, d, members) && TableRef in refs
    requires !transaction ==> members == []
    ensures CanCall(s, StartPut(d, q, transaction, members, refs, built))
  {
    FreshIsNew(s, d, members);
  }

  lemma CallbackReturns(s: State)
    requires Inv(s) && UserCode(s) && HasTop(s)
    ensures CanCall(s, EndDeliver)
  {
    assert Facts(s, Top(s).current.value);
  }

  /** Wherever script code runs it can make every call, apart from a second `connect`, a `wait` for a query of which
      nothing is outstanding, and, for the null pair it would meet, `abortAllQueries` behind a disconnect; and a
      callback can return. */
  lemma ScriptCalls(steps: seq<Step>, q: QueryId, flag: bool)
    requires CanRun(INIT, steps) && UserCode(Run(INIT, steps))
    ensures var s := Run(INIT, steps);
      && CanCall(s, Think) && CanCall(s, AbortBegin(q)) && CanCall(s, Disconnect(flag))
      && (CanCall(s, Connect) <==> Lua(Connect) !in steps)
      && (CanCall(s, WaitSwap(q, flag)) <==> Remaining(StartedFor(steps, q), s.h.gone) != [])
      && (CanCall(s, AbortAll) <==> Pill !in s.sh.queue)
      && (HasTop(s) ==> CanCall(s, EndDeliver))
  {
    var s := Run(INIT, steps);
    JoinableRun(INIT, steps);
    RunningListIsOutstanding(steps, q, 0);
    InitHolds();
    RunKeeps(INIT, steps);
    if HasTop(s) {
      CallbackReturns(s);
    }
  }
}
