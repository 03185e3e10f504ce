/**
 When a blocked `wait` returns: what the worker still has to do, that it can always do it, and the exact states in
 which nothing can happen any more.
 */
module Progress {
  import opened QueryTypes
  import opened BlockingQueues
  import opened Lifecycle
  import opened Conservation

  /** Entries ahead of the nearer of `d` and the first pill. */
  function Ahead(q: seq<Entry>, d: DataId): nat {
    if q == [] || q[0] == Pill || q[0] == Item(d) then 0 else 1 + Ahead(q[1..], d)
  }

  /** The steps the worker can still take before a wait on `d` is over, at most. */
  function Rank(s: State, d: DataId): nat {
    var ahead := 5 * (Ahead(s.sh.queue, d) + 1);
    match s.worker
    case Connecting => ahead + 1
    case Idle => ahead
    case Taken(x) => if x == d then 4 else ahead + 4
    case Executing(x) => if x == d then 3 else ahead + 3
    case Executed(x) => if x == d then 2 else ahead + 2
    case Published(x) => if x == d then 1 else ahead + 1
    case Closing => 1
    case _ => 0
  }

  /** The Lua thread is blocked on a data object that is not finished. */
  predicate Waits(s: State, d: DataId) {
    s.op == Blocked(d) && !Finished(s.sh, d)
  }

  /** While the Lua thread is blocked on a started data object, that object occupies the waiter slot and is queued
      or held by the worker, and the worker has not ended. */
  lemma WaiterIsServed(s: State, d: DataId)
    requires Inv(s) && Waits(s, d) && d in s.h.started
    ensures s.sh.canWait && s.sh.waiting == Some(d)
    ensures Item(d) in s.sh.queue || Held(s.worker, d)
    ensures s.worker != NotStarted && s.worker != Ended
  {
    assert Facts(s, d);
    CountIn(s.sh.queue, Item(d));
  }

  lemma OnlyTheWorkerMoves(s: State, d: DataId, step: Step)
    requires Waits(s, d) && Enabled(s, step)
    ensures step.Work?
  {
  }

  lemma TakeDescends(s: State, d: DataId)
    requires Inv(s) && Waits(s, d) && d in s.h.started && CanWork(s, Take)
    ensures Rank(Worked(s, Take), d) < Rank(s, d)
  {
  }

  /** Each step of the worker ends the wait, brings its end nearer, or is the failed `mysql_init`. */
  lemma WorkDescends(s: State, d: DataId, work: WorkerStep)
    requires Inv(s) && Waits(s, d) && d in s.h.started && CanWork(s, work)
    ensures var s' := Worked(s, work);
      || s'.worker == InitFailed
      || Finished(s'.sh, d)
      || (Waits(s', d) && s'.h.started == s.h.started && Rank(s', d) < Rank(s, d))
  {
    assert Facts(s, d);
    if work == Take {
      TakeDescends(s, d);
    }
  }

  /** A run during which a wait on a started data object does not end, and which does not fail in `mysql_init`, is no
      longer than the rank at its start. */
  lemma {:induction false} WaitIsBounded(s: State, d: DataId, steps: seq<Step>)
    requires Inv(s) && Waits(s, d) && d in s.h.started && CanRun(s, steps)
    requires !Finished(Run(s, steps).sh, d) && Run(s, steps).worker != InitFailed
    ensures |steps| + Rank(Run(s, steps), d) <= Rank(s, d)
    decreases |steps|
  {
    if steps != [] {
      OnlyTheWorkerMoves(s, d, steps[0]);
      var s' := Next(s, steps[0]);
      WorkDescends(s, d, steps[0].work);
      StepKeeps(s, steps[0]);
      FinishedStays(s', d, steps[1..]);
      if s'.worker == InitFailed {
        NothingAfterInitFailed(s', d, steps[1..]);
      }
      WaitIsBounded(s', d, steps[1..]);
    }
  }

  lemma {:induction false} FinishedStays(s: State, d: DataId, steps: seq<Step>)
    requires CanRun(s, steps)
    ensures Finished(s.sh, d) ==> Finished(Run(s, steps).sh, d)
    decreases |steps|
  {
    if steps != [] {
      InfoGrows(s, steps[0]);
      FinishedStays(Next(s, steps[0]), d, steps[1..]);
    }
  }

  lemma NothingAfterInitFailed(s: State, d: DataId, steps: seq<Step>)
    requires s.worker == InitFailed && CanRun(s, steps)
    requires Finished(s.sh, d) || s.op == Blocked(d)
    requires !Finished(Run(s, steps).sh, d)
    ensures steps == []
  {
    FinishedStays(s, d, steps);
    if steps != [] {
      OnlyTheWorkerMoves(s, d, steps[0]);
    }
  }

  // ---------------------------------------------------------------------------------------------------------
  // Deadlock
  // ---------------------------------------------------------------------------------------------------------

  /** Joining waits for a worker that has a pill to find, or has found one. */
  predicate JoinRight(s: State) {
    && (s.op == Joining ==>
          || (s.worker != NotStarted && Pill in s.sh.queue)
          || s.worker == Closing || s.worker == Ended || s.worker == InitFailed)
    && (s.joinable ==> s.worker != NotStarted)
  }

  lemma JoinCall(s: State, call: LuaStep)
    requires JoinRight(s) && CanCall(s, call)
    ensures JoinRight(Called(s, call))
  {
    if call.Disconnect? {
      assert (s.sh.queue + [Pill])[|s.sh.queue|] == Pill;
    }
  }

  lemma JoinWork(s: State, work: WorkerStep)
    requires JoinRight(s) && CanWork(s, work)
    ensures JoinRight(Worked(s, work))
  {
    if work.Take? {
      assert s.sh.queue == [s.sh.queue[0]] + s.sh.queue[1..];
    }
  }

  lemma JoinStep(s: State, step: Step)
    requires JoinRight(s) && Enabled(s, step)
    ensures JoinRight(Next(s, step))
  {
    match step
    case Lua(call) => JoinCall(s, call);
    case Work(work) => JoinWork(s, work);
  }

  ghost predicate Stuck(s: State) {
    forall step: Step :: !Enabled(s, step)
  }

  /** The worker has nothing it can do now. */
  predicate WorkerRests(s: State) {
    || s.worker == NotStarted || s.worker == Ended || s.worker == InitFailed
    || (s.worker == Idle && s.sh.queue == [])
  }

  lemma WorkerRestsIff(s: State)
    ensures WorkerRests(s) <==> forall work: WorkerStep :: !CanWork(s, work)
  {
    if !WorkerRests(s) {
      var work := match s.worker
        case Connecting => ConnectOk
        case Idle => Take
        case Taken(_) => Begin
        case Executing(_) => Execute(Success, NoError)
        case Executed(_) => Publish
        case Published(_) => Finish
        case _ => AbortWaiting;
      assert CanWork(s, work);
    }
  }

  /** A loop can deliver its next data object or end. */
  lemma LoopGoesOn(s: State)
    requires Inv(s) && InLoop(s)
    ensures CanCall(s, FrameEnd) || CanCall(s, BeginDeliver(true))
  {
    if Top(s).rest != [] {
      assert Facts(s, Top(s).rest[0]);
    }
  }

  /** The Lua thread can always go on, unless it waits for the worker. */
  lemma LuaRests(s: State)
    requires Inv(s) && (forall call: LuaStep :: !CanCall(s, call))
    ensures (s.op.Blocked? && !Finished(s.sh, s.op.data)) || s.op == Joining
  {
    assert !CanCall(s, Think) && !CanCall(s, StartStatus) && !CanCall(s, WaitEnter) && !CanCall(s, WaitWake);
    assert !CanCall(s, AbortOne) && !CanCall(s, AbortDone) && !CanCall(s, ThinkTake);
    if InLoop(s) {
      LoopGoesOn(s);
    }
  }

  /** Exactly when no thread can take a step: the Lua thread waits on an unfinished data object and the worker either
      left through the failed `mysql_init`, which fails no waiter, or waits for an entry nobody will queue. */
  lemma StuckIff(s: State)
    requires Inv(s) && JoinRight(s)
    ensures Stuck(s) <==>
      && s.op.Blocked? && !Finished(s.sh, s.op.data)
      && (s.worker == InitFailed || (s.worker == Idle && s.sh.queue == []))
  {
    WorkerRestsIff(s);
    if Stuck(s) {
      forall call: LuaStep ensures !CanCall(s, call) {
        assert !Enabled(s, Lua(call));
      }
      forall work: WorkerStep ensures !CanWork(s, work) {
        assert !Enabled(s, Work(work));
      }
      LuaRests(s);
      assert !CanCall(s, JoinDone);
      if s.op.Blocked? {
        assert Facts(s, s.op.data);
      }
    } else {
      var step: Step :| Enabled(s, step);
      if s.op.Blocked? && !Finished(s.sh, s.op.data) {
        OnlyTheWorkerMoves(s, s.op.data, step);
        assert CanWork(s, step.work);
      }
    }
  }

  // ---------------------------------------------------------------------------------------------------------
  // Main results
  // ---------------------------------------------------------------------------------------------------------

  lemma {:induction false} JoinRun(s: State, steps: seq<Step>)
    requires JoinRight(s) && CanRun(s, steps)
    ensures JoinRight(Run(s, steps))
    decreases |steps|
  {
    if steps != [] {
      JoinStep(s, steps[0]);
      JoinRun(Next(s, steps[0]), steps[1..]);
    }
  }

  /** After any run, a wait on a directly started data object is stuck if and only if the worker left through the
      failed `mysql_init`. */
  lemma DirectWaitStuckIff(steps: seq<Step>, d: DataId)
    requires CanRun(INIT, steps) && Waits(Run(INIT, steps), d) && d in Run(INIT, steps).h.started
    ensures var s := Run(INIT, steps); Stuck(s) <==> s.worker == InitFailed
  {
    InitHolds();
    RunKeeps(INIT, steps);
    JoinRun(INIT, steps);
    var s := Run(INIT, steps);
    StuckIff(s);
    WaiterIsServed(s, d);
  }

  /** After any run, a wait on a started data object is served, and every longer run that avoids the failed
      `mysql_init` ends it within `Rank` steps. */
  lemma DirectWaitEnds(steps: seq<Step>, d: DataId, more: seq<Step>)
    requires CanRun(INIT, steps) && Waits(Run(INIT, steps), d) && d in Run(INIT, steps).h.started
    requires CanRun(Run(INIT, steps), more) && |more| > Rank(Run(INIT, steps), d)
    ensures var s' := Run(Run(INIT, steps), more); Finished(s'.sh, d) || s'.worker == InitFailed
  {
    InitHolds();
    RunKeeps(INIT, steps);
    var s := Run(INIT, steps);
    if !Finished(Run(s, more).sh, d) && Run(s, more).worker != InitFailed {
      WaitIsBounded(s, d, more);
    }
  }

  /** The data failed when the worker ends was never executed, if it was started directly: no result is lost there. */
  lemma AbortedWaiterWasNeverExecuted(steps: seq<Step>, d: DataId)
    requires CanRun(INIT, steps) && CanWork(Run(INIT, steps), AbortWaiting)
    requires Run(INIT, steps).sh.waiting == Some(d) && d in Run(INIT, steps).h.started
    ensures var s := Run(INIT, steps);
      d !in s.h.taken && d !in s.h.outcome && s.op == Blocked(d) && Item(d) in s.sh.queue
  {
    InitHolds();
    RunKeeps(INIT, steps);
    var s := Run(INIT, steps);
    assert Facts(s, d);
    WaiterIsServed(s, d);
    CountIn(s.h.taken, d);
  }

  // ---------------------------------------------------------------------------------------------------------
  // Waits on a transaction's member
  // ---------------------------------------------------------------------------------------------------------

  /** A step that ends no member's wait leaves the Lua thread blocked on it. */
  lemma MemberStep(s: State, d: DataId, step: Step)
    requires Inv(s) && Waits(s, d) && d !in s.h.started && Enabled(s, step)
    ensures step.Work?
    ensures var s' := Next(s, step);
      if step.work.AbortWaiting? then Finished(s'.sh, d) else Waits(s', d) && s'.h.started == s.h.started
  {
    OnlyTheWorkerMoves(s, d, step);
    assert Facts(s, d);
  }

  lemma {:induction false} MemberRun(s: State, d: DataId, more: seq<Step>)
    requires Inv(s) && Waits(s, d) && d !in s.h.started && CanRun(s, more)
    ensures Finished(Run(s, more).sh, d) <==> Work(AbortWaiting) in more
    decreases |more|
  {
    if more != [] {
      MemberStep(s, d, more[0]);
      assert more == [more[0]] + more[1..];
      if more[0].work.AbortWaiting? {
        FinishedStays(Next(s, more[0]), d, more[1..]);
      } else {
        StepKeeps(s, more[0]);
        MemberRun(Next(s, more[0]), d, more[1..]);
      }
    }
  }

  /** A wait on data that was not started directly, such as a transaction's member, ends if and only if the worker ends
      and fails it: executing the transaction does not. */
  lemma MemberWaitEndsIff(steps: seq<Step>, d: DataId, more: seq<Step>)
    requires CanRun(INIT, steps) && Waits(Run(INIT, steps), d) && d !in Run(INIT, steps).h.started
    requires CanRun(Run(INIT, steps), more)
    ensures Finished(Run(Run(INIT, steps), more).sh, d) <==> Work(AbortWaiting) in more
  {
    InitHolds();
    RunKeeps(INIT, steps);
    MemberRun(Run(INIT, steps), d, more);
  }
}
