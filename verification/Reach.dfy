/**
 Which started data can still be executed, in every state in which script code runs: a failed wait does not take its
 data out of the queue, and not even a pill ahead of it keeps a script from getting it executed.
 */
module Reach {
  import opened QueryTypes
  import opened BlockingQueues
  import opened Lifecycle
  import opened Conservation
  import opened Drain

  /** Some continuation executes `d`, or it has been executed. */
  ghost predicate CanBeExecuted(s: State, d: DataId) {
    exists more :: CanRun(s, more) && d in Run(s, more).h.outcome
  }

  lemma {:induction false} RunConcat(s: State, steps: seq<Step>, more: seq<Step>)
    requires CanRun(s, steps) && CanRun(Run(s, steps), more)
    ensures CanRun(s, steps + more) && Run(s, steps + more) == Run(Run(s, steps), more)
    decreases |steps|
  {
    if steps == [] {
      assert steps + more == more;
    } else {
      assert (steps + more)[1..] == steps[1..] + more;
      RunConcat(Next(s, steps[0]), steps[1..], more);
    }
  }

  lemma Via(s: State, steps: seq<Step>, d: DataId)
    requires CanRun(s, steps) && CanBeExecuted(Run(s, steps), d)
    ensures CanBeExecuted(s, d)
  {
    var more :| CanRun(Run(s, steps), more) && d in Run(Run(s, steps), more).h.outcome;
    RunConcat(s, steps, more);
  }

  lemma ViaStep(s: State, step: Step, d: DataId)
    requires Enabled(s, step) && CanBeExecuted(Next(s, step), d)
    ensures CanBeExecuted(s, d)
  {
    assert CanRun(Next(s, step), []) && [step][1..] == [];
    assert CanRun(s, [step]) && Run(s, [step]) == Next(s, step);
    Via(s, [step], d);
  }

  lemma Does(s: State, steps: seq<Step>, step: Step) returns (steps': seq<Step>)
    requires CanRun(s, steps) && Enabled(Run(s, steps), step)
    ensures CanRun(s, steps') && Run(s, steps') == Next(Run(s, steps), step)
  {
    steps' := steps + [step];
    RunAppend(s, steps, step);
  }

  // ---------------------------------------------------------------------------------------------------------
  // Past an entry
  // ---------------------------------------------------------------------------------------------------------

  const FINE := Execute(Success, NoError)

  /** The step that comes next in the worker's turn. */
  function TurnStep(w: Worker): WorkerStep
    requires Serving(w) && w != Idle
  {
    match w
    case Taken(_) => Begin
    case Executing(_) => FINE
    case Executed(_) => Publish
    case Published(_) => Finish
  }

  function TurnsLeft(w: Worker): nat {
    match w
    case Taken(_) => 4
    case Executing(_) => 3
    case Executed(_) => 2
    case Published(_) => 1
    case _ => 0
  }

  /** What the worker's turn leaves alone. */
  predicate ServedOnly(s: State, t: State) {
    && t.sh.queue == s.sh.queue && t.op == s.op && t.stack == s.stack && t.sh.canWait == s.sh.canWait
    && t.running == s.running && t.sh.info.Keys == s.sh.info.Keys
    && s.sh.finishedQueries <= t.sh.finishedQueries
  }

  lemma TurnGoesOn(s: State)
    requires Serving(s.worker) && s.worker != Idle
    ensures CanWork(s, TurnStep(s.worker))
    ensures var t := Worked(s, TurnStep(s.worker)); var x := s.worker.data;
      && ServedOnly(s, t) && Serving(t.worker) && TurnsLeft(t.worker) < TurnsLeft(s.worker)
      && (if s.worker.Published? then t.worker == Idle && (x in s.sh.info ==> Finished(t.sh, x))
          else t.worker != Idle && t.worker.data == x)
      && (s.worker.Executed? ==> x in t.sh.finishedQueries)
  {
    if s.worker.Executed? {
      assert (s.sh.finishedQueries + [s.worker.data])[|s.sh.finishedQueries|] == s.worker.data;
    }
  }

  /** From any point of its turn the worker can get back to its queue. */
  lemma {:induction false} FinishesTurn(s: State) returns (more: seq<Step>)
    requires Serving(s.worker)
    ensures CanRun(s, more) && ServedOnly(s, Run(s, more)) && Run(s, more).worker == Idle
    ensures s.worker == Idle ==> more == []
    ensures s.worker != Idle ==> var t := Run(s, more); var x := s.worker.data;
      (x in s.sh.info ==> Finished(t.sh, x)) && (s.worker.Published? || x in t.sh.finishedQueries)
    decreases TurnsLeft(s.worker)
  {
    more := [];
    if s.worker != Idle {
      TurnGoesOn(s);
      var step := Work(TurnStep(s.worker));
      var rest := FinishesTurn(Next(s, step));
      more := [step] + rest;
      assert more[1..] == rest;
    }
  }

  lemma ServesFront(s: State, x: DataId) returns (more: seq<Step>)
    requires s.worker == Idle && s.sh.queue != [] && s.sh.queue[0] == Item(x)
    ensures CanRun(s, more)
    ensures var t := Run(s, more);
      && t.worker == Idle && ServedOnly(s.(sh := s.sh.(queue := s.sh.queue[1..])), t)
      && x in t.sh.finishedQueries && (x in s.sh.info ==> Finished(t.sh, x))
  {
    var s' := Next(s, Work(Take));
    var rest := FinishesTurn(s');
    more := [Work(Take)] + rest;
    assert more[1..] == rest;
  }

  /** Something new is not in the map. */
  lemma FreshKey<T>(m: map<nat, T>) returns (k: nat)
    ensures k !in m
  {
    k := Bound(m.Keys);
  }

  lemma {:induction false} Bound(ks: set<nat>) returns (k: nat)
    ensures forall x :: x in ks ==> x < k
    decreases ks
  {
    if ks == {} {
      k := 0;
    } else {
      var x :| x in ks;
      var b := Bound(ks - {x});
      k := if b > x then b else x + 1;
      assert ks == (ks - {x}) + {x};
    }
  }

  /** A data object that was not made is not queued. */
  lemma UnmadeIsNotQueued(s: State, y: DataId)
    requires Inv(s) && y !in s.sh.info
    ensures Item(y) !in s.sh.queue
  {
    assert Facts(s, y);
    CountIn(s.sh.queue, Item(y));
  }

  /** The script starts a new query and waits for it with a swap, up to the wait itself. */
  lemma StartsAndSwaps(s: State) returns (more: seq<Step>, y: DataId)
    requires Inv(s) && UserCode(s) && s.worker == Idle && s.sh.queue != [] && s.sh.queue[0] == Pill
    ensures CanRun(s, more)
    ensures var t := Run(s, more);
      && t.sh.queue == [Item(y)] + s.sh.queue[1..] + [Pill] && t.op == WaitReady(y) && t.stack == s.stack
      && t.worker == Idle && t.sh.canWait && y in t.sh.info && !Finished(t.sh, y)
  {
    y := FreshKey(s.sh.info);
    var q := FreshKey(s.running);
    UnmadeIsNotQueued(s, y);
    more := Does(s, [], Lua(StartPut(y, q, false, [], {}, Complete)));
    StartedOnly(s, y, q);
    var t := Run(s, more);
    MarkedAndSwapped(t, y, q);
    more := Does(s, more, Lua(StartStatus));
    more := Does(s, more, Lua(WaitSwap(q, true)));
    SwapsLast(s.sh.queue, Item(y));
  }

  lemma StartedOnly(s: State, y: DataId, q: QueryId)
    requires CanCall(s, StartPut(y, q, false, [], {}, Complete)) && q !in s.running
    ensures var t := Called(s, StartPut(y, q, false, [], {}, Complete));
      && t.sh.queue == s.sh.queue + [Item(y)] && Get(t.running, q) == [y] && t.op == Starting(y)
      && t.stack == s.stack && t.worker == s.worker && t.sh.canWait == s.sh.canWait
      && y in t.sh.info && !Finished(t.sh, y)
  {
  }

  lemma MarkedAndSwapped(s: State, y: DataId, q: QueryId)
    requires s.op == Starting(y) && Get(s.running, q) == [y] && (HasTop(s) ==> Top(s).current.Some?)
    requires y in s.sh.info && !Finished(s.sh, y)
    ensures CanCall(s, StartStatus) && CanCall(Called(s, StartStatus), WaitSwap(q, true))
    ensures var t := Called(Called(s, StartStatus), WaitSwap(q, true));
      && t.sh.queue == SwapToFront(s.sh.queue, Item(y)) && t.op == WaitReady(y) && t.stack == s.stack
      && t.worker == s.worker && t.sh.canWait == s.sh.canWait && y in t.sh.info && !Finished(t.sh, y)
  {
  }

  lemma {:induction false} IndexOfAppended(q: seq<Entry>, x: Entry)
    requires x !in q
    ensures IndexOf(q + [x], x) == |q|
  {
    if q == [] {
      assert q + [x] == [x];
    } else {
      assert (q + [x])[1..] == q[1..] + [x];
      IndexOfAppended(q[1..], x);
    }
  }

  lemma SwapsLast(q: seq<Entry>, x: Entry)
    requires q != [] && x !in q
    ensures SwapToFront(q + [x], x) == [x] + q[1..] + [q[0]]
  {
    IndexOfAppended(q, x);
  }

  /** From the wait on `y`, which is in front, the worker executes it and the script is in a callback again. */
  lemma WaitsThrough(s: State, y: DataId) returns (more: seq<Step>)
    requires Inv(s) && s.op == WaitReady(y) && s.worker == Idle && s.sh.canWait && y in s.sh.info && !Finished(s.sh, y)
    requires s.sh.queue != [] && s.sh.queue[0] == Item(y)
    ensures CanRun(s, more)
    ensures var t := Run(s, more); t.worker == Idle && t.sh.queue == s.sh.queue[1..] && UserCode(t)
  {
    more := Does(s, [], Lua(WaitEnter));
    var t := Run(s, more);
    var served := ServesFront(t, y);
    RunConcat(s, more, served);
    more := more + served;
    more := Does(s, more, Lua(WaitWake));
    more := Does(s, more, Lua(ThinkTake));
    RunKeeps(s, more);
    FrontIsMade(Run(s, more));
    more := Does(s, more, Lua(BeginDeliver(true)));
  }

  /** What a loop is about to deliver was made. */
  lemma FrontIsMade(s: State)
    requires Inv(s) && HasTop(s) && Top(s).rest != []
    ensures Top(s).rest[0] in s.sh.info
  {
    var d := Top(s).rest[0];
    assert Facts(s, d);
    CountIn(Top(s).rest, d);
  }

  /** A pill in front can be moved behind what is queued. */
  lemma PassesPill(s: State) returns (more: seq<Step>)
    requires Inv(s) && UserCode(s) && s.worker == Idle && s.sh.queue != [] && s.sh.queue[0] == Pill
    ensures CanRun(s, more)
    ensures var t := Run(s, more); t.worker == Idle && t.sh.queue == s.sh.queue[1..] + [Pill] && UserCode(t)
  {
    var y;
    more, y := StartsAndSwaps(s);
    RunKeeps(s, more);
    var rest := WaitsThrough(Run(s, more), y);
    RunConcat(s, more, rest);
    more := more + rest;
  }

  lemma IndexOfTail(q: seq<Entry>, tail: seq<Entry>, x: Entry)
    requires q != [] && q[0] != x && x in q
    ensures x in q[1..] + tail && IndexOf(q[1..] + tail, x) < IndexOf(q, x)
  {
    var i := IndexOf(q, x);
    assert (q[1..] + tail)[i - 1] == x;
    IndexOfLeast(q[1..] + tail, x, i - 1);
  }

  // ---------------------------------------------------------------------------------------------------------
  // Up to the execution
  // ---------------------------------------------------------------------------------------------------------

  lemma ExecutesRunning(s: State, d: DataId)
    requires s.worker == Executing(d)
    ensures CanBeExecuted(s, d)
  {
    var t := Next(s, Work(FINE));
    assert CanRun(t, []) && d in Run(t, []).h.outcome;
    ViaStep(s, Work(FINE), d);
  }

  lemma ExecutesHeld(s: State, d: DataId)
    requires s.worker == Taken(d) || s.worker == Executing(d)
    ensures CanBeExecuted(s, d)
  {
    if s.worker == Executing(d) {
      ExecutesRunning(s, d);
    } else {
      ExecutesRunning(Next(s, Work(Begin)), d);
      ViaStep(s, Work(Begin), d);
    }
  }

  /** Whatever is in front, an entry or a pill, the script and the worker get past it. */
  lemma PassesFront(s: State, d: DataId) returns (more: seq<Step>)
    requires Inv(s) && UserCode(s) && s.worker == Idle && Item(d) in s.sh.queue && s.sh.queue[0] != Item(d)
    ensures CanRun(s, more)
    ensures var t := Run(s, more);
      && t.worker == Idle && UserCode(t) && Item(d) in t.sh.queue
      && IndexOf(t.sh.queue, Item(d)) < IndexOf(s.sh.queue, Item(d))
  {
    if s.sh.queue[0] == Pill {
      more := PassesPill(s);
      IndexOfTail(s.sh.queue, [Pill], Item(d));
    } else {
      more := ServesFront(s, s.sh.queue[0].data);
      IndexOfTail(s.sh.queue, [], Item(d));
      assert s.sh.queue[1..] + [] == s.sh.queue[1..];
    }
  }

  /** However many entries and pills are ahead. */
  lemma {:induction false} ExecutesQueued(s: State, d: DataId)
    requires Inv(s) && UserCode(s) && s.worker == Idle && Item(d) in s.sh.queue
    ensures CanBeExecuted(s, d)
    decreases IndexOf(s.sh.queue, Item(d))
  {
    if s.sh.queue[0] == Item(d) {
      ExecutesHeld(Next(s, Work(Take)), d);
      ViaStep(s, Work(Take), d);
    } else {
      var more := PassesFront(s, d);
      RunKeeps(s, more);
      ExecutesQueued(Run(s, more), d);
      Via(s, more, d);
    }
  }

  lemma ExecutesWhileAlive(s: State, d: DataId)
    requires Inv(s) && UserCode(s) && Alive(s.worker) && Item(d) in s.sh.queue
    ensures CanBeExecuted(s, d)
    decreases s.worker == NotStarted
  {
    if s.worker == NotStarted {
      StepKeeps(s, Lua(Connect));
      ExecutesWhileAlive(Next(s, Lua(Connect)), d);
      ViaStep(s, Lua(Connect), d);
    } else if s.worker == Connecting {
      StepKeeps(s, Work(ConnectOk));
      ExecutesQueued(Next(s, Work(ConnectOk)), d);
      ViaStep(s, Work(ConnectOk), d);
    } else {
      var more := FinishesTurn(s);
      RunKeeps(s, more);
      ExecutesQueued(Run(s, more), d);
      Via(s, more, d);
    }
  }

  // ---------------------------------------------------------------------------------------------------------
  // Never again
  // ---------------------------------------------------------------------------------------------------------

  /** After the worker's loop nothing is executed any more. */
  lemma {:induction false} NothingAfterTheLoop(s: State, more: seq<Step>)
    requires !Alive(s.worker) && CanRun(s, more)
    ensures Run(s, more).h.outcome == s.h.outcome && !Alive(Run(s, more).worker)
    decreases |more|
  {
    if more != [] {
      DeadStep(s, more[0]);
      NothingAfterTheLoop(Next(s, more[0]), more[1..]);
    }
  }

  lemma DeadStep(s: State, step: Step)
    requires !Alive(s.worker) && Enabled(s, step)
    ensures Next(s, step).h.outcome == s.h.outcome && !Alive(Next(s, step).worker)
  {
    match step
    case Lua(call) => assert Called(s, call).h.outcome == s.h.outcome && Called(s, call).worker == s.worker;
    case Work(work) => assert work.AbortWaiting?;
  }

  lemma AbortedStep(s: State, step: Step)
    requires Enabled(s, step)
    ensures s.h.aborted <= Next(s, step).h.aborted
  {
    match step
    case Lua(call) => AbortedCall(s, call);
    case Work(work) => assert Worked(s, work).h.aborted == s.h.aborted;
  }

  lemma AbortedCall(s: State, call: LuaStep)
    requires CanCall(s, call)
    ensures s.h.aborted <= Called(s, call).h.aborted
  {
    match call
    case AbortOne => assert Called(s, call) == DoAbortOne(s, s.op.todo, s.op.removed);
    case AbortAll => assert Called(s, call) == DoAbortAll(s, QueueData(s.sh.queue));
    case _ => assert Called(s, call).h.aborted == s.h.aborted;
  }

  lemma {:induction false} AbortedStays(s: State, more: seq<Step>, d: DataId)
    requires CanRun(s, more) && d in s.h.aborted
    ensures d in Run(s, more).h.aborted
    decreases |more|
  {
    if more != [] {
      AbortedStep(s, more[0]);
      AbortedStays(Next(s, more[0]), more[1..], d);
    }
  }

  lemma AbortedIsNeverExecuted(s: State, d: DataId)
    requires Inv(s) && d in s.h.aborted
    ensures !CanBeExecuted(s, d)
  {
    forall more | CanRun(s, more) ensures d !in Run(s, more).h.outcome {
      RunKeeps(s, more);
      AbortedStays(s, more, d);
      assert Facts(Run(s, more), d);
      CountIn(Run(s, more).h.aborted, d);
    }
  }

  lemma QueuedIsNeverExecutedAfter(s: State, d: DataId)
    requires Inv(s) && !Alive(s.worker) && Item(d) in s.sh.queue
    ensures !CanBeExecuted(s, d)
  {
    assert Facts(s, d);
    CountIn(s.sh.queue, Item(d));
    forall more | CanRun(s, more) ensures d !in Run(s, more).h.outcome {
      NothingAfterTheLoop(s, more);
    }
  }

  // ---------------------------------------------------------------------------------------------------------
  // Main results
  // ---------------------------------------------------------------------------------------------------------

  /** In every reachable state in which script code runs, started data has been or can still be executed if and only if
      it has been executed, the worker is about to execute it, or it is queued and the worker has not left its loop.
      This holds of data whose wait has failed as of any other, and whatever pills are queued ahead of it. */
  lemma CanBeExecutedIff(steps: seq<Step>, d: DataId)
    requires CanRun(INIT, steps) && UserCode(Run(INIT, steps)) && d in Run(INIT, steps).h.started
    ensures var s := Run(INIT, steps);
      CanBeExecuted(s, d)
      <==> || d in s.h.outcome || s.worker == Taken(d) || s.worker == Executing(d)
           || (Item(d) in s.sh.queue && Alive(s.worker))
  {
    InitHolds();
    RunKeeps(INIT, steps);
    var s := Run(INIT, steps);
    assert Facts(s, d);
    CountIn(s.sh.queue, Item(d));
    CountIn(s.h.aborted, d);
    if d in s.h.outcome {
      assert CanRun(s, []) && d in Run(s, []).h.outcome;
    } else if s.worker == Taken(d) || s.worker == Executing(d) {
      ExecutesHeld(s, d);
    } else if Item(d) !in s.sh.queue {
      AbortedIsNeverExecuted(s, d);
    } else if Alive(s.worker) {
      ExecutesWhileAlive(s, d);
    } else {
      QueuedIsNeverExecutedAfter(s, d);
    }
  }

  /** A failed wait that leaves its data queued: the error it delivers is followed by an execution in some continuation
      if and only if the worker has not left its loop; in none at all otherwise. */
  lemma FailedWaitExecutesLaterIff(steps: seq<Step>, d: DataId)
    requires CanRun(INIT, steps) && UserCode(Run(INIT, steps)) && d in Run(INIT, steps).h.started
    requires d in Run(INIT, steps).h.fails && d !in Run(INIT, steps).h.outcome && Item(d) in Run(INIT, steps).sh.queue
    ensures CanBeExecuted(Run(INIT, steps), d) <==> Alive(Run(INIT, steps).worker)
  {
    CanBeExecutedIff(steps, d);
    InitHolds();
    RunKeeps(INIT, steps);
    assert Facts(Run(INIT, steps), d);
    CountIn(Run(INIT, steps).sh.queue, Item(d));
  }
}
