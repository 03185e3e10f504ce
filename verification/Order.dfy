/** In which order data is executed and delivered, as long as scripts do not ask for another order. */
module Orders {
  import opened QueryTypes
  import opened BlockingQueues
  import opened Lifecycle
  import opened Conservation
  import opened Delivery
  import opened Outstanding

  function Elements(ds: seq<DataId>): (r: set<DataId>)
    ensures forall d :: d in r <==> d in ds
  {
    set d | d in ds
  }

  // ---------------------------------------------------------------------------------------------------------
  // Execution
  // ---------------------------------------------------------------------------------------------------------

  /** What a step starts. */
  function StartOf(step: Step): seq<DataId> {
    if step.Lua? && step.call.StartPut? then [step.call.data] else []
  }

  /** The data a run starts, in order. */
  function Starts(steps: seq<Step>): seq<DataId> {
    if steps == [] then [] else StartOf(steps[0]) + Starts(steps[1..])
  }

  /** The step is a swap that moves data past other data in the queue. */
  predicate Overtakes(s: State, step: Step) {
    Enabled(s, step) && step.Lua? && step.call.WaitSwap? && step.call.swap &&
    var ds := Get(s.running, step.call.query);
    var i := IndexOf(s.sh.queue, Item(ds[|ds| - 1]));
    i < |s.sh.queue| && QueueData(s.sh.queue[..i]) != []
  }

  predicate NoneOvertakes(s: State, steps: seq<Step>)
    decreases |steps|
  {
    steps != [] ==> !Overtakes(s, steps[0]) && NoneOvertakes(Next(s, steps[0]), steps[1..])
  }

  /** What was taken and what is queued is, in this order, what was started and not aborted. */
  ghost predicate InStartOrder(s: State, starts: seq<DataId>) {
    s.h.taken + QueueData(s.sh.queue) == Remaining(starts, Elements(s.h.aborted))
  }

  lemma {:induction false} QueueDataConcat(q: seq<Entry>, r: seq<Entry>)
    ensures QueueData(q + r) == QueueData(q) + QueueData(r)
  {
    if q == [] {
      assert q + r == r;
    } else {
      assert (q + r)[1..] == q[1..] + r;
      QueueDataConcat(q[1..], r);
    }
  }

  lemma QueueDataOne(e: Entry)
    ensures QueueData([e]) == if e.Item? then [e.data] else []
  {
    assert [e][1..] == [];
  }

  lemma {:induction false} QueueDataWithout(q: seq<Entry>, d: DataId)
    ensures QueueData(Without(q, Item(d))) == Without(QueueData(q), d)
  {
    if q != [] {
      QueueDataWithout(q[1..], d);
      var head := if q[0] == Item(d) then [] else [q[0]];
      QueueDataConcat(head, Without(q[1..], Item(d)));
      QueueDataOne(q[0]);
      var front := if q[0].Item? then [q[0].data] else [];
      WithoutConcat(front, QueueData(q[1..]), d);
      if q[0].Item? {
        assert [q[0].data][1..] == [];
      }
    }
  }

  lemma {:induction false} RemainingNone(ds: seq<DataId>, gone: set<DataId>)
    requires forall d :: d in ds ==> d in gone
    ensures Remaining(ds, gone) == []
  {
    if ds != [] {
      assert ds[0] in ds;
      RemainingNone(ds[1..], gone);
    }
  }

  lemma {:induction false} RemainingMore(ds: seq<DataId>, a: set<DataId>, b: set<DataId>)
    ensures Remaining(Remaining(ds, a), b) == Remaining(ds, a + b)
  {
    if ds != [] {
      RemainingMore(ds[1..], a, b);
      var rest := Remaining(ds[1..], a);
      if ds[0] in a {
        assert Remaining(ds, a) == rest;
      } else {
        assert Remaining(ds, a) == [ds[0]] + rest;
        assert ([ds[0]] + rest)[1..] == rest;
      }
    }
  }

  lemma {:induction false} RemainingConcat(a: seq<DataId>, b: seq<DataId>, gone: set<DataId>)
    ensures Remaining(a + b, gone) == Remaining(a, gone) + Remaining(b, gone)
  {
    if a == [] {
      assert a + b == b;
    } else {
      assert (a + b)[1..] == a[1..] + b;
      RemainingConcat(a[1..], b, gone);
    }
  }

  lemma {:induction false} RemainingAll(ds: seq<DataId>, gone: set<DataId>)
    requires forall d :: d in ds ==> d !in gone
    ensures Remaining(ds, gone) == ds
  {
    if ds != [] {
      assert ds[0] in ds;
      RemainingAll(ds[1..], gone);
    }
  }

  lemma AppendedOrder(taken: seq<DataId>, q: seq<Entry>, starts: seq<DataId>, aborted: seq<DataId>, d: DataId)
    requires taken + QueueData(q) == Remaining(starts, Elements(aborted)) && d !in aborted
    ensures taken + QueueData(q + [Item(d)]) == Remaining(starts + [d], Elements(aborted))
  {
    QueueDataConcat(q, [Item(d)]);
    QueueDataOne(Item(d));
    RemainingAppend(starts, Elements(aborted), d);
    Regrouped(taken, QueueData(q), [d]);
  }

  lemma StartQueues(s: State, call: LuaStep)
    requires call.StartPut? && CanCall(s, call)
    ensures var t := Called(s, call);
      t.sh.queue == s.sh.queue + [Item(call.data)] && t.h.taken == s.h.taken && t.h.aborted == s.h.aborted
  {
  }

  lemma StartOrder(s: State, call: LuaStep, starts: seq<DataId>)
    requires call.StartPut? && CanCall(s, call) && Facts(s, call.data) && InStartOrder(s, starts)
    ensures InStartOrder(Called(s, call), starts + [call.data])
  {
    CountIn(s.h.aborted, call.data);
    StartQueues(s, call);
    AppendedOrder(s.h.taken, s.sh.queue, starts, s.h.aborted, call.data);
  }

  lemma RemovedOrder(taken: seq<DataId>, q: seq<Entry>, starts: seq<DataId>, aborted: seq<DataId>, d: DataId)
    requires taken + QueueData(q) == Remaining(starts, Elements(aborted)) && d !in taken
    ensures taken + QueueData(Without(q, Item(d))) == Remaining(starts, Elements(aborted + [d]))
  {
    WithoutAbsent(taken, d);
    QueueDataWithout(q, d);
    WithoutConcat(taken, QueueData(q), d);
    RemainingWithout(starts, Elements(aborted), d);
    assert Elements(aborted + [d]) == Elements(aborted) + {d};
  }

  lemma AbortOneOrder(s: State, starts: seq<DataId>)
    requires CanCall(s, AbortOne) && Inv(s) && InStartOrder(s, starts)
    ensures InStartOrder(Called(s, AbortOne), starts)
  {
    var d := s.op.todo[0];
    var t := Called(s, AbortOne);
    assert t == DoAbortOne(s, s.op.todo, s.op.removed);
    if Item(d) in s.sh.queue {
      assert Facts(s, d);
      CountIn(s.sh.queue, Item(d));
      CountIn(s.h.taken, d);
      RemovedOrder(s.h.taken, s.sh.queue, starts, s.h.aborted, d);
    }
  }

  lemma AbortAllOrder(s: State, starts: seq<DataId>)
    requires CanCall(s, AbortAll) && Inv(s) && InStartOrder(s, starts)
    ensures InStartOrder(Called(s, AbortAll), starts)
  {
    var ds := QueueData(s.sh.queue);
    var t := Called(s, AbortAll);
    forall d | d in s.h.taken ensures d !in ds {
      assert Facts(s, d);
      QueueDataCounts(s.sh.queue, d);
      CountIn(ds, d);
      CountIn(s.h.taken, d);
    }
    RemainingMore(starts, Elements(s.h.aborted), Elements(ds));
    assert Elements(s.h.aborted + ds) == Elements(s.h.aborted) + Elements(ds);
    RemainingConcat(s.h.taken, ds, Elements(ds));
    RemainingAll(s.h.taken, Elements(ds));
    RemainingNone(ds, Elements(ds));
    assert t.sh.queue == [] && t.h.taken == s.h.taken && t.h.aborted == s.h.aborted + ds;
  }

  /** Exchanging the first entry with the entry of `d` keeps the order of the data if and only if no data is ahead. */
  lemma SwappedData(head: Entry, mid: seq<Entry>, d: DataId, tail: seq<Entry>)
    requires head != Item(d) && Item(d) !in mid
    ensures QueueData([Item(d)] + mid + [head] + tail) == QueueData([head] + mid + [Item(d)] + tail)
            <==> QueueData([head] + mid) == []
  {
    var a, m, t := QueueData([head]), QueueData(mid), QueueData(tail);
    QueueDataOne(head);
    QueueDataOne(Item(d));
    QueueDataFour([head], mid, [Item(d)], tail);
    QueueDataFour([Item(d)], mid, [head], tail);
    QueueDataConcat([head], mid);
    QueueDataCounts(mid, d);
    CountIn(mid, Item(d));
    CountIn(m, d);
    FrontDiffers(a, m, d, t);
  }

  lemma QueueDataFour(a: seq<Entry>, b: seq<Entry>, c: seq<Entry>, d: seq<Entry>)
    ensures QueueData(a + b + c + d) == QueueData(a) + QueueData(b) + QueueData(c) + QueueData(d)
  {
    QueueDataConcat(a + b + c, d);
    QueueDataConcat(a + b, c);
    QueueDataConcat(a, b);
  }

  lemma FrontDiffers(a: seq<DataId>, m: seq<DataId>, d: DataId, t: seq<DataId>)
    requires d !in a && d !in m
    ensures [d] + m + a + t == a + m + [d] + t <==> a + m == []
  {
    if a + m == [] {
      assert a == [] && m == [];
    } else {
      assert (a + m + [d] + t)[0] == (a + m)[0] && ([d] + m + a + t)[0] == d;
    }
  }

  lemma SplitAt(q: seq<Entry>, i: nat, e: Entry)
    requires 0 < i < |q|
    ensures q == [q[0]] + q[1..i] + [q[i]] + q[i + 1..] && q[..i] == [q[0]] + q[1..i]
    ensures q[0 := e] == [e] + q[1..i] + [q[i]] + q[i + 1..]
    ensures q[0 := e][i := q[0]] == [e] + q[1..i] + [q[0]] + q[i + 1..]
  {
    assert q == q[..i] + q[i..];
    assert q[i..] == [q[i]] + q[i + 1..];
  }

  lemma SwapKeepsDataIff(q: seq<Entry>, d: DataId)
    ensures var i := IndexOf(q, Item(d));
      QueueData(SwapToFront(q, Item(d))) == QueueData(q) <==> i == |q| || QueueData(q[..i]) == []
  {
    var i := IndexOf(q, Item(d));
    if 0 < i < |q| {
      SplitAt(q, i, Item(d));
      assert q[0] in q[..i];
      assert forall x :: x in q[1..i] ==> x in q[..i];
      SwappedData(q[0], q[1..i], d, q[i + 1..]);
    }
  }

  /** A swap keeps the start order if and only if it overtakes nothing. */
  lemma SwapOrderIff(s: State, call: LuaStep, starts: seq<DataId>)
    requires call.WaitSwap? && CanCall(s, call) && InStartOrder(s, starts)
    ensures InStartOrder(Called(s, call), starts) <==> !Overtakes(s, Lua(call))
  {
    var ds := Get(s.running, call.query);
    var t := Called(s, call);
    assert t == DoWaitSwap(s, ds, call.swap);
    if call.swap {
      SwapKeepsDataIff(s.sh.queue, ds[|ds| - 1]);
      SamePrefix(s.h.taken, QueueData(t.sh.queue), QueueData(s.sh.queue));
    }
  }

  lemma SamePrefix(a: seq<DataId>, b: seq<DataId>, c: seq<DataId>)
    ensures a + b == a + c <==> b == c
  {
    if a + b == a + c {
      assert b == (a + b)[|a|..] && c == (a + c)[|a|..];
    }
  }

  lemma OtherCallOrder(s: State, call: LuaStep, starts: seq<DataId>)
    requires !call.StartPut? && !call.AbortOne? && !call.AbortAll? && !call.WaitSwap?
    requires CanCall(s, call) && InStartOrder(s, starts)
    ensures InStartOrder(Called(s, call), starts)
  {
    var t := Called(s, call);
    assert t.h.taken == s.h.taken && t.h.aborted == s.h.aborted;
    if call.Disconnect? {
      QueueDataConcat(s.sh.queue, [Pill]);
      QueueDataOne(Pill);
      assert QueueData(s.sh.queue) + [] == QueueData(s.sh.queue);
    }
  }

  lemma TakeOrder(s: State, starts: seq<DataId>)
    requires CanWork(s, Take) && InStartOrder(s, starts)
    ensures InStartOrder(Worked(s, Take), starts)
  {
    var t := Worked(s, Take);
    var e := s.sh.queue[0];
    var front := if e.Item? then [e.data] else [];
    assert t == DoTake(s);
    assert QueueData(s.sh.queue) == front + QueueData(t.sh.queue);
    Regrouped(s.h.taken, front, QueueData(t.sh.queue));
    assert s.h.taken + [] == s.h.taken;
  }

  lemma StartsOne(step: Step)
    ensures Starts([step]) == if step.Lua? && step.call.StartPut? then [step.call.data] else []
  {
    assert [step][1..] == [];
  }

  lemma WorkInOrder(s: State, work: WorkerStep, starts: seq<DataId>)
    requires CanWork(s, work) && InStartOrder(s, starts)
    ensures InStartOrder(Worked(s, work), starts)
  {
    if work == Take {
      TakeOrder(s, starts);
    } else {
      var t := Worked(s, work);
      assert t.h.taken == s.h.taken && t.sh.queue == s.sh.queue && t.h.aborted == s.h.aborted;
    }
  }

  lemma CallInOrder(s: State, call: LuaStep, starts: seq<DataId>)
    requires CanCall(s, call) && Inv(s) && InStartOrder(s, starts)
    ensures InStartOrder(Called(s, call), if call.StartPut? then starts + [call.data] else starts)
            <==> !Overtakes(s, Lua(call))
  {
    if call.StartPut? {
      assert Facts(s, call.data);
      StartOrder(s, call, starts);
    } else if call.AbortOne? {
      AbortOneOrder(s, starts);
    } else if call.AbortAll? {
      AbortAllOrder(s, starts);
    } else if call.WaitSwap? {
      SwapOrderIff(s, call, starts);
    } else {
      OtherCallOrder(s, call, starts);
    }
  }

  lemma OrderStepIff(s: State, step: Step, starts: seq<DataId>)
    requires Inv(s) && Enabled(s, step) && InStartOrder(s, starts)
    ensures InStartOrder(Next(s, step), starts + StartOf(step)) <==> !Overtakes(s, step)
  {
    assert starts + [] == starts;
    match step
    case Work(work) => WorkInOrder(s, work, starts);
    case Lua(call) => CallInOrder(s, call, starts);
  }

  /** The order is kept at every point of the run. */
  ghost predicate AlwaysInStartOrder(s: State, steps: seq<Step>, starts: seq<DataId>)
    decreases |steps|
  {
    && InStartOrder(s, starts)
    && (steps != [] ==> AlwaysInStartOrder(Next(s, steps[0]), steps[1..], starts + StartOf(steps[0])))
  }

  lemma {:induction false} OrderRunIff(s: State, steps: seq<Step>, starts: seq<DataId>)
    requires Inv(s) && CanRun(s, steps) && InStartOrder(s, starts)
    ensures AlwaysInStartOrder(s, steps, starts) <==> NoneOvertakes(s, steps)
    ensures NoneOvertakes(s, steps) ==> InStartOrder(Run(s, steps), starts + Starts(steps))
    decreases |steps|
  {
    if steps == [] {
      assert starts + [] == starts;
    } else {
      var one := StartOf(steps[0]);
      OrderStepIff(s, steps[0], starts);
      StepKeeps(s, steps[0]);
      if !Overtakes(s, steps[0]) {
        OrderRunIff(Next(s, steps[0]), steps[1..], starts + one);
        Regrouped(starts, one, Starts(steps[1..]));
      }
    }
  }

  /** Over every run, the data taken for execution followed by the data still queued is, at every point, the data
      started so far in start order, without what was aborted, if and only if no swap moves data past other data. */
  lemma ExecutedInStartOrderIff(steps: seq<Step>)
    requires CanRun(INIT, steps)
    ensures AlwaysInStartOrder(INIT, steps, []) <==> NoneOvertakes(INIT, steps)
    ensures NoneOvertakes(INIT, steps) ==>
      var s := Run(INIT, steps);
      s.h.taken + QueueData(s.sh.queue) == Remaining(Starts(steps), set d | d in s.h.aborted)
  {
    InitHolds();
    OrderRunIff(INIT, steps, []);
    assert [] + Starts(steps) == Starts(steps);
    assert Elements(Run(INIT, steps).h.aborted) == set d | d in Run(INIT, steps).h.aborted;
  }

  // ---------------------------------------------------------------------------------------------------------
  // Delivery
  // ---------------------------------------------------------------------------------------------------------

  /** What the worker has taken and not yet published. */
  function InHand(w: Worker): seq<DataId> {
    if w.Taken? || w.Executing? || w.Executed? then [w.data] else []
  }

  /** What a loop over finished data still holds. */
  function Pending(f: Frame): seq<DataId> {
    if f.aborted then [] else (if f.current.Some? then [f.current.value] else []) + f.rest
  }

  /** What all loops hold, those inside first. */
  function InLoops(stack: seq<Frame>): seq<DataId> {
    if stack == [] then [] else Pending(stack[|stack| - 1]) + InLoops(stack[..|stack| - 1])
  }

  /** The step begins, inside a callback, a loop over published data while loops around it still hold earlier data. */
  predicate Nests(s: State, step: Step) {
    Enabled(s, step) && step == Lua(ThinkTake) && s.sh.finishedQueries != [] && InLoops(s.stack) != []
  }

  predicate NoneNests(s: State, steps: seq<Step>)
    decreases |steps|
  {
    steps != [] ==> !Nests(s, steps[0]) && NoneNests(Next(s, steps[0]), steps[1..])
  }

  /** Delivered, in loops, published, in hand: in this order, it is what was taken. */
  ghost predicate InTakenOrder(s: State) {
    Remaining(s.h.done, Elements(s.h.aborted)) + InLoops(s.stack) + s.sh.finishedQueries + InHand(s.worker)
    == s.h.taken
  }

  lemma InLoopsPush(stack: seq<Frame>, f: Frame)
    ensures InLoops(stack + [f]) == Pending(f) + InLoops(stack)
  {
    assert (stack + [f])[..|stack|] == stack;
  }

  lemma DoneNotAborted(s: State, d: DataId)
    requires Facts(s, d) && d in s.h.taken
    ensures d !in s.h.aborted
  {
    CountIn(s.h.taken, d);
    CountIn(s.h.aborted, d);
  }

  /** Data that is queued has not been delivered, as long as no wait has failed. */
  lemma QueuedNotDone(s: State, d: DataId)
    requires Facts(s, d) && Item(d) in s.sh.queue && s.h.fails == []
    ensures d !in s.h.done
  {
    CountIn(s.sh.queue, Item(d));
    CountIn(s.h.done, d);
  }

  lemma AbortedNotDone(s: State, t: State, ds: seq<DataId>)
    requires Inv(s) && s.h.fails == [] && InTakenOrder(s)
    requires t.h.aborted == s.h.aborted + ds && (forall d :: d in ds ==> Item(d) in s.sh.queue)
    requires t.h.done == s.h.done && InLoops(t.stack) == InLoops(s.stack)
    requires t.sh.finishedQueries == s.sh.finishedQueries && t.worker == s.worker && t.h.taken == s.h.taken
    ensures InTakenOrder(t)
  {
    forall d | d in s.h.done ensures d !in ds {
      if d in ds {
        assert Facts(s, d);
        QueuedNotDone(s, d);
      }
    }
    RemainingSame(s.h.done, Elements(s.h.aborted), Elements(t.h.aborted));
  }

  /** The end of a callback moves its data from the loop to what is delivered. */
  lemma EndDeliverOrder(s: State, t: State, below: seq<Frame>, f: Frame, d: DataId)
    requires InTakenOrder(s) && s.stack == below + [f] && f.current == Some(d)
    requires if f.aborted then d in s.h.aborted else d !in s.h.aborted
    requires t.stack == below + [f.(current := None)] && t.h.done == s.h.done + [d] && t.h.aborted == s.h.aborted
    requires t.h.taken == s.h.taken && t.worker == s.worker && t.sh.finishedQueries == s.sh.finishedQueries
    ensures InTakenOrder(t)
  {
    RemainingAppend(s.h.done, Elements(s.h.aborted), d);
    InLoopsPush(below, f);
    InLoopsPush(below, f.(current := None));
    var done := Remaining(s.h.done, Elements(s.h.aborted));
    if f.aborted {
      assert done + [] == done;
    } else {
      Regrouped([d], f.rest, InLoops(below));
      Regrouped(done, [d], f.rest + InLoops(below));
      assert [] + f.rest == f.rest;
    }
  }

  lemma EndDeliverFits(s: State)
    requires CanCall(s, EndDeliver) && DeliveryInv(s) && s.h.fails == []
    ensures var f := Top(s); var d := f.current.value;
      if f.aborted then d in s.h.aborted else d !in s.h.aborted
  {
    var f := Top(s);
    var d := f.current.value;
    assert FrameFits(s.h, f) && Fits(s.h, f.aborted, d) && Facts(s, d);
    CountIn(s.h.taken, d);
    CountIn(s.h.aborted, d);
  }

  lemma PendingBegun(f: Frame)
    requires f.current == None && f.rest != []
    ensures Pending(f.(current := Some(f.rest[0]), rest := f.rest[1..])) == Pending(f)
  {
    assert [f.rest[0]] + f.rest[1..] == f.rest;
  }

  /** The beginning of a callback leaves its data in the loop. */
  lemma BeginOrder(s: State, t: State, below: seq<Frame>, f: Frame)
    requires InTakenOrder(s) && s.stack == below + [f] && f.current == None && f.rest != []
    requires t.stack == below + [f.(current := Some(f.rest[0]), rest := f.rest[1..])]
    requires t.h.done == s.h.done && t.h.aborted == s.h.aborted && t.h.taken == s.h.taken && t.worker == s.worker
    requires t.sh.finishedQueries == s.sh.finishedQueries
    ensures InTakenOrder(t)
  {
    PendingBegun(f);
    InLoopsPush(below, f);
    InLoopsPush(below, f.(current := Some(f.rest[0]), rest := f.rest[1..]));
    assert InLoops(t.stack) == InLoops(s.stack);
  }

  /** Without failed waits, what is published is not in any loop. */
  lemma PublishedIsNotInLoops(s: State, d: DataId)
    requires Facts(s, d) && s.h.fails == [] && d in s.sh.finishedQueries
    ensures d !in InLoops(s.stack)
  {
    CountIn(s.sh.finishedQueries, d);
    InLoopsCounts(s.stack, d);
    CountIn(InLoops(s.stack), d);
  }

  lemma {:induction false} InLoopsCounts(stack: seq<Frame>, d: DataId)
    ensures Count(InLoops(stack), d) <= OnStack(stack, d)
  {
    if stack != [] {
      var f := stack[|stack| - 1];
      var below := stack[..|stack| - 1];
      InLoopsCounts(below, d);
      CountConcat(Pending(f), InLoops(below), d);
      CountConcat(if f.current.Some? then [f.current.value] else [], f.rest, d);
    }
  }

  /** A loop over published data begins: the order is kept if and only if it does not come before earlier data. */
  lemma ThinkOrderIff(s: State)
    requires CanCall(s, ThinkTake) && Inv(s) && s.h.fails == [] && InTakenOrder(s)
    ensures InTakenOrder(Called(s, ThinkTake)) <==> !Nests(s, Lua(ThinkTake))
  {
    var t := Called(s, ThinkTake);
    var f := Frame(None, s.sh.finishedQueries, false, s.op.waited);
    assert t == DoThinkTake(s, s.op.waited);
    InLoopsPush(s.stack, f);
    assert Pending(f) == s.sh.finishedQueries;
    if s.sh.finishedQueries != [] {
      assert Facts(s, s.sh.finishedQueries[0]);
      PublishedIsNotInLoops(s, s.sh.finishedQueries[0]);
    }
    Exchanged(Remaining(s.h.done, Elements(s.h.aborted)), InLoops(s.stack), s.sh.finishedQueries, InHand(s.worker));
  }

  lemma Exchanged(done: seq<DataId>, p: seq<DataId>, f: seq<DataId>, hand: seq<DataId>)
    requires f != [] ==> f[0] !in p
    ensures done + (f + p) + [] + hand == done + p + f + hand <==> f == [] || p == []
  {
    var a, b := done + (f + p) + [] + hand, done + p + f + hand;
    if f != [] && p != [] {
      assert a[|done|] == f[0] && b[|done|] == p[0];
    } else {
      assert f == [] ==> f + p == p;
      assert p == [] ==> f + p == f && done + p == done;
    }
  }

  lemma LoopOrder(s: State, call: LuaStep)
    requires call.AbortDone? || call.FrameEnd?
    requires CanCall(s, call) && InTakenOrder(s)
    ensures InTakenOrder(Called(s, call))
  {
    var t := Called(s, call);
    if call.FrameEnd? {
      assert s.stack == Below(s) + [Top(s)];
      InLoopsPush(Below(s), Top(s));
      assert [] + InLoops(t.stack) == InLoops(t.stack);
    } else {
      InLoopsPush(s.stack, Frame(None, s.op.removed, true, None));
      assert [] + InLoops(s.stack) == InLoops(s.stack);
    }
  }

  lemma AbortAllDelivers(s: State)
    requires CanCall(s, AbortAll) && Inv(s) && s.h.fails == [] && InTakenOrder(s)
    ensures InTakenOrder(Called(s, AbortAll))
  {
    var t := Called(s, AbortAll);
    var ds := QueueData(s.sh.queue);
    assert t == DoAbortAll(s, ds);
    InLoopsPush(s.stack, Frame(None, ds, true, None));
    assert [] + InLoops(s.stack) == InLoops(s.stack);
    forall d | d in ds ensures Item(d) in s.sh.queue {
      QueueDataCounts(s.sh.queue, d);
      CountIn(ds, d);
      CountIn(s.sh.queue, Item(d));
    }
    AbortedNotDone(s, t, ds);
  }

  lemma AbortOneDelivers(s: State)
    requires CanCall(s, AbortOne) && Inv(s) && s.h.fails == [] && InTakenOrder(s)
    ensures InTakenOrder(Called(s, AbortOne))
  {
    var t := Called(s, AbortOne);
    assert t == DoAbortOne(s, s.op.todo, s.op.removed);
    AbortedNotDone(s, t, if Item(s.op.todo[0]) in s.sh.queue then [s.op.todo[0]] else []);
  }

  lemma FailsStayCall(s: State, call: LuaStep)
    requires CanCall(s, call)
    ensures s.h.fails <= Called(s, call).h.fails
  {
  }

  lemma FailsStayWork(s: State, work: WorkerStep)
    requires CanWork(s, work)
    ensures s.h.fails <= Worked(s, work).h.fails
  {
  }

  lemma FailsStay(s: State, step: Step)
    requires Enabled(s, step)
    ensures s.h.fails <= Next(s, step).h.fails
  {
    match step
    case Lua(call) => FailsStayCall(s, call);
    case Work(work) => FailsStayWork(s, work);
  }

  lemma EndOrder(s: State)
    requires CanCall(s, EndDeliver) && DeliveryInv(s) && InTakenOrder(s) && s.h.fails == []
    ensures InTakenOrder(Called(s, EndDeliver))
  {
    var t := Called(s, EndDeliver);
    assert t == DoEndDeliver(s) && s.stack == Below(s) + [Top(s)];
    EndDeliverFits(s);
    EndDeliverOrder(s, t, Below(s), Top(s), Top(s).current.value);
  }

  /** What the beginning of a delivery does to the loops, and what it leaves alone. */
  lemma BeginLoops(s: State, call: LuaStep)
    requires call.BeginDeliver? && CanCall(s, call)
    ensures var t := Called(s, call); var f := Top(s);
      && s.stack == Below(s) + [f] && t.stack == Below(s) + [f.(current := Some(f.rest[0]), rest := f.rest[1..])]
      && f.current == None && t.h == s.h.(events := t.h.events) && t.worker == s.worker
      && t.sh.finishedQueries == s.sh.finishedQueries
  {
  }

  lemma BeginDeliverOrder(s: State, call: LuaStep)
    requires call.BeginDeliver? && CanCall(s, call) && InTakenOrder(s)
    ensures InTakenOrder(Called(s, call))
  {
    BeginLoops(s, call);
    BeginOrder(s, Called(s, call), Below(s), Top(s));
  }

  lemma CallOrderIff(s: State, call: LuaStep)
    requires CanCall(s, call) && DeliveryInv(s) && InTakenOrder(s) && Called(s, call).h.fails == []
    ensures InTakenOrder(Called(s, call)) <==> !Nests(s, Lua(call))
  {
    FailsStayCall(s, call);
    match call
    case BeginDeliver(_) => BeginDeliverOrder(s, call);
    case EndDeliver => EndOrder(s);
    case AbortOne => AbortOneDelivers(s);
    case AbortDone => LoopOrder(s, call);
    case AbortAll => AbortAllDelivers(s);
    case ThinkTake => ThinkOrderIff(s);
    case FrameEnd => LoopOrder(s, call);
    case _ => CallKeepsOrder(s, call);
  }

  lemma CallKeepsOrder(s: State, call: LuaStep)
    requires !call.BeginDeliver? && !call.EndDeliver? && !call.AbortOne? && !call.AbortDone? && !call.AbortAll?
    requires !call.ThinkTake? && !call.FrameEnd?
    requires CanCall(s, call) && InTakenOrder(s) && Called(s, call).h.fails == []
    ensures InTakenOrder(Called(s, call))
  {
    var t := Called(s, call);
    assert t.h.done == s.h.done && t.h.aborted == s.h.aborted && t.stack == s.stack && t.h.taken == s.h.taken;
    assert InHand(t.worker) == InHand(s.worker) && t.sh.finishedQueries == s.sh.finishedQueries;
  }

  lemma WorkQueues(s: State, work: WorkerStep)
    requires CanWork(s, work) && Worked(s, work).h.fails == []
    ensures var t := Worked(s, work);
      && t.h.done == s.h.done && t.h.aborted == s.h.aborted && t.stack == s.stack
      && (if work.Take? && s.sh.queue[0].Item?
          then t.h.taken == s.h.taken + [s.sh.queue[0].data] && InHand(t.worker) == [s.sh.queue[0].data]
               && InHand(s.worker) == []
          else t.h.taken == s.h.taken && (!work.Publish? ==> InHand(t.worker) == InHand(s.worker)))
      && (if work.Publish?
          then t.sh.finishedQueries == s.sh.finishedQueries + [s.worker.data] && InHand(s.worker) == [s.worker.data]
               && InHand(t.worker) == []
          else t.sh.finishedQueries == s.sh.finishedQueries)
  {
  }

  lemma Shifted(front: seq<DataId>, a: seq<DataId>, x: seq<DataId>)
    ensures front + (a + x) + [] == front + a + x && front + a + [] + x == front + a + x
  {
  }

  lemma WorkOrder(s: State, work: WorkerStep)
    requires CanWork(s, work) && InTakenOrder(s) && Worked(s, work).h.fails == []
    ensures InTakenOrder(Worked(s, work))
  {
    WorkQueues(s, work);
    var t := Worked(s, work);
    var front := Remaining(s.h.done, Elements(s.h.aborted)) + InLoops(s.stack);
    Shifted(front, s.sh.finishedQueries, InHand(t.worker));
    Shifted(front, s.sh.finishedQueries, InHand(s.worker));
  }

  lemma {:induction false} FailsStayRun(s: State, steps: seq<Step>)
    requires CanRun(s, steps)
    ensures s.h.fails <= Run(s, steps).h.fails
    decreases |steps|
  {
    if steps != [] {
      FailsStay(s, steps[0]);
      FailsStayRun(Next(s, steps[0]), steps[1..]);
    }
  }

  /** The order is kept at every point of the run. */
  ghost predicate AlwaysInTakenOrder(s: State, steps: seq<Step>)
    decreases |steps|
  {
    InTakenOrder(s) && (steps != [] ==> AlwaysInTakenOrder(Next(s, steps[0]), steps[1..]))
  }

  lemma {:induction false} TakenOrderRunIff(s: State, steps: seq<Step>)
    requires DeliveryInv(s) && CanRun(s, steps) && InTakenOrder(s) && Run(s, steps).h.fails == []
    ensures AlwaysInTakenOrder(s, steps) <==> NoneNests(s, steps)
    ensures NoneNests(s, steps) ==> InTakenOrder(Run(s, steps))
    decreases |steps|
  {
    if steps != [] {
      var t := Next(s, steps[0]);
      FailsStayRun(t, steps[1..]);
      match steps[0] {
        case Lua(call) => CallOrderIff(s, call);
        case Work(work) => WorkOrder(s, work);
      }
      DeliveryStep(s, steps[0]);
      if !Nests(s, steps[0]) {
        TakenOrderRunIff(t, steps[1..]);
      }
    }
  }

  /** Over every run in which no wait fails, the data that was delivered without being aborted, followed by what loops
      hold, what is published and what the worker has in hand, is at every point the data in the order of execution, if
      and only if no callback begins a loop over published data while the loops around it hold earlier data. */
  lemma DeliveredInTakenOrderIff(steps: seq<Step>)
    requires CanRun(INIT, steps) && Run(INIT, steps).h.fails == []
    ensures AlwaysInTakenOrder(INIT, steps) <==> NoneNests(INIT, steps)
    ensures NoneNests(INIT, steps) ==>
      var s := Run(INIT, steps);
      Remaining(s.h.done, set d | d in s.h.aborted) + InLoops(s.stack) + s.sh.finishedQueries + InHand(s.worker)
      == s.h.taken
  {
    InitDelivery();
    TakenOrderRunIff(INIT, steps);
    assert Elements(Run(INIT, steps).h.aborted) == set d | d in Run(INIT, steps).h.aborted;
  }

  /** So scripts get the results in the order in which they started the queries: what was delivered without being
      aborted is a first part of what was started without being aborted. */
  lemma DeliveredInStartOrder(steps: seq<Step>)
    requires CanRun(INIT, steps) && NoneOvertakes(INIT, steps) && NoneNests(INIT, steps)
    requires Run(INIT, steps).h.fails == []
    ensures var s := Run(INIT, steps); var aborted := set d | d in s.h.aborted;
      Remaining(s.h.done, aborted) <= Remaining(Starts(steps), aborted)
  {
    ExecutedInStartOrderIff(steps);
    DeliveredInTakenOrderIff(steps);
  }
}
