/**
 What a disconnect still executes: exactly the entries ahead of the first pill, as long as no swap reaches behind it.
 */
module Drain {
  import opened BlockingQueues
  import opened Lifecycle
  import opened Conservation

  /** The worker has connected and has not taken a pill yet. */
  predicate Serving(w: Worker) {
    w == Idle || w.Taken? || w.Executing? || w.Executed? || w.Published?
  }

  /** The worker serves, or may still connect. */
  predicate Alive(w: Worker) {
    w == NotStarted || w == Connecting || Serving(w)
  }

  /** The connection failed. */
  predicate Refused(steps: seq<Step>) {
    Work(ConnectFail) in steps || Work(ConnectInitFail) in steps
  }

  /** A swap, if the step is one, moves an entry that is ahead of the first pill anyway, or moves nothing. */
  predicate SwapsAhead(s: State, step: Step) {
    Enabled(s, step) && step.Lua? && step.call.WaitSwap? && step.call.swap ==>
      var ds := Get(s.running, step.call.query);
      var d := ds[|ds| - 1];
      d in BeforePill(s.sh.queue) || Item(d) !in s.sh.queue
  }

  predicate SwapsStayAhead(s: State, steps: seq<Step>)
    decreases |steps|
  {
    steps != [] ==> SwapsAhead(s, steps[0]) && SwapsStayAhead(Next(s, steps[0]), steps[1..])
  }

  // ---------------------------------------------------------------------------------------------------------
  // Queue operations and the part ahead of the pill
  // ---------------------------------------------------------------------------------------------------------

  lemma {:induction false} BeforePillIn(q: seq<Entry>, d: DataId)
    ensures d in BeforePill(q) ==> Item(d) in q
  {
    if q != [] && q[0] != Pill {
      BeforePillIn(q[1..], d);
    }
  }

  lemma {:induction false} BeforePillAppend(q: seq<Entry>, e: Entry)
    requires Pill in q
    ensures BeforePill(q + [e]) == BeforePill(q)
  {
    assert (q + [e])[0] == q[0];
    if q[0] != Pill {
      assert (q + [e])[1..] == q[1..] + [e];
      BeforePillAppend(q[1..], e);
    }
  }

  lemma {:induction false} BeforePillWithout(q: seq<Entry>, d: DataId)
    requires Pill in q
    ensures Pill in Without(q, Item(d))
    ensures BeforePill(Without(q, Item(d))) == Without(BeforePill(q), d)
  {
    var w := Without(q[1..], Item(d));
    if q[0] == Pill {
      assert Without(q, Item(d)) == [Pill] + w;
    } else {
      BeforePillWithout(q[1..], d);
      var x := q[0].data;
      assert BeforePill(q) == [x] + BeforePill(q[1..]);
      assert ([x] + BeforePill(q[1..]))[1..] == BeforePill(q[1..]);
      if x == d {
        assert Without(q, Item(d)) == w;
      } else {
        assert Without(q, Item(d)) == [q[0]] + w;
        assert ([q[0]] + w)[1..] == w;
      }
    }
  }

  lemma FrontIsBeforePill(q: seq<Entry>, d: DataId)
    requires q != [] && q[0] == Item(d)
    ensures d in BeforePill(q)
  {
    assert BeforePill(q)[0] == d;
  }

  lemma {:induction false} IndexOfLeast<T>(s: seq<T>, x: T, k: nat)
    requires k < |s| && s[k] == x
    ensures IndexOf(s, x) <= k
  {
    if k > 0 && s[0] != x {
      IndexOfLeast(s[1..], x, k - 1);
    }
  }

  /** The index of the first pill. */
  function PillIndex(q: seq<Entry>): nat
    requires Pill in q
    ensures PillIndex(q) < |q| && q[PillIndex(q)] == Pill
    ensures Pill !in q[..PillIndex(q)]
  {
    IndexOf(q, Pill)
  }

  /** A first pill at `n` parts the queue: the data ahead of it in order, and what is behind it. */
  lemma {:induction false} BeforePillIs(q: seq<Entry>, n: nat)
    requires n < |q| && q[n] == Pill && (forall k :: 0 <= k < n ==> q[k] != Pill)
    ensures |BeforePill(q)| == n && forall k :: 0 <= k < n ==> Item(BeforePill(q)[k]) == q[k]
    ensures AfterPill(q) == q[n + 1..]
  {
    if n > 0 {
      BeforePillIs(q[1..], n - 1);
    }
  }

  lemma BeforePillIff(q: seq<Entry>, n: nat, d: DataId)
    requires n < |q| && q[n] == Pill && (forall k :: 0 <= k < n ==> q[k] != Pill)
    ensures d in BeforePill(q) <==> Item(d) in q[..n]
  {
    BeforePillIs(q, n);
    if Item(d) in q[..n] {
      var k :| 0 <= k < n && q[..n][k] == Item(d);
      assert Item(BeforePill(q)[k]) == q[k];
    }
    if d in BeforePill(q) {
      var k :| 0 <= k < n && BeforePill(q)[k] == d;
      assert q[..n][k] == Item(d);
    }
  }

  lemma FirstPill(q: seq<Entry>) returns (n: nat)
    requires Pill in q
    ensures n < |q| && q[n] == Pill && (forall k :: 0 <= k < n ==> q[k] != Pill)
  {
    n := PillIndex(q);
    forall k | 0 <= k < n ensures q[k] != Pill {
      assert q[k] == q[..n][k];
    }
  }

  /** A swap of an entry ahead of the pill keeps what is ahead of it. */
  lemma SwapAheadKeeps(q: seq<Entry>, d: DataId, x: DataId)
    requires Pill in q
    requires d in BeforePill(q) || Item(d) !in q
    ensures Pill in SwapToFront(q, Item(d))
    ensures x in BeforePill(SwapToFront(q, Item(d))) <==> x in BeforePill(q)
  {
    var n := FirstPill(q);
    var i := IndexOf(q, Item(d));
    if 0 < i < |q| {
      BeforePillIff(q, n, d);
      var k :| 0 <= k < n && q[..n][k] == Item(d);
      IndexOfLeast(q, Item(d), k);
      var r := SwapToFront(q, Item(d));
      assert r[n] == Pill;
      BeforePillIff(r, n, x);
      BeforePillIff(q, n, x);
      SwapKeepsPrefixMembers(q, i, n, Item(x));
    }
  }

  lemma SwapKeepsPrefixMembers(q: seq<Entry>, i: nat, n: nat, e: Entry)
    requires 0 < i < n <= |q|
    ensures e in q[0 := q[i]][i := q[0]][..n] <==> e in q[..n]
  {
    var r := q[0 := q[i]][i := q[0]];
    if e in q[..n] {
      var k :| 0 <= k < n && q[..n][k] == e;
      assert r[..n][if k == 0 then i else if k == i then 0 else k] == e;
    }
    if e in r[..n] {
      var k :| 0 <= k < n && r[..n][k] == e;
      assert q[..n][if k == 0 then i else if k == i then 0 else k] == e;
    }
  }

  lemma SwapAheadKeepsAll(q: seq<Entry>, d: DataId)
    requires Pill in q
    requires d in BeforePill(q) || Item(d) !in q
    ensures Pill in SwapToFront(q, Item(d))
    ensures forall x :: x in BeforePill(SwapToFront(q, Item(d))) <==> x in BeforePill(q)
  {
    SwapAheadKeeps(q, d, d);
    forall x ensures x in BeforePill(SwapToFront(q, Item(d))) <==> x in BeforePill(q) {
      SwapAheadKeeps(q, d, x);
    }
  }

  /** Exactly the swaps that move an entry ahead of the pill, or nothing, keep the set of data ahead of it. */
  lemma SwapKeepsIff(q: seq<Entry>, d: DataId)
    requires Pill in q
    ensures (forall x :: x in BeforePill(SwapToFront(q, Item(d))) <==> x in BeforePill(q))
            <==> d in BeforePill(q) || Item(d) !in q
  {
    if d in BeforePill(q) || Item(d) !in q {
      SwapAheadKeepsAll(q, d);
    } else {
      var r := SwapToFront(q, Item(d));
      var i := IndexOf(q, Item(d));
      if i == 0 {
        FrontIsBeforePill(q, d);
      }
      FrontIsBeforePill(r, d);
    }
  }

  // ---------------------------------------------------------------------------------------------------------
  // From the moment a pill is queued until the worker ends
  // ---------------------------------------------------------------------------------------------------------

  /** `ahead` were the data ahead of the pill, `before` had been taken before it was queued. */
  ghost predicate Draining(s: State, ahead: set<DataId>, before: set<DataId>) {
    && (Alive(s.worker) || s.worker == Closing || s.worker == Ended)
    && (forall d :: d in s.h.taken ==> d in before || d in ahead)
    && (forall d :: d in ahead ==>
          d in s.h.taken || d in s.h.aborted || (Alive(s.worker) && d in BeforePill(s.sh.queue)))
    && (Alive(s.worker) ==> Pill in s.sh.queue && forall d :: d in BeforePill(s.sh.queue) ==> d in ahead)
  }

  lemma DrainAppend(s: State, call: LuaStep, ahead: set<DataId>, before: set<DataId>)
    requires call.StartPut? || call.Disconnect?
    requires CanCall(s, call) && Draining(s, ahead, before)
    ensures Draining(Called(s, call), ahead, before)
  {
    if Alive(s.worker) {
      BeforePillAppend(s.sh.queue, if call.StartPut? then Item(call.data) else Pill);
    }
  }

  lemma DrainSwap(s: State, call: LuaStep, ahead: set<DataId>, before: set<DataId>)
    requires call.WaitSwap? && CanCall(s, call) && SwapsAhead(s, Lua(call)) && Draining(s, ahead, before)
    ensures Draining(Called(s, call), ahead, before)
  {
    var ds := Get(s.running, call.query);
    if Alive(s.worker) && call.swap {
      SwapAheadKeepsAll(s.sh.queue, ds[|ds| - 1]);
    }
    assert Called(s, call) == DoWaitSwap(s, ds, call.swap);
  }

  lemma DrainAbortOne(s: State, ahead: set<DataId>, before: set<DataId>)
    requires CanCall(s, AbortOne) && Draining(s, ahead, before)
    ensures Draining(Called(s, AbortOne), ahead, before)
  {
    var d := s.op.todo[0];
    if Alive(s.worker) {
      BeforePillWithout(s.sh.queue, d);
      forall x ensures x in Without(BeforePill(s.sh.queue), d) <==> x in BeforePill(s.sh.queue) && x != d {
        WithoutIn(BeforePill(s.sh.queue), d, x);
      }
      BeforePillIn(s.sh.queue, d);
    }
  }

  /** The other steps of the Lua thread do not touch the queue; `abortAllQueries` is not taken with a pill queued. */
  lemma DrainQuiet(s: State, call: LuaStep, ahead: set<DataId>, before: set<DataId>)
    requires !call.StartPut? && !call.Disconnect? && !call.WaitSwap? && !call.AbortOne?
    requires CanCall(s, call) && Draining(s, ahead, before)
    ensures Draining(Called(s, call), ahead, before)
  {
  }

  lemma DrainWork(s: State, work: WorkerStep, ahead: set<DataId>, before: set<DataId>)
    requires CanWork(s, work) && Draining(s, ahead, before) && !Refused([Work(work)])
    ensures Draining(Worked(s, work), ahead, before)
  {
    assert [Work(work)][0] == Work(work);
    if work.Take? {
      assert s.sh.queue == [s.sh.queue[0]] + s.sh.queue[1..];
    }
  }

  lemma {:induction false} DrainRun(s: State, steps: seq<Step>, ahead: set<DataId>, before: set<DataId>)
    requires CanRun(s, steps) && SwapsStayAhead(s, steps) && Draining(s, ahead, before) && !Refused(steps)
    ensures Draining(Run(s, steps), ahead, before)
    decreases |steps|
  {
    if steps != [] {
      match steps[0] {
        case Work(work) => DrainWork(s, work, ahead, before);
        case Lua(call) =>
          if call.StartPut? || call.Disconnect? {
            DrainAppend(s, call, ahead, before);
          } else if call.WaitSwap? {
            DrainSwap(s, call, ahead, before);
          } else if call.AbortOne? {
            DrainAbortOne(s, ahead, before);
          } else {
            DrainQuiet(s, call, ahead, before);
          }
      }
      DrainRun(Next(s, steps[0]), steps[1..], ahead, before);
    }
  }

  /** Before the connection stands nothing has been taken, and after a refused one nothing will be. */
  predicate Untaken(s: State, refused: bool) {
    && (s.worker == NotStarted || s.worker == Connecting ==> s.h.taken == [])
    && (refused ==> !Alive(s.worker) && s.h.taken == [])
  }

  lemma UntakenStep(s: State, step: Step, refused: bool)
    requires Enabled(s, step) && Untaken(s, refused)
    ensures Untaken(Next(s, step), refused || Refused([step]))
  {
    match step
    case Lua(call) => UntakenCall(s, call, refused);
    case Work(work) => assert CanWork(s, work);
  }

  lemma UntakenCall(s: State, call: LuaStep, refused: bool)
    requires CanCall(s, call) && Untaken(s, refused)
    ensures Untaken(Called(s, call), refused)
  {
    assert Called(s, call).h.taken == s.h.taken;
  }

  lemma {:induction false} UntakenRun(s: State, steps: seq<Step>, refused: bool)
    requires CanRun(s, steps) && Untaken(s, refused)
    ensures Untaken(Run(s, steps), refused || Refused(steps))
    decreases |steps|
  {
    if steps != [] {
      UntakenStep(s, steps[0], refused);
      UntakenRun(Next(s, steps[0]), steps[1..], refused || Refused([steps[0]]));
      assert steps == [steps[0]] + steps[1..];
    }
  }

  /** What has become of an entry once the worker has taken a pill: one that was ahead has been executed exactly once
      and is finished, or was aborted and never executed; of the others nothing has been taken since. */
  predicate Drained(s: State, s': State, d: DataId) {
    && (d in BeforePill(s.sh.queue) ==>
          if d in s'.h.aborted then d !in s'.h.taken
          else Count(s'.h.taken, d) == 1 && d in s'.h.outcome && Finished(s'.sh, d))
    && (d !in BeforePill(s.sh.queue) && d !in s.h.taken ==> d !in s'.h.taken && d !in s'.h.outcome)
  }

  /** Disconnecting drains: if a pill is queued, before `connect`, while connecting or while the worker serves, then by
      the time the worker is past its loop what was ahead of the pill is drained; and if the connection failed instead,
      nothing has been executed. */
  lemma DisconnectDrains(steps: seq<Step>, more: seq<Step>, d: DataId)
    requires CanRun(INIT, steps)
    requires var s := Run(INIT, steps);
      Alive(s.worker) && Pill in s.sh.queue && CanRun(s, more) && SwapsStayAhead(s, more)
    requires !Alive(Run(Run(INIT, steps), more).worker)
    ensures var s := Run(INIT, steps); var s' := Run(s, more);
      if Refused(more) then d !in s'.h.taken && d !in s'.h.outcome else Drained(s, s', d)
  {
    InitHolds();
    RunKeeps(INIT, steps);
    var s := Run(INIT, steps);
    RunKeeps(s, more);
    var s' := Run(s, more);
    assert Facts(s', d);
    CountIn(s'.h.taken, d);
    if Refused(more) {
      UntakenRun(INIT, steps, false);
      assert !Refused(steps);
      UntakenRun(s, more, false);
    } else {
      DrainRun(s, more, set x | x in BeforePill(s.sh.queue), set x | x in s.h.taken);
      CountIn(s'.h.aborted, d);
    }
  }
}
