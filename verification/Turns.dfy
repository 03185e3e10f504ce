/**
 In which order the database thread does what it does, which data its steps are about, and which data its query's first
 start made.
 */
module Turns {
  import opened QueryTypes
  import opened BlockingQueues
  import opened Lifecycle
  import opened Conservation

  // ---------------------------------------------------------------------------------------------------------
  // The database thread
  // ---------------------------------------------------------------------------------------------------------

  /** A step of the database thread, and the entry in front of the queue. */
  datatype Did = Did(work: WorkerStep, front: Option<Entry>)

  function DidAt(s: State, work: WorkerStep): Did {
    Did(work, if s.sh.queue == [] then None else Some(s.sh.queue[0]))
  }

  /** What the database thread did last in a run that continues one whose last was `last`. */
  function LastDid(s: State, steps: seq<Step>, last: Option<Did>): Option<Did>
    decreases |steps|
  {
    if steps == [] then last
    else LastDid(Next(s, steps[0]), steps[1..], if steps[0].Work? then Some(DidAt(s, steps[0].work)) else last)
  }

  predicate TookItem(last: Option<Did>) {
    last.Some? && last.value.work == Take && last.value.front.Some? && last.value.front.value.Item?
  }

  predicate TookPill(last: Option<Did>) {
    last.Some? && last.value.work == Take && last.value.front == Some(Pill)
  }

  predicate After(last: Option<Did>, work: WorkerStep) {
    last.Some? && last.value.work == work
  }

  /** What comes after what: the attempt to connect, then turns of take, begin, execute, publish, finish, in this order,
      and after a pill or a failed attempt the end of the wait. `started` says whether `connect` was called. */
  predicate Follows(started: bool, last: Option<Did>, work: WorkerStep) {
    match work
    case ConnectOk => started && last.None?
    case ConnectFail => started && last.None?
    case ConnectInitFail => started && last.None?
    case Take => After(last, ConnectOk) || After(last, Finish)
    case Begin => TookItem(last)
    case Execute(result, _) => After(last, Begin) && result != NoResult
    case Publish => last.Some? && last.value.work.Execute?
    case Finish => After(last, Publish)
    case AbortWaiting => TookPill(last) || After(last, ConnectFail)
  }

  /** Where a step leaves the thread, with the data it took last. */
  predicate Reaches(last: Option<Did>, worker: Worker, taken: seq<DataId>) {
    if last.None? then worker == NotStarted || worker == Connecting
    else
      var d := if taken == [] then 0 else taken[|taken| - 1];
      match last.value.work
      case ConnectOk => worker == Idle
      case ConnectFail => worker == Closing
      case ConnectInitFail => worker == InitFailed
      case Take =>
        if TookPill(last) then worker == Closing
        else TookItem(last) && taken != [] && d == last.value.front.value.data && worker == Taken(d)
      case Begin => taken != [] && worker == Executing(d)
      case Execute(_, _) => taken != [] && worker == Executed(d)
      case Publish => taken != [] && worker == Published(d)
      case Finish => worker == Idle
      case AbortWaiting => worker == Ended
  }

  lemma ReachesCall(s: State, call: LuaStep, last: Option<Did>)
    requires CanCall(s, call) && Reaches(last, s.worker, s.h.taken)
    ensures var t := Called(s, call); Reaches(last, t.worker, t.h.taken)
    ensures Called(s, call).worker == if call == Connect then Connecting else s.worker
  {
    var t := Called(s, call);
    assert t.h.taken == s.h.taken;
    assert t.worker == if call == Connect then Connecting else s.worker;
  }

  lemma ReachesWork(s: State, work: WorkerStep, last: Option<Did>)
    requires CanWork(s, work) && Reaches(last, s.worker, s.h.taken)
    ensures var t := Worked(s, work); Reaches(Some(DidAt(s, work)), t.worker, t.h.taken)
    ensures s.worker != NotStarted && Worked(s, work).worker != NotStarted
  {
  }

  lemma {:induction false} ReachesRun(s: State, steps: seq<Step>, last: Option<Did>)
    requires CanRun(s, steps) && Reaches(last, s.worker, s.h.taken)
    ensures var t := Run(s, steps); Reaches(LastDid(s, steps, last), t.worker, t.h.taken)
    ensures Run(s, steps).worker == NotStarted <==> s.worker == NotStarted && Lua(Connect) !in steps
    decreases |steps|
  {
    if steps != [] {
      match steps[0] {
        case Lua(call) =>
          ReachesCall(s, call, last);
          ReachesRun(Next(s, steps[0]), steps[1..], last);
        case Work(work) =>
          ReachesWork(s, work, last);
          ReachesRun(Next(s, steps[0]), steps[1..], Some(DidAt(s, work)));
      }
      assert steps == [steps[0]] + steps[1..];
    }
  }

  /** In every reachable state the database thread can take exactly the steps that follow its last one, a take only when
      something is queued: its program, stated by its steps alone. Each turn is about the data taken last. */
  lemma WorkerOrderIff(steps: seq<Step>, work: WorkerStep)
    requires CanRun(INIT, steps)
    ensures var s := Run(INIT, steps); var last := LastDid(INIT, steps, None);
      && (CanWork(s, work)
          <==> Follows(Lua(Connect) in steps, last, work) && (work == Take ==> s.sh.queue != []))
      && (TookItem(last) || After(last, Begin) || After(last, Publish) || (last.Some? && last.value.work.Execute?) ==>
            s.h.taken != [] && Held(s.worker, s.h.taken[|s.h.taken| - 1]))
  {
    ReachesRun(INIT, steps, None);
  }

  /** What a take does: the entry in front leaves the queue, a pill ends the loop, and data is taken. */
  lemma TakeTakesFront(s: State)
    requires CanWork(s, Take)
    ensures var t := Worked(s, Take); var e := s.sh.queue[0];
      && [e] + t.sh.queue == s.sh.queue && t.sh == s.sh.(queue := t.sh.queue)
      && (if e.Pill? then t.worker == Closing && t.h == s.h
          else t.worker == Taken(e.data) && t.h == s.h.(taken := s.h.taken + [e.data]))
  {
  }

  // ---------------------------------------------------------------------------------------------------------
  // First data
  // ---------------------------------------------------------------------------------------------------------

  /** A query counts as started once a start of it has returned. */
  ghost predicate BegunRight(s: State) {
    && (forall d :: d in s.h.started ==> d in s.sh.info && (s.op != Starting(d) ==> s.sh.info[d].owner in s.begun))
    && (forall q :: q in s.begun ==> exists d :: d in s.h.started && d in s.sh.info && s.sh.info[d].owner == q)
  }

  /** What no step changes in a record. */
  predicate Same(s: State, t: State, d: DataId) {
    d in s.sh.info ==> d in t.sh.info && t.sh.info[d].owner == s.sh.info[d].owner
                       && t.sh.info[d].first == s.sh.info[d].first
  }

  lemma CallSame(s: State, call: LuaStep, d: DataId)
    requires CanCall(s, call)
    ensures Same(s, Called(s, call), d)
  {
    if d in s.sh.info && !call.StartPut? {
      CallRecord(s, call, d);
    }
  }

  lemma StepSame(s: State, step: Step, d: DataId)
    requires Enabled(s, step)
    ensures Same(s, Next(s, step), d)
  {
    match step
    case Lua(call) => CallSame(s, call, d);
    case Work(work) => if d in s.sh.info { WorkRecord(s, work, d); }
  }

  lemma BegunKept(s: State, t: State)
    requires BegunRight(s) && (forall d :: Same(s, t, d)) && t.h.started == s.h.started && t.begun == s.begun
    requires forall d :: d in s.h.started && s.op == Starting(d) ==> t.op == Starting(d)
    ensures BegunRight(t)
  {
    forall q | q in t.begun ensures exists d :: d in t.h.started && d in t.sh.info && t.sh.info[d].owner == q {
      var d :| d in s.h.started && d in s.sh.info && s.sh.info[d].owner == q;
      assert Same(s, t, d);
    }
    forall d | d in t.h.started ensures d in t.sh.info && (t.op != Starting(d) ==> t.sh.info[d].owner in t.begun) {
      assert Same(s, t, d);
    }
  }

  lemma StartBegun(s: State, call: LuaStep)
    requires call.StartPut? && CanCall(s, call) && BegunRight(s)
    ensures BegunRight(Called(s, call))
  {
    var t := Called(s, call);
    forall d | d in t.h.started ensures d in t.sh.info && (t.op != Starting(d) ==> t.sh.info[d].owner in t.begun) {
      CallSame(s, call, d);
    }
    forall q | q in t.begun ensures exists d :: d in t.h.started && d in t.sh.info && t.sh.info[d].owner == q {
      var d :| d in s.h.started && d in s.sh.info && s.sh.info[d].owner == q;
      CallSame(s, call, d);
    }
  }

  lemma MarkBegun(s: State)
    requires CanCall(s, StartStatus) && BegunRight(s) && s.op.data in s.h.started
    ensures BegunRight(Called(s, StartStatus))
  {
    var t := Called(s, StartStatus);
    assert t.sh.info[s.op.data].owner == s.sh.info[s.op.data].owner;
    forall q | q in t.begun ensures exists d :: d in t.h.started && d in t.sh.info && t.sh.info[d].owner == q {
      if q in s.begun {
        var d :| d in s.h.started && d in s.sh.info && s.sh.info[d].owner == q;
        CallSame(s, StartStatus, d);
      }
    }
  }

  lemma OtherBegun(s: State, call: LuaStep)
    requires !call.StartPut? && !call.StartStatus? && CanCall(s, call)
    ensures var t := Called(s, call); t.h.started == s.h.started && t.begun == s.begun && !s.op.Starting?
  {
  }

  lemma BegunCall(s: State, call: LuaStep)
    requires CanCall(s, call) && BegunRight(s) && (s.op.Starting? ==> s.op.data in s.h.started)
    ensures BegunRight(Called(s, call))
  {
    if call.StartPut? {
      StartBegun(s, call);
    } else if call.StartStatus? {
      MarkBegun(s);
    } else {
      forall d ensures Same(s, Called(s, call), d) {
        CallSame(s, call, d);
      }
      OtherBegun(s, call);
      BegunKept(s, Called(s, call));
    }
  }

  lemma WorkBegun(s: State, work: WorkerStep)
    requires CanWork(s, work)
    ensures var t := Worked(s, work); t.h.started == s.h.started && t.begun == s.begun && t.op == s.op
  {
  }

  lemma BegunStep(s: State, step: Step)
    requires Enabled(s, step) && BegunRight(s) && (s.op.Starting? ==> s.op.data in s.h.started)
    ensures BegunRight(Next(s, step))
  {
    match step
    case Lua(call) => BegunCall(s, call);
    case Work(work) =>
      forall d ensures Same(s, Worked(s, work), d) {
        StepSame(s, step, d);
      }
      WorkBegun(s, work);
      BegunKept(s, Worked(s, work));
  }

  lemma {:induction false} BegunRun(s: State, steps: seq<Step>)
    requires Inv(s) && CanRun(s, steps) && BegunRight(s)
    ensures BegunRight(Run(s, steps))
    decreases |steps|
  {
    if steps != [] {
      BegunStep(s, steps[0]);
      StepKeeps(s, steps[0]);
      BegunRun(Next(s, steps[0]), steps[1..]);
    }
  }

  lemma {:induction false} FirstStays(s: State, more: seq<Step>, d: DataId)
    requires CanRun(s, more) && d in s.sh.info
    ensures Same(s, Run(s, more), d)
    decreases |more|
  {
    if more != [] {
      StepSame(s, more[0], d);
      FirstStays(Next(s, more[0]), more[1..], d);
    }
  }

  /** The callbacks in the fields of the script's table are open to data, a transaction's members included, if and
      only if nothing of its query had been started before; that is settled when the data is made, and no later step
      changes it. The record says what the script asked for. */
  lemma FirstIff(steps: seq<Step>, call: LuaStep, more: seq<Step>)
    requires CanRun(INIT, steps) && call.StartPut? && CanCall(Run(INIT, steps), call)
    requires CanRun(Called(Run(INIT, steps), call), more)
    ensures var s := Run(INIT, steps); var t := Called(s, call); var u := Run(t, more); var d := call.data;
      && t.sh.info[d] == Data(call.owner, call.transaction, call.members, t.sh.info[d].first, call.built, NoResult,
                              NoError, false, call.refs)
      && d in u.sh.info
      && (u.sh.info[d].first <==>
          forall x :: x in s.h.started && x in s.sh.info ==> s.sh.info[x].owner != call.owner)
      && (forall m :: m in MemberData(call.members) ==>
            m in u.sh.info
            && (u.sh.info[m].first <==>
                forall x :: x in s.h.started && x in s.sh.info ==> s.sh.info[x].owner != OwnerOf(call.members, m)))
  {
    var s := Run(INIT, steps);
    var t := Called(s, call);
    InitHolds();
    BegunRun(INIT, steps);
    FirstStays(t, more, call.data);
    forall m | m in MemberData(call.members)
      ensures m in t.sh.info && (t.sh.info[m].first <==> OwnerOf(call.members, m) !in s.begun)
      ensures Same(t, Run(t, more), m)
    {
      NotAMember(call.members, call.data);
      FirstStays(t, more, m);
    }
  }

  lemma {:induction false} NotAMember(members: seq<Member>, d: DataId)
    requires forall i :: 0 <= i < |members| ==> members[i].data != d
    ensures d !in MemberData(members)
  {
    if members != [] {
      NotAMember(members[1..], d);
    }
  }
}
