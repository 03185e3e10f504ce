/**
 What every step of the life cycle keeps: where each query data object is, how often, and what that says about its
 `finished` flag and about the waiter slot.
 */
module Conservation {
  import opened QueryTypes
  import opened BlockingQueues
  import opened Lifecycle

  /** How often `d` is in the hands of one loop: still to come, or in its callback. */
  function InFrame(f: Frame, d: DataId): nat {
    Count(f.rest, d) + if f.current == Some(d) then 1 else 0
  }

  function OnStack(stack: seq<Frame>, d: DataId): nat {
    if stack == [] then 0 else OnStack(stack[..|stack| - 1], d) + InFrame(stack[|stack| - 1], d)
  }

  function InOp(op: MainOp, d: DataId): nat {
    if op.Aborting? then Count(op.removed, d) else 0
  }

  /** How often `d` is queued. */
  function Queued(s: State, d: DataId): nat {
    Count(s.sh.queue, Item(d))
  }

  /** The running slot: taken by the worker and not yet put into `finishedQueries`. */
  function Slotted(w: Worker, d: DataId): nat {
    if w == Taken(d) || w == Executing(d) || w == Executed(d) then 1 else 0
  }

  /** How often `d` is on its way to, in, or past the Lua thread's hands: published, looped over, delivered. */
  function Out(s: State, d: DataId): nat {
    Count(s.sh.finishedQueries, d) + OnStack(s.stack, d) + InOp(s.op, d) + Count(s.h.done, d)
  }

  function One(ds: set<DataId>, d: DataId): nat {
    if d in ds then 1 else 0
  }

  /** The worker holds `d` between taking it and marking it finished. */
  predicate Held(w: Worker, d: DataId) {
    w == Taken(d) || w == Executing(d) || w == Executed(d) || w == Published(d)
  }

  // ---------------------------------------------------------------------------------------------------------
  // The invariant, for one data object
  // ---------------------------------------------------------------------------------------------------------

  /** Every place counted once: a started data object is in exactly one place, plus one more for every failed
      wait on it. */
  predicate Conserved(s: State, d: DataId) {
    Queued(s, d) + Slotted(s.worker, d) + Out(s, d) == One(s.h.started, d) + Count(s.h.fails, d)
  }

  /** A started data object is queued, or was taken by the worker, or was aborted: exactly one of them, once. */
  predicate InputSide(s: State, d: DataId) {
    Queued(s, d) + Count(s.h.taken, d) + Count(s.h.aborted, d) == One(s.h.started, d)
  }

  /** Published, unless the worker is just about to say so, means finished; and finished means published. */
  predicate FinishedIsOut(s: State, d: DataId) {
    && (Out(s, d) > 0 ==> Finished(s.sh, d) || s.worker == Published(d))
    && (Finished(s.sh, d) ==> Out(s, d) > 0)
  }

  /** What the worker took it finishes, and a result is recorded for exactly what it executed. */
  predicate TakenIsFinished(s: State, d: DataId) {
    && (Count(s.h.taken, d) > 0 ==> Finished(s.sh, d) || Held(s.worker, d))
    && (Held(s.worker, d) ==> Count(s.h.taken, d) > 0)
    && (d in s.h.outcome <==> Count(s.h.taken, d) > 0 && s.worker != Taken(d) && s.worker != Executing(d))
  }

  /** The waiter slot holds the data the Lua thread is blocked on, as long as it is not finished. */
  predicate WaiterSlot(s: State, d: DataId) {
    && (s.sh.waiting == Some(d) ==> s.op == Blocked(d) && !Finished(s.sh, d))
    && (s.op == Blocked(d) && !Finished(s.sh, d) ==> s.sh.waiting == Some(d))
  }

  /** A data object that was not made occurs nowhere. */
  predicate Unmade(s: State, d: DataId) {
    d !in s.sh.info ==> d !in s.h.started && Count(s.h.fails, d) == 0
  }

  predicate Facts(s: State, d: DataId) {
    && Conserved(s, d) && InputSide(s, d) && FinishedIsOut(s, d) && TakenIsFinished(s, d) && WaiterSlot(s, d)
    && Unmade(s, d)
  }

  /** `wait` is possible from `connect` until the worker has failed the waiting query at its end. */
  predicate CanWaitRight(s: State) {
    && (s.sh.canWait <==> s.worker != NotStarted && s.worker != Ended)
    && (s.sh.waiting.Some? ==> s.sh.canWait)
  }

  /** Only made data objects are outstanding. */
  ghost predicate Listed(m: map<QueryId, seq<DataId>>, info: map<DataId, Data>) {
    forall q: QueryId, d: DataId :: d in Get(m, q) ==> d in info
  }

  ghost predicate OpKnown(s: State) {
    match s.op
    case Starting(d) => d in s.h.started
    case WaitReady(d) => d in s.sh.info
    case Blocked(d) => d in s.sh.info
    case ThinkNow(waited) => waited.Some? ==> Finished(s.sh, waited.value)
    case _ => true
  }

  ghost predicate Inv(s: State) {
    && (forall d: DataId :: Facts(s, d))
    && CanWaitRight(s)
    && Listed(s.running, s.sh.info)
    && OpKnown(s)
  }

  // ---------------------------------------------------------------------------------------------------------
  // Counting lemmas
  // ---------------------------------------------------------------------------------------------------------

  lemma StackPush(stack: seq<Frame>, f: Frame, d: DataId)
    ensures OnStack(stack + [f], d) == OnStack(stack, d) + InFrame(f, d)
  {
    assert (stack + [f])[..|stack|] == stack;
  }

  lemma {:induction false} QueueDataCounts(q: seq<Entry>, d: DataId)
    ensures Count(QueueData(q), d) == Count(q, Item(d))
  {
    if q != [] {
      QueueDataCounts(q[1..], d);
      CountConcat(if q[0].Item? then [q[0].data] else [], QueueData(q[1..]), d);
    }
  }

  // ---------------------------------------------------------------------------------------------------------
  // What a step writes into one record
  // ---------------------------------------------------------------------------------------------------------

  function FailedData(data: Data, reason: ErrorText): Data {
    data.(error := reason, result := Error, status := Complete, finished := true)
  }

  function AbortedData(data: Data): Data {
    data.(status := Aborted, finished := true)
  }

  predicate WritesRecords(call: LuaStep) {
    call.StartPut? || call.StartStatus? || call.WaitEnter? || call.AbortOne? || call.AbortAll? || call.BeginDeliver?
    || call.EndDeliver?
  }

  /** The record of `d` after a call other than a start, from the record before. */
  function RecordAfterCall(s: State, call: LuaStep, d: DataId, data: Data): Data
    requires CanCall(s, call)
  {
    match call
    case StartStatus => if s.op.data == d then data.(status := Waiting) else data
    case WaitEnter => if s.op.data == d && !s.sh.canWait then FailedData(data, WaitImpossible) else data
    case AbortOne => if s.op.todo[0] == d && Item(d) in s.sh.queue then AbortedData(data) else data
    case AbortAll => if d in QueueData(s.sh.queue) then AbortedData(data) else data
    case BeginDeliver(_) => if Top(s).rest[0] == d then Delivering(data, Top(s).aborted) else data
    case EndDeliver => if Top(s).current == Some(d) then data.(refs := {}) else data
    case _ => data
  }

  function RecordAfterWork(s: State, work: WorkerStep, d: DataId, data: Data): Data
    requires CanWork(s, work)
  {
    match work
    case Begin => if s.worker.data == d then data.(status := Running) else data
    case Execute(result, error) =>
      if s.worker.data == d then
        data.(result := result, error := if result == Error then error else data.error, status := Complete)
      else data
    case Finish => if s.worker.data == d then data.(finished := true) else data
    case AbortWaiting => if s.sh.waiting == Some(d) then FailedData(data, WaitDisconnected) else data
    case _ => data
  }

  lemma QuietCallRecords(s: State, call: LuaStep)
    requires CanCall(s, call) && !WritesRecords(call)
    ensures Called(s, call).sh.info == s.sh.info
  {
  }

  lemma AbortOneRecord(s: State, d: DataId)
    requires CanCall(s, AbortOne) && d in s.sh.info
    ensures Called(s, AbortOne).sh.info.Keys == s.sh.info.Keys
    ensures Called(s, AbortOne).sh.info[d] == RecordAfterCall(s, AbortOne, d, s.sh.info[d])
  {
  }

  lemma AbortAllRecord(s: State, d: DataId)
    requires CanCall(s, AbortAll) && d in s.sh.info
    ensures Called(s, AbortAll).sh.info.Keys == s.sh.info.Keys
    ensures Called(s, AbortAll).sh.info[d] == RecordAfterCall(s, AbortAll, d, s.sh.info[d])
  {
  }

  lemma CallKeys(s: State, call: LuaStep)
    requires CanCall(s, call) && !call.StartPut?
    ensures Called(s, call).sh.info.Keys == s.sh.info.Keys
  {
    if !WritesRecords(call) {
      QuietCallRecords(s, call);
    }
  }

  lemma CallRecord(s: State, call: LuaStep, d: DataId)
    requires CanCall(s, call) && !call.StartPut? && d in s.sh.info
    ensures Called(s, call).sh.info.Keys == s.sh.info.Keys
    ensures Called(s, call).sh.info[d] == RecordAfterCall(s, call, d, s.sh.info[d])
  {
    CallKeys(s, call);
    match call
    case AbortOne => AbortOneRecord(s, d);
    case AbortAll => AbortAllRecord(s, d);
    case StartStatus =>
    case WaitEnter =>
    case BeginDeliver(_) =>
    case EndDeliver =>
    case _ => QuietCallRecords(s, call);
  }

  lemma WorkKeys(s: State, work: WorkerStep)
    requires CanWork(s, work)
    ensures Worked(s, work).sh.info.Keys == s.sh.info.Keys
  {
  }

  lemma WorkRecord(s: State, work: WorkerStep, d: DataId)
    requires CanWork(s, work) && d in s.sh.info
    ensures Worked(s, work).sh.info.Keys == s.sh.info.Keys
    ensures Worked(s, work).sh.info[d] == RecordAfterWork(s, work, d, s.sh.info[d])
  {
    WorkKeys(s, work);
  }

  // ---------------------------------------------------------------------------------------------------------
  // One step, seen from one data object
  // ---------------------------------------------------------------------------------------------------------

  lemma StartKeeps(s: State, call: LuaStep, d: DataId)
    requires call.StartPut? && CanCall(s, call) && Facts(s, d)
    ensures Facts(Called(s, call), d)
  {
    CountAppend(s.sh.queue, Item(call.data), Item(d));
  }

  lemma SwapKeeps(s: State, call: LuaStep, d: DataId)
    requires call.WaitSwap? && CanCall(s, call) && Facts(s, d)
    ensures Facts(Called(s, call), d)
  {
    var ds := Get(s.running, call.query);
    SwapToFrontPermutes(s.sh.queue, Item(ds[|ds| - 1]), Item(d));
  }

  lemma FailCounts(s: State, x: DataId, d: DataId)
    ensures Count(s.sh.finishedQueries + [x], d) == Count(s.sh.finishedQueries, d) + (if x == d then 1 else 0)
    ensures Count(s.h.fails + [x], d) == Count(s.h.fails, d) + (if x == d then 1 else 0)
  {
    CountAppend(s.sh.finishedQueries, x, d);
    CountAppend(s.h.fails, x, d);
  }

  lemma WaitEnterKeeps(s: State, d: DataId)
    requires s.op.WaitReady? && s.op.data in s.sh.info && Facts(s, d) && CanWaitRight(s)
    ensures Facts(Called(s, WaitEnter), d)
  {
    FailCounts(s, s.op.data, d);
  }

  lemma AbortMissKeeps(s: State, d: DataId)
    requires CanCall(s, AbortOne) && Item(s.op.todo[0]) !in s.sh.queue && Facts(s, d)
    ensures Facts(Called(s, AbortOne), d)
  {
    assert Called(s, AbortOne) == s.(op := Aborting(s.op.todo[1..], s.op.removed));
  }

  lemma RemovedKeeps(s: State, s': State, todo: seq<DataId>, removed: seq<DataId>, x: DataId, d: DataId)
    requires Facts(s, d) && Item(x) in s.sh.queue && s.op == Aborting([x] + todo, removed)
    requires s' == s.(sh := RemoveQueued(s.sh, x), op := Aborting(todo, removed + [x]),
                      h := s.h.(aborted := s.h.aborted + [x]))
    ensures Facts(s', d)
  {
    if x == d {
      CountIn(s.sh.queue, Item(d));
    }
    WithoutCounts(s.sh.queue, Item(x), Item(d));
    CountAppend(s.h.aborted, x, d);
    CountAppend(removed, x, d);
  }

  lemma AbortHitKeeps(s: State, d: DataId)
    requires CanCall(s, AbortOne) && Item(s.op.todo[0]) in s.sh.queue && Facts(s, d)
    ensures Facts(Called(s, AbortOne), d)
  {
    var s' := Called(s, AbortOne);
    assert s' == DoAbortOne(s, s.op.todo, s.op.removed);
    assert s.op.todo == [s.op.todo[0]] + s.op.todo[1..];
    RemovedKeeps(s, s', s.op.todo[1..], s.op.removed, s.op.todo[0], d);
  }

  lemma AbortOneKeeps(s: State, d: DataId)
    requires CanCall(s, AbortOne) && Facts(s, d)
    ensures Facts(Called(s, AbortOne), d)
  {
    if Item(s.op.todo[0]) in s.sh.queue {
      AbortHitKeeps(s, d);
    } else {
      AbortMissKeeps(s, d);
    }
  }

  lemma AbortDoneKeeps(s: State, d: DataId)
    requires CanCall(s, AbortDone) && Facts(s, d)
    ensures Facts(Called(s, AbortDone), d)
  {
    var f := Frame(None, s.op.removed, true, None);
    StackPush(s.stack, f, d);
    assert InFrame(f, d) == InOp(s.op, d);
    var s' := Called(s, AbortDone);
    assert s' == s.(stack := s.stack + [f], op := Free);
    assert Queued(s', d) == Queued(s, d) && Out(s', d) == Out(s, d);
  }

  lemma AbortAllCounts(s: State, d: DataId)
    requires CanCall(s, AbortAll)
    ensures var s' := Called(s, AbortAll);
      && Queued(s', d) == 0 && Out(s', d) == Out(s, d) + Queued(s, d)
      && Count(s'.h.aborted, d) == Count(s.h.aborted, d) + Queued(s, d)
      && s'.worker == s.worker && s'.op == s.op && s'.sh.waiting == s.sh.waiting
      && s'.h == s.h.(aborted := s'.h.aborted)
  {
    var ds := QueueData(s.sh.queue);
    var f := Frame(None, ds, true, None);
    QueueDataCounts(s.sh.queue, d);
    StackPush(s.stack, f, d);
    CountConcat(s.h.aborted, ds, d);
    var s' := Called(s, AbortAll);
    assert s'.sh == ClearQueue(s.sh) && s'.stack == s.stack + [f] && s'.h.aborted == s.h.aborted + ds;
    assert InFrame(f, d) == Count(ds, d);
  }

  lemma AbortAllKeeps(s: State, d: DataId)
    requires CanCall(s, AbortAll) && Facts(s, d)
    ensures Facts(Called(s, AbortAll), d)
  {
    AbortAllCounts(s, d);
    QueueDataCounts(s.sh.queue, d);
    CountIn(QueueData(s.sh.queue), d);
    CallKeys(s, AbortAll);
    if d in s.sh.info {
      AbortAllRecord(s, d);
    }
  }

  lemma DisconnectKeeps(s: State, call: LuaStep, d: DataId)
    requires call.Disconnect? && CanCall(s, call) && Facts(s, d)
    ensures Facts(Called(s, call), d)
  {
    CountAppend(s.sh.queue, Pill, Item(d));
  }

  lemma ThinkTakeKeeps(s: State, d: DataId)
    requires CanCall(s, ThinkTake) && Facts(s, d)
    ensures Facts(Called(s, ThinkTake), d)
  {
    StackPush(s.stack, Frame(None, s.sh.finishedQueries, false, s.op.waited), d);
  }

  lemma BeginDeliverKeeps(s: State, call: LuaStep, d: DataId)
    requires call.BeginDeliver? && CanCall(s, call) && Facts(s, d)
    ensures Facts(Called(s, call), d)
  {
    var f := Top(s);
    var g := f.(current := Some(f.rest[0]), rest := f.rest[1..]);
    StackPush(Below(s), g, d);
    assert InFrame(g, d) == InFrame(f, d);
    var s' := Called(s, call);
    assert s'.stack == Below(s) + [g] && s'.op == s.op && s'.worker == s.worker;
    assert s'.sh == s.sh.(info := s'.sh.info) && Finished(s'.sh, d) == Finished(s.sh, d);
    assert s'.h == s.h.(events := s'.h.events);
    assert Queued(s', d) == Queued(s, d) && Out(s', d) == Out(s, d);
  }

  /** A delivery that ends moves its data from a loop to the delivered ones. */
  lemma DeliveredKeeps(s: State, s': State, x: DataId, d: DataId)
    requires Facts(s, d) && HasTop(s) && Top(s).current == Some(x)
    requires s'.stack == Below(s) + [Top(s).(current := None)] && s'.op == s.op && s'.worker == s.worker
    requires s'.sh == s.sh.(info := s'.sh.info) && s'.sh.info.Keys == s.sh.info.Keys
    requires Finished(s'.sh, d) == Finished(s.sh, d)
    requires s'.h == s.h.(done := s.h.done + [x], gone := s'.h.gone, frees := s'.h.frees)
    ensures Facts(s', d)
  {
    StackPush(Below(s), Top(s).(current := None), d);
    CountAppend(s.h.done, x, d);
    assert Queued(s', d) == Queued(s, d) && Out(s', d) == Out(s, d);
  }

  lemma EndDeliverKeeps(s: State, d: DataId)
    requires CanCall(s, EndDeliver) && Facts(s, d)
    ensures Facts(Called(s, EndDeliver), d)
  {
    var s' := Called(s, EndDeliver);
    assert s' == DoEndDeliver(s);
    DeliveredKeeps(s, s', Top(s).current.value, d);
  }

  /** The remaining steps of the Lua thread move nothing. */
  lemma QuietKeeps(s: State, call: LuaStep, d: DataId)
    requires CanCall(s, call) && Facts(s, d)
    requires call.Connect? || call.StartStatus? || call.WaitWake? || call.AbortBegin? || call.JoinDone? || call.Think?
             || call.FrameEnd?
    ensures Facts(Called(s, call), d)
  {
  }

  lemma TakeKeeps(s: State, d: DataId)
    requires CanWork(s, Take) && Facts(s, d)
    ensures Facts(Worked(s, Take), d)
  {
    var e := s.sh.queue[0];
    if e.Item? {
      CountAppend(s.h.taken, e.data, d);
    }
  }

  lemma BeginKeeps(s: State, d: DataId)
    requires CanWork(s, Begin) && Facts(s, d)
    ensures Facts(Worked(s, Begin), d)
  {
  }

  lemma ExecuteKeeps(s: State, work: WorkerStep, d: DataId)
    requires work.Execute? && CanWork(s, work) && Facts(s, d)
    ensures Facts(Worked(s, work), d)
  {
  }

  lemma ConnectingKeeps(s: State, work: WorkerStep, d: DataId)
    requires work.ConnectOk? || work.ConnectFail? || work.ConnectInitFail?
    requires CanWork(s, work) && Facts(s, d)
    ensures Facts(Worked(s, work), d)
  {
  }

  lemma PublishKeeps(s: State, d: DataId)
    requires CanWork(s, Publish) && Facts(s, d)
    ensures Facts(Worked(s, Publish), d)
  {
    CountAppend(s.sh.finishedQueries, s.worker.data, d);
  }

  lemma FinishKeeps(s: State, d: DataId)
    requires CanWork(s, Finish) && Facts(s, d) && s.worker.data in s.sh.info
    ensures Facts(Worked(s, Finish), d)
  {
  }

  lemma AbortWaitingKeeps(s: State, d: DataId)
    requires CanWork(s, AbortWaiting) && Facts(s, d)
    requires s.sh.waiting.Some? ==> s.sh.waiting.value in s.sh.info
    ensures Facts(Worked(s, AbortWaiting), d)
  {
    if s.sh.waiting.Some? {
      FailCounts(s, s.sh.waiting.value, d);
    }
  }

  // ---------------------------------------------------------------------------------------------------------
  // Every step, every data object
  // ---------------------------------------------------------------------------------------------------------

  lemma CallKeeps(s: State, call: LuaStep, d: DataId)
    requires Inv(s) && CanCall(s, call)
    ensures Facts(Called(s, call), d)
  {
    match call
    case StartPut(_, _, _, _, _, _) => StartKeeps(s, call, d);
    case WaitSwap(_, _) => SwapKeeps(s, call, d);
    case WaitEnter => WaitEnterKeeps(s, d);
    case AbortOne => AbortOneKeeps(s, d);
    case AbortDone => AbortDoneKeeps(s, d);
    case AbortAll => AbortAllKeeps(s, d);
    case Disconnect(_) => DisconnectKeeps(s, call, d);
    case ThinkTake => ThinkTakeKeeps(s, d);
    case BeginDeliver(_) => BeginDeliverKeeps(s, call, d);
    case EndDeliver => EndDeliverKeeps(s, d);
    case _ => QuietKeeps(s, call, d);
  }

  lemma WorkKeeps(s: State, work: WorkerStep, d: DataId)
    requires Inv(s) && CanWork(s, work)
    ensures Facts(Worked(s, work), d)
  {
    match work
    case Take => TakeKeeps(s, d);
    case Begin => BeginKeeps(s, d);
    case Execute(_, _) => ExecuteKeeps(s, work, d);
    case Publish => PublishKeeps(s, d);
    case Finish =>
      assert Facts(s, s.worker.data);
      FinishKeeps(s, d);
    case AbortWaiting =>
      if s.sh.waiting.Some? {
        assert Facts(s, s.sh.waiting.value);
      }
      AbortWaitingKeeps(s, d);
    case _ => ConnectingKeeps(s, work, d);
  }

  lemma {:induction false} PushAllListed(m: map<QueryId, seq<DataId>>, members: seq<Member>, info: map<DataId, Data>)
    requires Listed(m, info) && MemberData(members) <= info.Keys
    ensures Listed(PushAll(m, members), info)
    decreases |members|
  {
    if members != [] {
      var m' := Push(m, members[0].owner, members[0].data);
      assert members[0] in members;
      assert members[0].data in info;
      forall q: QueryId, d: DataId | d in Get(m', q) ensures d in info {
        if d != members[0].data {
          assert d in Get(m, q);
        }
      }
      assert MemberData(members[1..]) <= MemberData(members);
      PushAllListed(m', members[1..], info);
    }
  }

  lemma {:induction false} WithoutIn<T>(s: seq<T>, x: T, y: T)
    ensures y in Without(s, x) <==> y in s && y != x
  {
    if s != [] {
      WithoutIn(s[1..], x, y);
    }
  }

  lemma DropListed(m: map<QueryId, seq<DataId>>, q: QueryId, d: DataId, info: map<DataId, Data>)
    requires Listed(m, info)
    ensures Listed(Drop(m, q, d), info)
  {
    forall p: QueryId, x: DataId | x in Get(Drop(m, q, d), p) ensures x in info {
      WithoutIn(Get(m, p), d, x);
      assert x in Get(m, p);
    }
  }

  lemma {:induction false} DropAllListed(m: map<QueryId, seq<DataId>>, members: seq<Member>, info: map<DataId, Data>)
    requires Listed(m, info)
    ensures Listed(DropAll(m, members), info)
    decreases |members|
  {
    if members != [] {
      DropListed(m, members[0].owner, members[0].data, info);
      DropAllListed(Drop(m, members[0].owner, members[0].data), members[1..], info);
    }
  }

  /** `after` has every data object of `before`, and no finished mark was taken back. */
  ghost predicate Grows(before: Shared, after: Shared) {
    && before.info.Keys <= after.info.Keys
    && forall d :: Finished(before, d) ==> Finished(after, d)
  }

  lemma CallGrows(s: State, call: LuaStep)
    requires CanCall(s, call)
    ensures Grows(s.sh, Called(s, call).sh)
  {
    var s' := Called(s, call);
    if !call.StartPut? {
      CallKeys(s, call);
      forall d | Finished(s.sh, d) ensures Finished(s'.sh, d) {
        CallRecord(s, call, d);
      }
    }
  }

  lemma WorkGrows(s: State, work: WorkerStep)
    requires CanWork(s, work)
    ensures Grows(s.sh, Worked(s, work).sh)
  {
    WorkKeys(s, work);
    forall d | Finished(s.sh, d) ensures Finished(Worked(s, work).sh, d) {
      WorkRecord(s, work, d);
    }
  }

  /** Steps never unmake a data object or take its finished mark back. */
  lemma InfoGrows(s: State, step: Step)
    requires Enabled(s, step)
    ensures Grows(s.sh, Next(s, step).sh)
  {
    match step
    case Lua(call) => CallGrows(s, call);
    case Work(work) => WorkGrows(s, work);
  }

  lemma ListedKept(s: State, step: Step)
    requires Inv(s) && Enabled(s, step)
    ensures Listed(Next(s, step).running, Next(s, step).sh.info)
  {
    InfoGrows(s, step);
    var s' := Next(s, step);
    if step.Lua? && step.call.StartPut? {
      var call := step.call;
      var m := PushAll(s.running, call.members);
      PushAllListed(s.running, call.members, s'.sh.info);
      forall q: QueryId, d: DataId | d in Get(s'.running, q) ensures d in s'.sh.info {
        if d != call.data {
          assert d in Get(m, q);
        }
      }
    } else if step.Lua? && step.call.EndDeliver? {
      var d := Top(s).current.value;
      var data := s.sh.info[d];
      DropListed(s.running, data.owner, d, s'.sh.info);
      DropAllListed(Drop(s.running, data.owner, d), data.members, s'.sh.info);
    } else {
      assert s'.running == s.running;
    }
  }

  lemma OpKnownKept(s: State, step: Step)
    requires Inv(s) && Enabled(s, step)
    ensures OpKnown(Next(s, step))
  {
    InfoGrows(s, step);
    if step.Lua? && step.call.WaitSwap? {
      var ds := Get(s.running, step.call.query);
      assert ds[|ds| - 1] in ds;
    }
  }

  lemma FactsKept(s: State, step: Step, d: DataId)
    requires Inv(s) && Enabled(s, step)
    ensures Facts(Next(s, step), d)
  {
    match step
    case Lua(call) => CallKeeps(s, call, d);
    case Work(work) => WorkKeeps(s, work, d);
  }

  lemma CallCanWait(s: State, call: LuaStep)
    requires CanWaitRight(s) && CanCall(s, call)
    ensures CanWaitRight(Called(s, call))
  {
  }

  lemma WorkCanWait(s: State, work: WorkerStep)
    requires CanWaitRight(s) && CanWork(s, work)
    ensures CanWaitRight(Worked(s, work))
  {
  }

  lemma CanWaitKept(s: State, step: Step)
    requires CanWaitRight(s) && Enabled(s, step)
    ensures CanWaitRight(Next(s, step))
  {
    match step
    case Lua(call) => CallCanWait(s, call);
    case Work(work) => WorkCanWait(s, work);
  }

  /** Every step keeps the invariant. */
  lemma StepKeeps(s: State, step: Step)
    requires Inv(s) && Enabled(s, step)
    ensures Inv(Next(s, step))
  {
    forall d: DataId ensures Facts(Next(s, step), d) {
      FactsKept(s, step, d);
    }
    ListedKept(s, step);
    OpKnownKept(s, step);
    CanWaitKept(s, step);
  }

  lemma InitHolds()
    ensures Inv(INIT)
  {
  }

  /** The invariant holds after every run. */
  lemma {:induction false} RunKeeps(s: State, steps: seq<Step>)
    requires Inv(s) && CanRun(s, steps)
    ensures Inv(Run(s, steps))
    decreases |steps|
  {
    if steps != [] {
      StepKeeps(s, steps[0]);
      RunKeeps(Next(s, steps[0]), steps[1..]);
    }
  }

  // ---------------------------------------------------------------------------------------------------------
  // Main results
  // ---------------------------------------------------------------------------------------------------------

  /** After every run each started data object is in exactly one place, plus one for every failed wait on it: queued,
      in the running slot, published, in a loop of the Lua thread, or delivered. Only a failed wait makes copies. */
  lemma PlacesOverRuns(steps: seq<Step>, d: DataId)
    requires CanRun(INIT, steps)
    ensures var s := Run(INIT, steps);
      && Queued(s, d) + Slotted(s.worker, d) + Count(s.sh.finishedQueries, d) + OnStack(s.stack, d) + InOp(s.op, d)
         + Count(s.h.done, d) == One(s.h.started, d) + Count(s.h.fails, d)
      && Queued(s, d) + Slotted(s.worker, d) <= One(s.h.started, d)
      && Count(s.h.taken, d) + Count(s.h.aborted, d) <= One(s.h.started, d)
  {
    InitHolds();
    RunKeeps(INIT, steps);
    assert Facts(Run(INIT, steps), d);
  }

  /** After every run a finished data object has already been published: it is in `finishedQueries`, or the Lua thread
      has it, or it was delivered. */
  lemma FinishedIsPublished(steps: seq<Step>, d: DataId)
    requires CanRun(INIT, steps) && Finished(Run(INIT, steps).sh, d)
    ensures var s := Run(INIT, steps);
      d in s.sh.finishedQueries || OnStack(s.stack, d) > 0 || InOp(s.op, d) > 0 || d in s.h.done
  {
    InitHolds();
    RunKeeps(INIT, steps);
    var s := Run(INIT, steps);
    assert Facts(s, d);
    CountIn(s.sh.finishedQueries, d);
    CountIn(s.h.done, d);
  }

  /** After every run the waiter slot names an unfinished data object the Lua thread is blocked on. */
  lemma WaiterSlotOverRuns(steps: seq<Step>)
    requires CanRun(INIT, steps) && Run(INIT, steps).sh.waiting.Some?
    ensures var s := Run(INIT, steps); var d := s.sh.waiting.value;
      s.op == Blocked(d) && d in s.sh.info && !s.sh.info[d].finished && s.sh.canWait
  {
    InitHolds();
    RunKeeps(INIT, steps);
    var s := Run(INIT, steps);
    assert Facts(s, s.sh.waiting.value);
  }

  /** Data in the hands of the Lua thread or delivered, no wait on which has failed, is neither queued nor in the
      worker's hands: nothing writes to it any more. */
  lemma TakenBackIsNotWritten(steps: seq<Step>, d: DataId)
    requires CanRun(INIT, steps) && d in Run(INIT, steps).h.started && d !in Run(INIT, steps).h.fails
    requires OnStack(Run(INIT, steps).stack, d) > 0 || d in Run(INIT, steps).h.done
    ensures var s := Run(INIT, steps);
      && Item(d) !in s.sh.queue && s.worker != Taken(d) && s.worker != Executing(d) && s.worker != Executed(d)
      && d !in s.sh.finishedQueries
  {
    InitHolds();
    RunKeeps(INIT, steps);
    var s := Run(INIT, steps);
    assert Facts(s, d);
    CountIn(s.h.fails, d);
    CountIn(s.h.done, d);
    CountIn(s.sh.queue, Item(d));
    CountIn(s.sh.finishedQueries, d);
  }
}
