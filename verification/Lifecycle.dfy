/**
 The two-thread life of a query as a state machine. A step is one stretch of code that no other thread can
 observe half done: a critical section, a write to one atomic field, or work on data only one thread touches.
 The Lua thread is the one that calls into the module; the worker is the database thread.
 */
module Lifecycle {
  import opened QueryTypes
  import opened BlockingQueues

  type QueryId = nat
  type DataId = nat

  /** A queue entry: the poison pill (a pair of null pointers), or a query with its data. */
  datatype Entry = Pill | Item(data: DataId)

  /** The five Lua references a query data object may hold. */
  datatype Slot = TableRef | SuccessRef | ErrorRef | AbortRef | OnDataRef

  /** The error text of a query data object: none, one of the two fixed texts of a failed wait, or the server's. */
  datatype ErrorText = NoError | WaitImpossible | WaitDisconnected | ServerError(text: string)

  /** A query data object. `owner` is the query it was started from, `refs` the references it still holds. */
  datatype Data = Data(
    owner: QueryId, transaction: bool, members: seq<Member>, first: bool,
    status: QueryStatus, result: QueryResultStatus, error: ErrorText, finished: bool, refs: set<Slot>)

  /** A query of a transaction, with the data made for it when it was added. */
  datatype Member = Member(owner: QueryId, data: DataId)

  /** The fields of `Database` both threads use, with the heap of query data objects. */
  datatype Shared = Shared(
    queue: seq<Entry>, finishedQueries: seq<DataId>, canWait: bool, waiting: Option<DataId>,
    info: map<DataId, Data>)

  /** What the Lua thread is in the middle of; `Free` when it runs callback or script code. */
  datatype MainOp =
    | Free
    | Starting(data: DataId)
    | WaitReady(data: DataId)
    | Blocked(data: DataId)
    | Aborting(todo: seq<DataId>, removed: seq<DataId>)
    | Joining
    | ThinkNow(waited: Option<DataId>)

  /** A loop over taken or aborted data. `current` is the data whose callback is running, `waited` the data whose
      `wait` call runs this loop before it returns. */
  datatype Frame = Frame(current: Option<DataId>, rest: seq<DataId>, aborted: bool, waited: Option<DataId>)

  datatype Worker =
    | NotStarted
    | Connecting
    | Idle
    | Taken(data: DataId)
    | Executing(data: DataId)
    | Executed(data: DataId)
    | Published(data: DataId)
    | Closing
    | Ended
    | InitFailed

  datatype CallbackKind = SuccessCallback | ErrorCallback | AbortedCallback
  datatype Event = Event(data: DataId, kind: CallbackKind)

  /** One delivery freed these references of its data. */
  datatype Release = Release(data: DataId, slots: set<Slot>)

  /** What has happened so far; no step looks at it. */
  datatype History = History(
    started: set<DataId>, taken: seq<DataId>, aborted: seq<DataId>, fails: seq<DataId>,
    done: seq<DataId>, gone: set<DataId>, outcome: map<DataId, QueryResultStatus>, events: seq<Event>,
    frees: seq<Release>, created: map<DataId, set<Slot>>, log: map<QueryId, seq<DataId>>)

  datatype State = State(
    sh: Shared, running: map<QueryId, seq<DataId>>, begun: set<QueryId>, op: MainOp, stack: seq<Frame>,
    worker: Worker, joinable: bool, h: History)

  /** What the Lua thread does. */
  datatype LuaStep =
    | Connect
    | StartPut(data: DataId, owner: QueryId, transaction: bool, members: seq<Member>, refs: set<Slot>,
               built: QueryStatus)
    | StartStatus
    | WaitSwap(query: QueryId, swap: bool)
    | WaitEnter
    | WaitWake
    | AbortBegin(query: QueryId)
    | AbortOne
    | AbortDone
    | AbortAll
    | Disconnect(wait: bool)
    | JoinDone
    | Think
    | ThinkTake
    | BeginDeliver(hasField: bool)
    | EndDeliver
    | FrameEnd

  /** What the worker does. */
  datatype WorkerStep =
    | ConnectOk
    | ConnectFail
    | ConnectInitFail
    | Take
    | Begin
    | Execute(result: QueryResultStatus, error: ErrorText)
    | Publish
    | Finish
    | AbortWaiting

  datatype Step = Lua(call: LuaStep) | Work(work: WorkerStep)

  // ---------------------------------------------------------------------------------------------------------
  // Updates of the shared fields. The class `Database` is proved to perform exactly these.
  // ---------------------------------------------------------------------------------------------------------

  function Finished(sh: Shared, d: DataId): bool {
    d in sh.info && sh.info[d].finished
  }

  function WithStatus(sh: Shared, d: DataId, status: QueryStatus): Shared {
    if d in sh.info then sh.(info := sh.info[d := sh.info[d].(status := status)]) else sh
  }

  function Put(sh: Shared, e: Entry): Shared {
    sh.(queue := sh.queue + [e])
  }

  function Fail(sh: Shared, d: DataId, reason: ErrorText): Shared {
    if d !in sh.info then sh.(finishedQueries := sh.finishedQueries + [d])
    else sh.(finishedQueries := sh.finishedQueries + [d],
             info := sh.info[d := sh.info[d].(error := reason, result := Error, status := Complete, finished := true)])
  }

  function AbortTheWaiting(sh: Shared): Shared {
    match sh.waiting
    case None => sh.(canWait := false)
    case Some(d) => Fail(sh.(canWait := false), d, WaitDisconnected).(waiting := None)
  }

  /** `waitForQuery` up to the point where it returns or blocks. */
  function EnterWait(sh: Shared, d: DataId): Shared {
    if !sh.canWait then Fail(sh, d, WaitImpossible)
    else if Finished(sh, d) then sh
    else sh.(waiting := Some(d))
  }

  function MarkAborted(info: map<DataId, Data>, ds: seq<DataId>): map<DataId, Data> {
    map d | d in info :: if d in ds then info[d].(status := Aborted, finished := true) else info[d]
  }

  /** The data of a queue, in order; pills are skipped. */
  function QueueData(q: seq<Entry>): seq<DataId> {
    if q == [] then []
    else (if q[0].Item? then [q[0].data] else []) + QueueData(q[1..])
  }

  /** The data of the entries ahead of the first pill, in order. */
  function BeforePill(q: seq<Entry>): seq<DataId> {
    if q == [] || q[0] == Pill then [] else [q[0].data] + BeforePill(q[1..])
  }

  /** What is left behind the first pill. */
  function AfterPill(q: seq<Entry>): seq<Entry> {
    if q == [] then [] else if q[0] == Pill then q[1..] else AfterPill(q[1..])
  }

  function ClearQueue(sh: Shared): Shared {
    sh.(queue := [], info := MarkAborted(sh.info, QueueData(sh.queue)))
  }

  function RemoveQueued(sh: Shared, d: DataId): Shared {
    if Item(d) in sh.queue then
      sh.(queue := Without(sh.queue, Item(d)), info := MarkAborted(sh.info, [d]))
    else sh
  }

  function RecordResult(sh: Shared, d: DataId, result: QueryResultStatus, error: ErrorText): Shared {
    if d !in sh.info then sh
    else
      var data := sh.info[d];
      sh.(info := sh.info[d := data.(result := result, error := if result == Error then error else data.error,
                                     status := Complete)])
  }

  function FinishData(sh: Shared, d: DataId): Shared {
    var sh' := if d in sh.info then sh.(info := sh.info[d := sh.info[d].(finished := true)]) else sh;
    if sh.waiting == Some(d) then sh'.(waiting := None) else sh'
  }

  // ---------------------------------------------------------------------------------------------------------
  // The list of outstanding data of each query
  // ---------------------------------------------------------------------------------------------------------

  function Get(m: map<QueryId, seq<DataId>>, q: QueryId): seq<DataId> {
    if q in m then m[q] else []
  }

  function Push(m: map<QueryId, seq<DataId>>, q: QueryId, d: DataId): map<QueryId, seq<DataId>> {
    m[q := Get(m, q) + [d]]
  }

  function PushAll(m: map<QueryId, seq<DataId>>, members: seq<Member>): map<QueryId, seq<DataId>>
    decreases |members|
  {
    if members == [] then m else PushAll(Push(m, members[0].owner, members[0].data), members[1..])
  }

  /** `finishQueryData`: the fast path pops the front, the slow path filters. */
  function Dropped(ds: seq<DataId>, d: DataId): seq<DataId> {
    if ds == [] then ds else if ds[0] == d then ds[1..] else Without(ds, d)
  }

  function Drop(m: map<QueryId, seq<DataId>>, q: QueryId, d: DataId): map<QueryId, seq<DataId>> {
    if q in m then m[q := Dropped(m[q], d)] else m
  }

  function DropAll(m: map<QueryId, seq<DataId>>, members: seq<Member>): map<QueryId, seq<DataId>>
    decreases |members|
  {
    if members == [] then m else DropAll(Drop(m, members[0].owner, members[0].data), members[1..])
  }

  function MemberData(members: seq<Member>): set<DataId> {
    if members == [] then {} else {members[0].data} + MemberData(members[1..])
  }

  function NewMembers(members: seq<Member>, begun: set<QueryId>): map<DataId, Data> {
    map m | m in MemberData(members) ::
      var o := OwnerOf(members, m);
      Data(o, false, [], o !in begun, NotRunning, NoResult, NoError, false, {})
  }

  function OwnerOf(members: seq<Member>, d: DataId): QueryId
    requires d in MemberData(members)
  {
    if members[0].data == d then members[0].owner else OwnerOf(members[1..], d)
  }

  // ---------------------------------------------------------------------------------------------------------
  // Delivering callbacks
  // ---------------------------------------------------------------------------------------------------------

  /** `pushCallbackReference`: a stored function reference, or for the first start the field of the table. */
  function Pushed(data: Data, slot: Slot, hasField: bool): bool {
    slot in data.refs || (data.first && TableRef in data.refs && hasField)
  }

  /** The callback a delivery runs, if any. Only the success path of a plain query does not look at the table
      reference first. */
  function Callback(data: Data, aborted: bool, hasField: bool): Option<CallbackKind> {
    if aborted then
      if TableRef in data.refs && Pushed(data, AbortRef, hasField) then Some(AbortedCallback) else None
    else
      match data.result
      case NoResult => None
      case Error =>
        if TableRef in data.refs && Pushed(data, ErrorRef, hasField) then Some(ErrorCallback) else None
      case Success =>
        if (data.transaction ==> TableRef in data.refs) && Pushed(data, SuccessRef, hasField)
        then Some(SuccessCallback) else None
  }

  /** The success path of a transaction marks its data complete once more. */
  function Delivering(data: Data, aborted: bool): Data {
    if !aborted && data.result == Success && data.transaction && TableRef in data.refs then data.(status := Complete)
    else data
  }

  // ---------------------------------------------------------------------------------------------------------
  // Steps
  // ---------------------------------------------------------------------------------------------------------

  predicate HasTop(s: State) {
    s.stack != []
  }

  function Top(s: State): Frame
    requires HasTop(s)
  {
    s.stack[|s.stack| - 1]
  }

  function Below(s: State): seq<Frame>
    requires HasTop(s)
  {
    s.stack[..|s.stack| - 1]
  }

  /** The Lua thread runs script code: outside every loop, or inside a callback. */
  predicate UserCode(s: State) {
    s.op == Free && (HasTop(s) ==> Top(s).current.Some?)
  }

  predicate InLoop(s: State) {
    s.op == Free && HasTop(s) && Top(s).current.None?
  }

  predicate Distinct(d: DataId, members: seq<Member>) {
    && (forall i :: 0 <= i < |members| ==> members[i].data != d)
    && (forall i, j :: 0 <= i < j < |members| ==> members[i].data != members[j].data)
  }

  /** When a step can be taken. A start makes fresh data objects; `abortAllQueries` dereferences a null pair when
      a pill is queued, so it is taken only when none is. */
  predicate CanCall(s: State, call: LuaStep) {
    match call
    case Connect => UserCode(s) && s.worker == NotStarted
    case StartPut(d, owner, transaction, members, refs, built) =>
      && UserCode(s)
      && d !in s.sh.info && Distinct(d, members) && MemberData(members) !! s.sh.info.Keys
      && (!transaction ==> members == [])
      && (refs == {} || TableRef in refs)
    case StartStatus => s.op.Starting?
    case WaitSwap(q, swap) => UserCode(s) && Get(s.running, q) != []
    case WaitEnter => s.op.WaitReady?
    case WaitWake => s.op.Blocked? && Finished(s.sh, s.op.data)
    case AbortBegin(q) => UserCode(s)
    case AbortOne => s.op.Aborting? && s.op.todo != []
    case AbortDone => s.op.Aborting? && s.op.todo == []
    case AbortAll => UserCode(s) && Pill !in s.sh.queue
    case Disconnect(wait) => UserCode(s)
    case JoinDone => s.op.Joining? && (s.worker.Ended? || s.worker.InitFailed?)
    case Think => UserCode(s)
    case ThinkTake => s.op.ThinkNow?
    case BeginDeliver(hasField) => InLoop(s) && Top(s).rest != [] && Top(s).rest[0] in s.sh.info
    case EndDeliver => UserCode(s) && HasTop(s) && Top(s).current.value in s.sh.info
    case FrameEnd => InLoop(s) && Top(s).rest == []
  }

  predicate CanWork(s: State, work: WorkerStep) {
    match work
    case ConnectOk => s.worker == Connecting
    case ConnectFail => s.worker == Connecting
    case ConnectInitFail => s.worker == Connecting
    case Take => s.worker == Idle && s.sh.queue != []
    case Begin => s.worker.Taken?
    case Execute(result, error) => s.worker.Executing? && result != NoResult
    case Publish => s.worker.Executed?
    case Finish => s.worker.Published?
    case AbortWaiting => s.worker == Closing
  }

  predicate Enabled(s: State, step: Step) {
    match step
    case Lua(call) => CanCall(s, call)
    case Work(work) => CanWork(s, work)
  }

  function DoStart(s: State, d: DataId, owner: QueryId, transaction: bool, members: seq<Member>, refs: set<Slot>,
                   built: QueryStatus): State
  {
    var data := Data(owner, transaction, members, owner !in s.begun, built, NoResult, NoError, false, refs);
    var info := s.sh.info + NewMembers(members, s.begun);
    s.(sh := Put(s.sh.(info := info[d := data]), Item(d)),
       running := Push(PushAll(s.running, members), owner, d),
       op := Starting(d),
       h := s.h.(started := s.h.started + {d}, created := s.h.created[d := refs],
                 log := Push(PushAll(s.h.log, members), owner, d)))
  }

  function DoStartStatus(s: State, d: DataId): State {
    s.(sh := WithStatus(s.sh, d, Waiting),
       begun := if d in s.sh.info then s.begun + {s.sh.info[d].owner} else s.begun,
       op := Free)
  }

  function DoWaitSwap(s: State, ds: seq<DataId>, swap: bool): State
    requires ds != []
  {
    var d := ds[|ds| - 1];
    s.(sh := if swap then s.sh.(queue := SwapToFront(s.sh.queue, Item(d))) else s.sh, op := WaitReady(d))
  }

  function DoWaitEnter(s: State, d: DataId): State {
    s.(sh := EnterWait(s.sh, d),
       op := if s.sh.canWait && !Finished(s.sh, d) then Blocked(d) else ThinkNow(Some(d)),
       h := if s.sh.canWait then s.h else s.h.(fails := s.h.fails + [d]))
  }

  function DoAbortOne(s: State, todo: seq<DataId>, removed: seq<DataId>): State
    requires todo != []
  {
    var d := todo[0];
    if Item(d) in s.sh.queue then
      s.(sh := RemoveQueued(s.sh, d), op := Aborting(todo[1..], removed + [d]),
         h := s.h.(aborted := s.h.aborted + [d]))
    else s.(op := Aborting(todo[1..], removed))
  }

  function DoAbortAll(s: State, ds: seq<DataId>): State {
    s.(sh := ClearQueue(s.sh), stack := s.stack + [Frame(None, ds, true, None)],
       h := s.h.(aborted := s.h.aborted + ds))
  }

  function DoDisconnect(s: State, wait: bool): State {
    s.(sh := Put(s.sh, Pill), op := if !wait then Free else if s.joinable then Joining else ThinkNow(None))
  }

  function DoThinkTake(s: State, waited: Option<DataId>): State {
    s.(sh := s.sh.(finishedQueries := []),
       stack := s.stack + [Frame(None, s.sh.finishedQueries, false, waited)], op := Free)
  }

  function DoBeginDeliver(s: State, hasField: bool): State
    requires HasTop(s) && Top(s).rest != [] && Top(s).rest[0] in s.sh.info
  {
    var f := Top(s);
    var d := f.rest[0];
    var callback := Callback(s.sh.info[d], f.aborted, hasField);
    s.(sh := s.sh.(info := s.sh.info[d := Delivering(s.sh.info[d], f.aborted)]),
       stack := Below(s) + [f.(current := Some(d), rest := f.rest[1..])],
       h := if callback.Some? then s.h.(events := s.h.events + [Event(d, callback.value)]) else s.h)
  }

  function DoEndDeliver(s: State): State
    requires HasTop(s) && Top(s).current.Some? && Top(s).current.value in s.sh.info
  {
    var f := Top(s);
    var d := f.current.value;
    var data := s.sh.info[d];
    s.(sh := s.sh.(info := s.sh.info[d := data.(refs := {})]),
       running := DropAll(Drop(s.running, data.owner, d), data.members),
       stack := Below(s) + [f.(current := None)],
       h := s.h.(done := s.h.done + [d], gone := s.h.gone + {d} + MemberData(data.members),
                 frees := s.h.frees + [Release(d, data.refs)]))
  }

  function DoTake(s: State): State
    requires s.sh.queue != []
  {
    var e := s.sh.queue[0];
    var sh := s.sh.(queue := s.sh.queue[1..]);
    if e.Pill? then s.(sh := sh, worker := Closing)
    else s.(sh := sh, worker := Taken(e.data), h := s.h.(taken := s.h.taken + [e.data]))
  }

  function DoExecute(s: State, d: DataId, result: QueryResultStatus, error: ErrorText): State {
    s.(sh := RecordResult(s.sh, d, result, error), worker := Executed(d),
       h := s.h.(outcome := s.h.outcome[d := result]))
  }

  function DoPublish(s: State, d: DataId): State {
    s.(sh := s.sh.(finishedQueries := s.sh.finishedQueries + [d]), worker := Published(d))
  }

  function DoAbortWaiting(s: State): State {
    s.(sh := AbortTheWaiting(s.sh), worker := Ended,
       h := if s.sh.waiting.Some? then s.h.(fails := s.h.fails + [s.sh.waiting.value]) else s.h)
  }

  /** A step that cannot be taken changes nothing. */
  function Called(s: State, call: LuaStep): State {
    if !CanCall(s, call) then s
    else
      match call
      case Connect => s.(sh := s.sh.(canWait := true), worker := Connecting, joinable := true)
      case StartPut(d, owner, transaction, members, refs, built) =>
        DoStart(s, d, owner, transaction, members, refs, built)
      case StartStatus => DoStartStatus(s, s.op.data)
      case WaitSwap(q, swap) => DoWaitSwap(s, Get(s.running, q), swap)
      case WaitEnter => DoWaitEnter(s, s.op.data)
      case WaitWake => s.(op := ThinkNow(Some(s.op.data)))
      case AbortBegin(q) => s.(op := Aborting(Get(s.running, q), []))
      case AbortOne => DoAbortOne(s, s.op.todo, s.op.removed)
      case AbortDone => s.(stack := s.stack + [Frame(None, s.op.removed, true, None)], op := Free)
      case AbortAll => DoAbortAll(s, QueueData(s.sh.queue))
      case Disconnect(wait) => DoDisconnect(s, wait)
      case JoinDone => s.(joinable := false, op := ThinkNow(None))
      case Think => s.(op := ThinkNow(None))
      case ThinkTake => DoThinkTake(s, s.op.waited)
      case BeginDeliver(hasField) => DoBeginDeliver(s, hasField)
      case EndDeliver => DoEndDeliver(s)
      case FrameEnd => s.(stack := Below(s))
  }

  function Worked(s: State, work: WorkerStep): State {
    if !CanWork(s, work) then s
    else
      match work
      case ConnectOk => s.(worker := Idle)
      case ConnectFail => s.(worker := Closing)
      case ConnectInitFail => s.(worker := InitFailed)
      case Take => DoTake(s)
      case Begin => s.(sh := WithStatus(s.sh, s.worker.data, Running), worker := Executing(s.worker.data))
      case Execute(result, error) => DoExecute(s, s.worker.data, result, error)
      case Publish => DoPublish(s, s.worker.data)
      case Finish => s.(sh := FinishData(s.sh, s.worker.data), worker := Idle)
      case AbortWaiting => DoAbortWaiting(s)
  }

  function Next(s: State, step: Step): State {
    match step
    case Lua(call) => Called(s, call)
    case Work(work) => Worked(s, work)
  }

  /** A database object before `connect`. */
  const INIT := State(
    Shared([], [], false, None, map[]), map[], {}, Free, [], NotStarted, false,
    History({}, [], [], [], [], {}, map[], [], [], map[], map[]))

  /** `steps` can be taken one after the other from `s`. */
  predicate CanRun(s: State, steps: seq<Step>)
    decreases |steps|
  {
    steps == [] || (Enabled(s, steps[0]) && CanRun(Next(s, steps[0]), steps[1..]))
  }

  function Run(s: State, steps: seq<Step>): State
    decreases |steps|
  {
    if steps == [] then s else Run(Next(s, steps[0]), steps[1..])
  }

  lemma {:induction false} RunAppend(s: State, steps: seq<Step>, step: Step)
    requires CanRun(s, steps) && Enabled(Run(s, steps), step)
    ensures CanRun(s, steps + [step]) && Run(s, steps + [step]) == Next(Run(s, steps), step)
    decreases |steps|
  {
    if steps == [] {
      assert steps + [step] == [step];
      assert [step][1..] == [];
    } else {
      assert (steps + [step])[1..] == steps[1..] + [step];
      RunAppend(Next(s, steps[0]), steps[1..], step);
    }
  }
}
