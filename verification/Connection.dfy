/**
 The `MYSQL` handle of a database, over every interleaving of the two threads: the database thread connects, executes,
 reconnects and closes; the Lua thread escapes strings under the connect mutex and sets the character set under the
 query mutex.
 */
module Connections {
  import opened QueryTypes

  /** A `MYSQL` by identity. */
  type Conn = nat

  /** The connection handles of the client library: closing or using one that is not open is misuse. */
  datatype Library = Library(next: Conn, open: set<Conn>, misused: bool)
  {
    function Initialised(): Library {
      this.(next := next + 1, open := open + {next})
    }

    function Using(c: Option<Conn>): Library {
      if c.Some? && c.value in open then this else this.(misused := true)
    }

    /** Closing null does nothing. */
    function Closing(c: Option<Conn>): Library {
      if c.None? then this
      else if c.value in open then this.(open := open - {c.value})
      else this.(misused := true)
    }
  }

  /** The fields; `connectionDone` and `connected` are read without a mutex. */
  datatype Fields = Fields(sql: Option<Conn>, connectionDone: bool, connected: bool, library: Library)
  {
    function Initialised(): Fields {
      Fields(Some(library.next), connectionDone, connected, library.Initialised())
    }

    function Done(): Fields {
      this.(connectionDone := true)
    }

    function Swapped(new': Conn): Fields {
      this.(sql := Some(new'), library := library.Closing(sql))
    }

    function Closed(): Fields {
      this.(sql := None, library := library.Closing(sql))
    }
  }

  // ---------------------------------------------------------------------------------------------------------
  // In place
  // ---------------------------------------------------------------------------------------------------------

  class Connection {
    var sql: Option<Conn>
    var connectionDone: bool
    var connected: bool
    var library: Library

    constructor ()
      ensures View() == Fields(None, false, false, Library(0, {}, false))
    {
      sql, connectionDone, connected, library := None, false, false, Library(0, {}, false);
    }

    function View(): Fields
      reads this
    {
      Fields(sql, connectionDone, connected, library)
    }

    /** `connectRun` up to its loop. The client library may have no memory for a handle, and may not connect. */
    method ConnectRun(memory: bool, connects: bool) returns (success: bool)
      modifies this
      ensures success == (memory && connects)
      ensures View() == if !memory then old(View()).(sql := None).Done()
                        else if connects then old(View()).Initialised().Done().(connected := true)
                        else old(View()).Initialised().Done().Closed()
    {
      if !memory {
        sql := None;
        connectionDone := true;
        return false;
      }
      sql := Some(library.next);
      library := library.Initialised();
      if !connects {
        connectionDone := true;
        library := library.Closing(sql);
        sql := None;
        return false;
      }
      connectionDone := true;
      connected := true;
      return true;
    }

    /** The old connection is closed only when the new one works. */
    method AttemptReconnect(memory: bool, connects: bool) returns (success: bool)
      modifies this
      ensures success == (memory && connects)
      ensures success ==> View() == old(View()).(library := old(library).Initialised()).Swapped(old(library).next)
      ensures !success ==>
                View() == if !memory then old(View())
                          else old(View()).(library := old(library).Initialised().Closing(Some(old(library).next)))
    {
      if !memory {
        return false;
      }
      var newSql := library.next;
      library := library.Initialised();
      if !connects {
        library := library.Closing(Some(newSql));
        return false;
      }
      if sql.Some? {
        library := library.Closing(sql);
      }
      sql := Some(newSql);
      return true;
    }

    method CloseConnection()
      modifies this
      ensures View() == old(View()).Closed()
    {
      library := library.Closing(sql);
      sql := None;
    }
  }

  // ---------------------------------------------------------------------------------------------------------
  // Both threads
  // ---------------------------------------------------------------------------------------------------------

  datatype Thread = LuaThread | WorkerThread

  /** Where the database thread is. `Executing` carries the pointer that was passed to the query, and a name that
      begins with `Wants` says that the thread waits for a mutex. */
  datatype Worker =
    | NotStarted
    | WantsConnect
    | Connecting
    | Attempting
    | Announcing
    | Failing
    | Nulling
    | Looping
    | WantsQuery
    | Executing(passed: Option<Conn>)
    | Reconnecting(fresh': Conn)
    | WantsSwap(fresh': Conn)
    | Swapping(fresh': Conn)
    | Settling
    | WantsLastQuery
    | WantsLastConnect
    | Closing
    | Unlocking
    | Ending
    | Gone

  /** Where the Lua thread is: in `escape` or `setCharacterSet`, before the mutex, holding it, or past the test. */
  datatype Lua =
    | Free
    | WantsEscape
    | InEscape
    | Escaping
    | WantsCharset
    | InCharset
    | SettingCharset

  datatype State = State(f: Fields, connectMutex: Option<Thread>, queryMutex: Option<Thread>, worker: Worker, lua: Lua)

  datatype WorkerStep =
    | Starts
    | LocksConnect
    | InitFails
    | InitWorks
    | ConnectDone(success: bool)
    | Announces
    | ClosesFailed
    | NullsFailed
    | Takes(pill: bool)
    | LocksQuery
    | UsesConnection
    | Finishes
    | ReconnectInit
    | ReconnectFails
    | ReconnectWorks
    | LocksSwap
    | Swaps(again: bool)
    | LocksLastQuery
    | LocksLastConnect
    | Closes
    | Unlocks
    | ThreadEnds

  datatype LuaStep = Enters(escape: bool) | Locks | Tests | UsesSql

  datatype Step = Work(work: WorkerStep) | Lua(call: LuaStep)

  const INIT := State(Fields(None, false, false, Library(0, {}, false)), None, None, NotStarted, Free)

  predicate CanWork(s: State, step: WorkerStep) {
    match step
    case Starts => s.worker.NotStarted?
    case LocksConnect => s.worker.WantsConnect? && s.connectMutex.None?
    case InitFails => s.worker.Connecting?
    case InitWorks => s.worker.Connecting?
    case ConnectDone(_) => s.worker.Attempting?
    case Announces => s.worker.Announcing?
    case ClosesFailed => s.worker.Failing?
    case NullsFailed => s.worker.Nulling?
    case Takes(_) => s.worker.Looping?
    case LocksQuery => s.worker.WantsQuery? && s.queryMutex.None?
    case UsesConnection => s.worker.Executing?
    case Finishes => s.worker.Executing? || s.worker.Settling?
    case ReconnectInit => s.worker.Executing?
    case ReconnectFails => s.worker.Reconnecting?
    case ReconnectWorks => s.worker.Reconnecting?
    case LocksSwap => s.worker.WantsSwap? && s.connectMutex.None?
    case Swaps(_) => s.worker.Swapping?
    case LocksLastQuery => s.worker.WantsLastQuery? && s.queryMutex.None?
    case LocksLastConnect => s.worker.WantsLastConnect? && s.connectMutex.None?
    case Closes => s.worker.Closing?
    case Unlocks => s.worker.Unlocking?
    case ThreadEnds => s.worker.Ending?
  }

  predicate CanCall(s: State, step: LuaStep) {
    match step
    case Enters(_) => s.lua.Free?
    case Locks =>
      (s.lua.WantsEscape? && s.connectMutex.None?) || (s.lua.WantsCharset? && s.queryMutex.None?)
    case Tests => s.lua.InEscape? || s.lua.InCharset?
    case UsesSql => s.lua.Escaping? || s.lua.SettingCharset?
  }

  predicate Enabled(s: State, step: Step) {
    match step
    case Work(work) => CanWork(s, work)
    case Lua(call) => CanCall(s, call)
  }

  /** `Swaps(again)` executes the query again; a ping does not. */
  function Worked(s: State, step: WorkerStep): State {
    if !CanWork(s, step) then s
    else
      match step
      case Starts => s.(worker := WantsConnect)
      case LocksConnect => s.(connectMutex := Some(WorkerThread), worker := Connecting)
      case InitFails => s.(f := s.f.(sql := None, connectionDone := true), connectMutex := None, worker := Gone)
      case InitWorks => s.(f := s.f.Initialised(), worker := Attempting)
      case ConnectDone(success) => s.(f := s.f.Done(), worker := if success then Announcing else Failing)
      case Announces => s.(f := s.f.(connected := true), connectMutex := None, worker := Looping)
      case ClosesFailed => s.(f := s.f.(library := s.f.library.Closing(s.f.sql)), worker := Nulling)
      case NullsFailed => s.(f := s.f.(sql := None), connectMutex := None, worker := Gone)
      case Takes(pill) => s.(worker := if pill then WantsLastQuery else WantsQuery)
      case LocksQuery => s.(queryMutex := Some(WorkerThread), worker := Executing(s.f.sql))
      case UsesConnection => s.(f := s.f.(library := s.f.library.Using(s.worker.passed)))
      case Finishes => s.(queryMutex := None, worker := Looping)
      case ReconnectInit =>
        s.(f := s.f.(library := s.f.library.Initialised()), worker := Reconnecting(s.f.library.next))
      case ReconnectFails =>
        s.(f := s.f.(library := s.f.library.Closing(Some(s.worker.fresh'))), worker := Settling)
      case ReconnectWorks => s.(worker := WantsSwap(s.worker.fresh'))
      case LocksSwap => s.(connectMutex := Some(WorkerThread), worker := Swapping(s.worker.fresh'))
      case Swaps(again) =>
        s.(f := s.f.Swapped(s.worker.fresh'), connectMutex := None,
           worker := if again then Executing(Some(s.worker.fresh')) else Settling)
      case LocksLastQuery => s.(queryMutex := Some(WorkerThread), worker := WantsLastConnect)
      case LocksLastConnect => s.(connectMutex := Some(WorkerThread), worker := Closing)
      case Closes => s.(f := s.f.Closed(), worker := Unlocking)
      case Unlocks => s.(connectMutex := None, queryMutex := None, worker := Ending)
      case ThreadEnds => s.(f := s.f.(connected := false), worker := Gone)
  }

  function Called(s: State, step: LuaStep): State {
    if !CanCall(s, step) then s
    else
      match step
      case Enters(escape) => s.(lua := if escape then WantsEscape else WantsCharset)
      case Locks =>
        if s.lua.WantsEscape? then s.(connectMutex := Some(LuaThread), lua := InEscape)
        else s.(queryMutex := Some(LuaThread), lua := InCharset)
      case Tests =>
        if s.lua.InEscape?
        then if s.f.connectionDone && s.f.sql.Some? then s.(lua := Escaping)
             else s.(connectMutex := None, lua := Free)
        else if s.f.connected && s.f.sql.Some? then s.(lua := SettingCharset)
        else s.(queryMutex := None, lua := Free)
      case UsesSql =>
        if s.lua.Escaping?
        then s.(f := s.f.(library := s.f.library.Using(s.f.sql)), connectMutex := None, lua := Free)
        else s.(f := s.f.(library := s.f.library.Using(s.f.sql)), queryMutex := None, lua := Free)
  }

  function Next(s: State, step: Step): State {
    match step
    case Work(work) => Worked(s, work)
    case Lua(call) => Called(s, call)
  }

  predicate CanRun(s: State, steps: seq<Step>)
    decreases |steps|
  {
    steps == [] || (Enabled(s, steps[0]) && CanRun(Next(s, steps[0]), steps[1..]))
  }

  function Run(s: State, steps: seq<Step>): State
    decreases |steps|
  {
    if steps == [] then s else Run(Next(s, steps[0]), steps[1..])
  }

  // ---------------------------------------------------------------------------------------------------------
  // Invariant
  // ---------------------------------------------------------------------------------------------------------

  predicate WorkerHoldsConnect(w: Worker) {
    || w.Connecting? || w.Attempting? || w.Announcing? || w.Failing? || w.Nulling? || w.Swapping? || w.Closing?
    || w.Unlocking?
  }

  predicate WorkerHoldsQuery(w: Worker) {
    || w.Executing? || w.Reconnecting? || w.WantsSwap? || w.Swapping? || w.Settling? || w.WantsLastConnect?
    || w.Closing? || w.Unlocking?
  }

  predicate LuaHoldsConnect(l: Lua) {
    l.InEscape? || l.Escaping?
  }

  predicate LuaHoldsQuery(l: Lua) {
    l.InCharset? || l.SettingCharset?
  }

  function Holder(worker: bool, lua: bool): Option<Thread> {
    if worker then Some(WorkerThread) else if lua then Some(LuaThread) else None
  }

  /** Each mutex has at most one holder. */
  predicate Locked(s: State) {
    && !(WorkerHoldsConnect(s.worker) && LuaHoldsConnect(s.lua))
    && !(WorkerHoldsQuery(s.worker) && LuaHoldsQuery(s.lua))
    && s.connectMutex == Holder(WorkerHoldsConnect(s.worker), LuaHoldsConnect(s.lua))
    && s.queryMutex == Holder(WorkerHoldsQuery(s.worker), LuaHoldsQuery(s.lua))
  }

  /** The outcome of the first connection attempt is not known yet. */
  predicate BeforeDone(w: Worker) {
    w.NotStarted? || w.WantsConnect? || w.Connecting? || w.Attempting?
  }

  /** Between connecting and the end of the thread. */
  predicate AfterConnected(w: Worker) {
    !BeforeDone(w) && !w.Announcing? && !w.Failing? && !w.Nulling? && !w.Gone?
  }

  /** Before the first connection is made, and after the last one is closed. */
  predicate WithoutSql(w: Worker) {
    w.NotStarted? || w.WantsConnect? || w.Connecting? || w.Unlocking? || w.Ending? || w.Gone?
  }

  /** The connection a reconnect has opened and not yet published. */
  function Fresh(w: Worker): set<Conn> {
    match w
    case Reconnecting(c) => {c}
    case WantsSwap(c) => {c}
    case Swapping(c) => {c}
    case _ => {}
  }

  /** Exactly the published connection and a reconnect's new one are open; for a moment after a failed connect the
      pointer still names the connection that has just been closed. */
  predicate Opened(s: State) {
    var published := if s.f.sql.Some? && !s.worker.Nulling? then {s.f.sql.value} else {};
    && s.f.library.open == published + Fresh(s.worker) && published !! Fresh(s.worker)
    && !s.f.library.misused
    && (forall c :: c in s.f.library.open ==> c < s.f.library.next)
  }

  predicate Inv(s: State) {
    Locked(s) && Opened(s) && Flags(s)
  }

  /** What the flags and the pointer say about where the threads are. */
  predicate Flags(s: State) {
    && (s.f.connectionDone <==> !BeforeDone(s.worker))
    && (s.f.connected <==> AfterConnected(s.worker))
    && (s.f.sql.None? <==> WithoutSql(s.worker))
    && (s.worker.Executing? ==> s.worker.passed == s.f.sql)
    && (s.lua.Escaping? || s.lua.SettingCharset? ==> s.f.sql.Some?)
    && (s.lua.SettingCharset? ==> s.f.connected)
  }

  lemma WorkKeepsLocked(s: State, step: WorkerStep)
    requires Locked(s) && CanWork(s, step)
    ensures Locked(Worked(s, step))
  {
  }

  lemma WorkKeepsOpened(s: State, step: WorkerStep)
    requires Inv(s) && CanWork(s, step)
    ensures Opened(Worked(s, step))
  {
  }

  lemma WorkKeepsFlags(s: State, step: WorkerStep)
    requires Locked(s) && Flags(s) && CanWork(s, step)
    ensures Flags(Worked(s, step))
  {
  }

  lemma WorkKeeps(s: State, step: WorkerStep)
    requires Inv(s) && CanWork(s, step)
    ensures Inv(Worked(s, step))
  {
    WorkKeepsLocked(s, step);
    WorkKeepsOpened(s, step);
    WorkKeepsFlags(s, step);
  }

  lemma CallKeeps(s: State, step: LuaStep)
    requires Inv(s) && CanCall(s, step)
    ensures Inv(Called(s, step))
  {
  }

  lemma {:induction false} RunKeeps(s: State, steps: seq<Step>)
    requires Inv(s) && CanRun(s, steps)
    ensures Inv(Run(s, steps))
    decreases |steps|
  {
    if steps != [] {
      match steps[0] {
        case Work(work) => WorkKeeps(s, work);
        case Lua(call) => CallKeeps(s, call);
      }
      RunKeeps(Next(s, steps[0]), steps[1..]);
    }
  }

  // ---------------------------------------------------------------------------------------------------------
  // Main results
  // ---------------------------------------------------------------------------------------------------------

  /** No thread ever uses or closes a connection that is not open. What is open is the published connection and at most
      one that a reconnect is about to publish; and the published pointer dangles exactly between the close and the
      null of a failed connect. */
  lemma NeverMisused(steps: seq<Step>)
    requires CanRun(INIT, steps)
    ensures var s := Run(INIT, steps);
      && !s.f.library.misused
      && (s.f.sql.Some? ==> (s.f.sql.value !in s.f.library.open <==> s.worker.Nulling?))
      && (forall c :: c in s.f.library.open ==> s.f.sql == Some(c) || c in Fresh(s.worker))
  {
    RunKeeps(INIT, steps);
  }

  /** When the thread has ended every connection it opened has been closed, and as none was closed twice, exactly
      once. */
  lemma AllClosedAtEnd(steps: seq<Step>)
    requires CanRun(INIT, steps) && Run(INIT, steps).worker.Gone?
    ensures var s := Run(INIT, steps); s.f.library.open == {} && s.f.sql.None? && !s.f.library.misused
  {
    RunKeeps(INIT, steps);
  }

  /** While the Lua thread holds either mutex of a connected database, no step of the database thread changes the
      published connection, which is null or open. */
  lemma StableUnderMutex(steps: seq<Step>, step: WorkerStep)
    requires CanRun(INIT, steps) && CanWork(Run(INIT, steps), step)
    requires var s := Run(INIT, steps);
      s.connectMutex == Some(LuaThread) || (s.queryMutex == Some(LuaThread) && s.f.connected)
    ensures var s := Run(INIT, steps); var t := Worked(s, step);
      && t.f.sql == s.f.sql
      && (s.f.sql.Some? ==> s.f.sql.value in s.f.library.open && s.f.sql.value in t.f.library.open)
  {
    RunKeeps(INIT, steps);
  }

  /** Exactly what the query mutex alone does not exclude: the first connection being published, and a failed one being
      taken back. */
  lemma QueryMutexUnstableIff(steps: seq<Step>, step: WorkerStep)
    requires CanRun(INIT, steps) && CanWork(Run(INIT, steps), step)
    requires Run(INIT, steps).queryMutex == Some(LuaThread)
    ensures var s := Run(INIT, steps);
      && (Worked(s, step).f.sql != s.f.sql <==> step.InitWorks? || step.NullsFailed?)
      && (step.InitWorks? || step.NullsFailed? ==> !s.f.connected)
  {
    RunKeeps(INIT, steps);
  }

  lemma {:induction false} RunAppend(s: State, steps: seq<Step>, step: Step)
    requires CanRun(s, steps) && Enabled(Run(s, steps), step)
    ensures CanRun(s, steps + [step]) && Run(s, steps + [step]) == Next(Run(s, steps), step)
    decreases |steps|
  {
    if steps == [] {
      assert steps + [step] == [step];
      assert [step][1..] == [];
    } else {
      assert (steps + [step])[1..] == steps[1..] + [step];
      RunAppend(Next(s, steps[0]), steps[1..], step);
    }
  }

  lemma Does(steps: seq<Step>, step: Step) returns (steps': seq<Step>)
    requires CanRun(INIT, steps) && Enabled(Run(INIT, steps), step)
    ensures CanRun(INIT, steps') && Run(INIT, steps') == Next(Run(INIT, steps), step)
  {
    steps' := steps + [step];
    RunAppend(INIT, steps, step);
  }

  /** A Lua thread in `setCharacterSet` before the test, while the first connection is being made. */
  lemma InCharsetWhileConnecting() returns (steps: seq<Step>)
    ensures CanRun(INIT, steps)
    ensures Run(INIT, steps) == State(INIT.f, Some(WorkerThread), Some(LuaThread), Connecting, InCharset)
  {
    steps := Does([], Lua(Enters(false)));
    steps := Does(steps, Lua(Locks));
    steps := Does(steps, Work(Starts));
    steps := Does(steps, Work(LocksConnect));
  }

  /** That the connection attempt is over is not enough: with the query mutex held and the attempt known to be done,
      the failed connection is closed and its pointer becomes null. */
  lemma UnstableBeforeConnected() returns (steps: seq<Step>, step: WorkerStep)
    ensures CanRun(INIT, steps) && CanWork(Run(INIT, steps), step)
    ensures var s := Run(INIT, steps);
      && s.queryMutex == Some(LuaThread) && s.f.connectionDone
      && s.f.sql.Some? && s.f.sql.value !in s.f.library.open && Worked(s, step).f.sql.None?
  {
    steps := InCharsetWhileConnecting();
    steps := Does(steps, Work(InitWorks));
    steps := Does(steps, Work(ConnectDone(false)));
    steps := Does(steps, Work(ClosesFailed));
    step := NullsFailed;
  }

  /** The two mutexes never deadlock: in every reachable state in which the database thread waits for a mutex it cannot
      get, the Lua thread holds it and can go on. */
  lemma NoDeadlock(steps: seq<Step>)
    requires CanRun(INIT, steps)
    ensures var s := Run(INIT, steps);
      && (s.worker.WantsConnect? || s.worker.WantsSwap? || s.worker.WantsLastConnect? ==>
            s.connectMutex.None? || CanCall(s, Tests) || CanCall(s, UsesSql))
      && (s.worker.WantsQuery? || s.worker.WantsLastQuery? ==>
            s.queryMutex.None? || CanCall(s, Tests) || CanCall(s, UsesSql))
  {
    RunKeeps(INIT, steps);
  }

  // ---------------------------------------------------------------------------------------------------------
  // In which order the threads do what they do
  // ---------------------------------------------------------------------------------------------------------

  /** The last step of the database thread in a run that continues one whose last was `last`. */
  function LastWork(steps: seq<Step>, last: Option<WorkerStep>): Option<WorkerStep>
    decreases |steps|
  {
    if steps == [] then last else LastWork(steps[1..], if steps[0].Work? then Some(steps[0].work) else last)
  }

  /** The thread has a connection to execute something with. */
  predicate InQuery(last: Option<WorkerStep>) {
    last == Some(LocksQuery) || last == Some(UsesConnection) || last == Some(Swaps(true))
  }

  /** What comes after what: connecting, then turns of the loop with one reconnect at a time, each swap under the mutex
      before the query goes on, and after a pill both mutexes, the close, their release and the end. */
  predicate Follows(last: Option<WorkerStep>, step: WorkerStep) {
    match step
    case Starts => last == None
    case LocksConnect => last == Some(Starts)
    case InitFails => last == Some(LocksConnect)
    case InitWorks => last == Some(LocksConnect)
    case ConnectDone(_) => last == Some(InitWorks)
    case Announces => last == Some(ConnectDone(true))
    case ClosesFailed => last == Some(ConnectDone(false))
    case NullsFailed => last == Some(ClosesFailed)
    case Takes(_) => last == Some(Announces) || last == Some(Finishes)
    case LocksQuery => last == Some(Takes(false))
    case UsesConnection => InQuery(last)
    case ReconnectInit => InQuery(last)
    case Finishes => InQuery(last) || last == Some(Swaps(false)) || last == Some(ReconnectFails)
    case ReconnectFails => last == Some(ReconnectInit)
    case ReconnectWorks => last == Some(ReconnectInit)
    case LocksSwap => last == Some(ReconnectWorks)
    case Swaps(_) => last == Some(LocksSwap)
    case LocksLastQuery => last == Some(Takes(true))
    case LocksLastConnect => last == Some(LocksLastQuery)
    case Closes => last == Some(LocksLastConnect)
    case Unlocks => last == Some(Closes)
    case ThreadEnds => last == Some(Unlocks)
  }

  /** Where a step leaves the database thread. */
  predicate Reaches(last: Option<WorkerStep>, worker: Worker) {
    match last
    case None => worker.NotStarted?
    case Some(step) =>
      match step
      case Starts => worker.WantsConnect?
      case LocksConnect => worker.Connecting?
      case InitFails => worker.Gone?
      case InitWorks => worker.Attempting?
      case ConnectDone(success) => if success then worker.Announcing? else worker.Failing?
      case Announces => worker.Looping?
      case ClosesFailed => worker.Nulling?
      case NullsFailed => worker.Gone?
      case Takes(pill) => if pill then worker.WantsLastQuery? else worker.WantsQuery?
      case LocksQuery => worker.Executing?
      case UsesConnection => worker.Executing?
      case Finishes => worker.Looping?
      case ReconnectInit => worker.Reconnecting?
      case ReconnectFails => worker.Settling?
      case ReconnectWorks => worker.WantsSwap?
      case LocksSwap => worker.Swapping?
      case Swaps(again) => if again then worker.Executing? else worker.Settling?
      case LocksLastQuery => worker.WantsLastConnect?
      case LocksLastConnect => worker.Closing?
      case Closes => worker.Unlocking?
      case Unlocks => worker.Ending?
      case ThreadEnds => worker.Gone?
  }

  lemma {:induction false} ReachesRun(s: State, steps: seq<Step>, last: Option<WorkerStep>)
    requires CanRun(s, steps) && Reaches(last, s.worker)
    ensures Reaches(LastWork(steps, last), Run(s, steps).worker)
    decreases |steps|
  {
    if steps != [] {
      match steps[0] {
        case Work(work) => ReachesRun(Next(s, steps[0]), steps[1..], Some(work));
        case Lua(call) =>
          assert Called(s, call).worker == s.worker;
          ReachesRun(Next(s, steps[0]), steps[1..], last);
      }
    }
  }

  lemma EnabledIff(s: State, last: Option<WorkerStep>, step: WorkerStep)
    requires Reaches(last, s.worker)
    ensures CanWork(s, step)
            <==> && Follows(last, step)
                 && (step.LocksConnect? || step.LocksSwap? || step.LocksLastConnect? ==> s.connectMutex.None?)
                 && (step.LocksQuery? || step.LocksLastQuery? ==> s.queryMutex.None?)
  {
  }

  /** In every reachable state the database thread can take exactly the steps that follow its last one, those that lock
      only while the mutex is free: its program, stated by its steps alone. */
  lemma WorkerOrderIff(steps: seq<Step>, step: WorkerStep)
    requires CanRun(INIT, steps)
    ensures var s := Run(INIT, steps);
      CanWork(s, step)
      <==> && Follows(LastWork(steps, None), step)
           && (step.LocksConnect? || step.LocksSwap? || step.LocksLastConnect? ==> s.connectMutex.None?)
           && (step.LocksQuery? || step.LocksLastQuery? ==> s.queryMutex.None?)
  {
    ReachesRun(INIT, steps, None);
    EnabledIff(Run(INIT, steps), LastWork(steps, None), step);
  }

  /** The database thread has a connection that is published, and holds no mutex that would keep `escape` out. */
  predicate Usable(w: Worker) {
    || w.Looping? || w.WantsQuery? || w.Executing? || w.Reconnecting? || w.WantsSwap? || w.Settling?
    || w.WantsLastQuery? || w.WantsLastConnect?
  }

  /** A call of `escape` or `setCharacterSet` that has its mutex either goes on to use the published connection, exactly
      while there is one, or gives the mutex back and is over; and after the use it does the same. */
  lemma CallStages(steps: seq<Step>)
    requires CanRun(INIT, steps)
    ensures var s := Run(INIT, steps);
      && (s.lua == InEscape ==>
            Called(s, Tests) == if Usable(s.worker) then s.(lua := Escaping) else s.(connectMutex := None, lua := Free))
      && (s.lua == InCharset ==>
            Called(s, Tests) == if Usable(s.worker) then s.(lua := SettingCharset)
                                else s.(queryMutex := None, lua := Free))
      && (s.lua == Escaping ==> s.f.sql.Some? && s.f.sql.value in s.f.library.open
                                && Called(s, UsesSql) == s.(connectMutex := None, lua := Free))
      && (s.lua == SettingCharset ==> s.f.sql.Some? && s.f.sql.value in s.f.library.open
                                      && Called(s, UsesSql) == s.(queryMutex := None, lua := Free))
  {
    RunKeeps(INIT, steps);
  }

  /** A call begins from script code, and gets its mutex as soon as that is free. */
  lemma CallBegins(s: State, escape: bool)
    requires s.lua == Free
    ensures var t := Called(s, Enters(escape)); var mutex := if escape then s.connectMutex else s.queryMutex;
      && CanCall(s, Enters(escape)) && (CanCall(t, Locks) <==> mutex == None)
      && (mutex == None ==>
            Called(t, Locks) == if escape then s.(connectMutex := Some(LuaThread), lua := InEscape)
                                else s.(queryMutex := Some(LuaThread), lua := InCharset))
  {
  }

  /** In any state: a step is misuse exactly when it uses no connection or a closed one, or closes one that is not
      open; and so is the use in `escape` or `setCharacterSet`. */
  lemma MisuseIff(s: State, step: WorkerStep)
    requires CanWork(s, step) && !s.f.library.misused
    ensures var open := s.f.library.open;
      Worked(s, step).f.library.misused
      <==> match step
           case UsesConnection => s.worker.passed.None? || s.worker.passed.value !in open
           case ReconnectFails => s.worker.fresh' !in open
           case Swaps(_) => s.f.sql.Some? && s.f.sql.value !in open
           case Closes => s.f.sql.Some? && s.f.sql.value !in open
           case ClosesFailed => s.f.sql.Some? && s.f.sql.value !in open
           case _ => false
  {
  }

  lemma LuaMisuseIff(s: State, step: LuaStep)
    requires CanCall(s, step) && !s.f.library.misused
    ensures Called(s, step).f.library.misused
            <==> step.UsesSql? && (s.f.sql.None? || s.f.sql.value !in s.f.library.open)
  {
  }
}
