/**
 Who closes which prepared statement, over every interleaving of the two threads. The database thread prepares, uses,
 caches and closes statements; the Lua thread frees handles when it destroys queries. `freeStatement` tests a handle
 without holding the mutex, so that its two parts are separate steps.
 */
module Ownership {
  import opened QueryTypes
  import opened Statements

  /** What the database thread does: nothing, preparing a new statement, using one, between the two parts of freeing a
      handle, between a reconnect and freeing the old connection's statements, or past its end. */
  datatype Phase =
    | Idle
    | Preparing(raw: Stmt)
    | Holding(stmt: Stmt)
    | Freeing(handle: nat)
    | Reconnected
    | Ended

  /** `made[x]` is the connection that statement `x` was prepared on; `pending` is a handle the Lua thread saw valid
      and has yet to free. */
  datatype State = State(owned: Owned, made: seq<nat>, leaked: set<Stmt>, connection: nat, phase: Phase,
                         pending: Option<nat>, caching: bool)

  datatype Step =
    | LuaChecks(h: nat)
    | LuaFrees
    | UsesHandle(h: nat)
    | Initialises
    | PrepareFails
    | Prepares
    | Uses
    | Leaves
    | WorkerChecks(h: nat)
    | WorkerFrees
    | Reconnects
    | FreesCached
    | PingReconnects
    | FreesUnused
    | Ends

  function Init(caching: bool): State {
    State(Owned([], {}, {}, Client({}, {}, {})), [], {}, 0, Idle, None, caching)
  }

  predicate Enabled(s: State, step: Step) {
    match step
    case LuaChecks(h) => s.pending.None? && h < |s.owned.handles|
    case LuaFrees => s.pending.Some? && Known(s, s.pending.value)
    case UsesHandle(h) => s.phase.Idle? && h < |s.owned.handles| && s.owned.handles[h].IsValid()
    case Initialises => s.phase.Idle?
    case PrepareFails => s.phase.Preparing?
    case Prepares => s.phase.Preparing?
    case Uses => s.phase.Holding?
    case Leaves => s.phase.Holding?
    case WorkerChecks(h) => s.phase.Idle? && h < |s.owned.handles|
    case WorkerFrees => s.phase.Freeing? && Known(s, s.phase.handle)
    case Reconnects => s.phase.Idle?
    case FreesCached => s.phase.Reconnected?
    case PingReconnects => s.phase.Idle?
    case FreesUnused => s.phase.Idle?
    case Ends => s.phase.Idle?
  }

  function Closed(o: Owned, x: Stmt): Owned {
    o.(client := o.client.Closing(x))
  }

  function Opened(o: Owned, x: Stmt): Owned {
    o.(client := o.client.(open := o.client.open + {x}))
  }

  /** A statement whose preparation failed is closed only when statements are not cached. */
  function DoPrepareFails(s: State): State
    requires s.phase.Preparing?
  {
    if s.caching then s.(leaked := s.leaked + {s.phase.raw}, phase := Idle)
    else s.(owned := Closed(s.owned, s.phase.raw), phase := Idle)
  }

  function DoPrepares(s: State): State
    requires s.phase.Preparing?
  {
    s.(owned := if s.caching then Cached(s.owned, s.phase.raw) else s.owned, phase := Holding(s.phase.raw))
  }

  function DoLeaves(s: State): State
    requires s.phase.Holding?
  {
    s.(owned := if s.caching then s.owned else Closed(s.owned, s.phase.stmt), phase := Idle)
  }

  /** A step that cannot be taken changes nothing. */
  function Next(s: State, step: Step): State {
    if !Enabled(s, step) then s
    else
      match step
      case LuaChecks(h) => if s.owned.handles[h].IsValid() then s.(pending := Some(h)) else s
      case LuaFrees => s.(owned := FreedHandle(s.owned, s.pending.value), pending := None)
      case UsesHandle(h) => s.(phase := Holding(s.owned.handles[h].stmt.value))
      case Initialises =>
        s.(owned := Opened(s.owned, |s.made|), made := s.made + [s.connection], phase := Preparing(|s.made|))
      case PrepareFails => DoPrepareFails(s)
      case Prepares => DoPrepares(s)
      case Uses => s.(owned := s.owned.(client := s.owned.client.Using(s.phase.stmt)))
      case Leaves => DoLeaves(s)
      case WorkerChecks(h) => if s.owned.handles[h].IsValid() then s.(phase := Freeing(h)) else s
      case WorkerFrees => s.(owned := FreedHandle(s.owned, s.phase.handle), phase := Idle)
      case Reconnects => s.(connection := s.connection + 1, phase := Reconnected)
      case FreesCached => s.(owned := AllFreed(s.owned), phase := Idle)
      case PingReconnects => s.(connection := s.connection + 1)
      case FreesUnused => s.(owned := UnusedFreed(s.owned))
      case Ends => s.(owned := AllFreed(s.owned), phase := Ended)
  }

  predicate CanRun(s: State, steps: seq<Step>)
    decreases |steps|
  {
    steps == [] || (Enabled(s, steps[0]) && CanRun(Next(s, steps[0]), steps[1..]))
  }

  function Run(s: State, steps: seq<Step>): State
    decreases |steps|
  {
    if steps == [] then s else Run(Next(s, steps[0]), steps[1..])
  }

  // ---------------------------------------------------------------------------------------------------------
  // Invariant
  // ---------------------------------------------------------------------------------------------------------

  /** A statement only the database thread's local variable refers to. */
  function InHand(s: State): set<Stmt> {
    match s.phase
    case Preparing(x) => {x}
    case Holding(x) => if s.caching then {} else {x}
    case _ => {}
  }

  predicate Known(s: State, h: nat) {
    h < |s.owned.handles| && s.owned.handles[h].stmt.Some?
  }

  /** Every statement ever initialised is closed or open, and an open one is owned by exactly one of the cached
      handles, the freed set, the database thread's local variable, or nobody. */
  ghost predicate Accounted(s: State) {
    var c := s.owned.client;
    && (forall x: Stmt :: x < |s.made| <==> x in c.open || x in c.closed)
    && c.open !! c.closed && c.misused == {}
    && c.open == s.owned.CachedStmts() + s.owned.freed + s.leaked + InHand(s)
    && s.leaked !! s.owned.CachedStmts() + s.owned.freed
    && InHand(s) !! s.owned.CachedStmts() + s.owned.freed + s.leaked
  }

  ghost predicate Inv(s: State) {
    && s.owned.Sound() && Accounted(s)
    && (s.phase.Holding? ==> s.phase.stmt in s.owned.client.open)
    && (s.phase.Freeing? ==> Known(s, s.phase.handle)) && (s.pending.Some? ==> Known(s, s.pending.value))
    && (s.phase.Ended? ==> s.owned.cached == {} && s.owned.freed == {})
    && (!s.caching ==> s.owned.cached == {})
  }

  lemma OwnedIsOpen(s: State, h: nat)
    requires Inv(s) && h in s.owned.cached
    ensures s.owned.handles[h].stmt.value in s.owned.CachedStmts()
  {
  }

  lemma FreeKeeps(s: State, h: nat, t: State)
    requires Inv(s) && Known(s, h)
    requires t == s.(owned := FreedHandle(s.owned, h), pending := None)
             || (s.phase.Freeing? && t == s.(owned := FreedHandle(s.owned, h), phase := Idle))
    ensures Inv(t)
  {
    FreedHandleSound(s.owned, h);
    if h in s.owned.cached {
      OwnedIsOpen(s, h);
    }
  }

  lemma AllFreedKeeps(s: State, t: State)
    requires Inv(s) && InHand(s) == {}
    requires t == s.(owned := AllFreed(s.owned), phase := Idle) || t == s.(owned := AllFreed(s.owned), phase := Ended)
    ensures Inv(t)
  {
    AllFreedSound(s.owned);
    AllFreedAccounted(s, t);
  }

  lemma AllFreedAccounted(s: State, t: State)
    requires Inv(s) && InHand(s) == {} && t.owned == AllFreed(s.owned) && t.made == s.made && t.leaked == s.leaked
    requires InHand(t) == {}
    ensures Accounted(t)
  {
    AllFreedSound(s.owned);
    assert t.owned.client.open == s.leaked;
  }

  lemma UnusedFreedKeeps(s: State)
    requires Inv(s) && s.phase.Idle?
    ensures Inv(s.(owned := UnusedFreed(s.owned)))
  {
    UnusedFreedSound(s.owned);
  }

  lemma InitialisesKeeps(s: State)
    requires Inv(s) && s.phase.Idle?
    ensures Inv(Next(s, Initialises))
  {
    assert |s.made| !in s.owned.client.open;
    assert Next(s, Initialises).owned.CachedStmts() == s.owned.CachedStmts();
  }

  lemma ClosesInHandKeeps(s: State, x: Stmt)
    requires Inv(s) && InHand(s) == {x}
    ensures Inv(s.(owned := Closed(s.owned, x), phase := Idle))
  {
    assert Closed(s.owned, x).CachedStmts() == s.owned.CachedStmts();
  }

  lemma PreparesKeeps(s: State)
    requires Inv(s) && s.phase.Preparing?
    ensures Inv(DoPrepares(s))
  {
    if s.caching {
      CachedSound(s.owned, s.phase.raw);
    }
  }

  lemma StepKeeps(s: State, step: Step)
    requires Inv(s) && Enabled(s, step)
    ensures Inv(Next(s, step))
  {
    match step
    case LuaFrees => FreeKeeps(s, s.pending.value, Next(s, step));
    case WorkerFrees => FreeKeeps(s, s.phase.handle, Next(s, step));
    case UsesHandle(h) => OwnedIsOpen(s, h);
    case Initialises => InitialisesKeeps(s);
    case PrepareFails => if !s.caching { ClosesInHandKeeps(s, s.phase.raw); }
    case Prepares => PreparesKeeps(s);
    case Leaves => if !s.caching { ClosesInHandKeeps(s, s.phase.stmt); }
    case FreesCached => AllFreedKeeps(s, Next(s, step));
    case FreesUnused => UnusedFreedKeeps(s);
    case Ends => AllFreedKeeps(s, Next(s, step));
    case LuaChecks(_) =>
    case WorkerChecks(_) =>
    case Uses =>
    case Reconnects =>
    case PingReconnects =>
  }

  lemma {:induction false} RunKeeps(s: State, steps: seq<Step>)
    requires Inv(s) && CanRun(s, steps)
    ensures Inv(Run(s, steps))
    decreases |steps|
  {
    if steps != [] {
      StepKeeps(s, steps[0]);
      RunKeeps(Next(s, steps[0]), steps[1..]);
    }
  }

  // ---------------------------------------------------------------------------------------------------------
  // Main results
  // ---------------------------------------------------------------------------------------------------------

  /** In every reachable state a handle is valid if and only if it is cached, cached and freed statements are disjoint
      and all open, and no statement has been closed twice or used after it was closed. */
  lemma HandlesOverRuns(caching: bool, steps: seq<Step>)
    requires CanRun(Init(caching), steps)
    ensures var o := Run(Init(caching), steps).owned;
      && (forall h :: 0 <= h < |o.handles| ==> (o.handles[h].IsValid() <==> h in o.cached))
      && (forall g, h :: g in o.cached && h in o.cached && g != h ==>
            g < |o.handles| && h < |o.handles| && o.handles[g].stmt != o.handles[h].stmt)
      && (forall h :: h in o.cached ==>
            h < |o.handles| && o.handles[h].stmt.Some? && o.handles[h].stmt.value in o.client.open - o.freed)
      && o.freed <= o.client.open && o.client.misused == {}
  {
    RunKeeps(Init(caching), steps);
    var s := Run(Init(caching), steps);
    forall h | h in s.owned.cached
      ensures s.owned.handles[h].stmt.Some? && s.owned.handles[h].stmt.value in s.owned.client.open - s.owned.freed
    {
      OwnedIsOpen(s, h);
    }
  }

  /** Once the thread's loop has ended, whatever the Lua thread does afterwards: no statement is cached or freed, no
      handle is valid, and the statements left open are those that leaked. */
  lemma EndLeavesNothing(caching: bool, steps: seq<Step>)
    requires CanRun(Init(caching), steps) && Run(Init(caching), steps).phase.Ended?
    ensures var s := Run(Init(caching), steps); var o := s.owned;
      && o.cached == {} && o.freed == {} && o.client.open == s.leaked
      && (forall h :: 0 <= h < |o.handles| ==> !o.handles[h].IsValid())
      && (forall x: Stmt :: x < |s.made| && x !in s.leaked ==> x in o.client.closed)
  {
    RunKeeps(Init(caching), steps);
    assert Run(Init(caching), steps).owned.CachedStmts() == {};
  }

  lemma {:induction false} LeaksWhenPreparing(s: State, steps: seq<Step>)
    requires CanRun(s, steps)
    ensures Run(s, steps).caching == s.caching
    ensures Run(s, steps).leaked == {} <==> s.leaked == {} && (s.caching ==> PrepareFails !in steps)
    decreases |steps|
  {
    if steps != [] {
      LeaksWhenPreparing(Next(s, steps[0]), steps[1..]);
      assert steps == [steps[0]] + steps[1..];
    }
  }

  /** At the end every statement that was initialised has been closed, exactly once, if and only if no preparation
      failed while statements were cached. */
  lemma AllClosedIff(caching: bool, steps: seq<Step>)
    requires CanRun(Init(caching), steps) && Run(Init(caching), steps).phase.Ended?
    ensures Run(Init(caching), steps).owned.client.open == {} <==> (caching ==> PrepareFails !in steps)
  {
    EndLeavesNothing(caching, steps);
    LeaksWhenPreparing(Init(caching), steps);
  }

  // ---------------------------------------------------------------------------------------------------------
  // Reconnects
  // ---------------------------------------------------------------------------------------------------------

  /** What a query can pick up or holds was prepared on the current connection. */
  ghost predicate Current(s: State) {
    && (forall h :: h in s.owned.cached ==>
          Known(s, h) && s.owned.handles[h].stmt.value < |s.made|
          && s.made[s.owned.handles[h].stmt.value] == s.connection)
    && (s.phase.Holding? ==> s.phase.stmt < |s.made| && s.made[s.phase.stmt] == s.connection)
    && (s.phase.Preparing? ==> s.phase.raw < |s.made| && s.made[s.phase.raw] == s.connection)
  }

  /** Every reconnect by a ping finds no cached statement. */
  predicate PingsFindNone(s: State, steps: seq<Step>)
    requires CanRun(s, steps)
    decreases |steps|
  {
    steps == []
    || ((steps[0] == PingReconnects ==> s.owned.cached == {}) && PingsFindNone(Next(s, steps[0]), steps[1..]))
  }

  lemma CurrentStep(s: State, step: Step)
    requires Inv(s) && Enabled(s, step) && (s.phase.Reconnected? || Current(s))
    requires step == PingReconnects ==> s.owned.cached == {}
    ensures Next(s, step).phase.Reconnected? || Current(Next(s, step))
  {
    AllFreedSound(s.owned);
  }

  lemma {:induction false} CurrentRun(s: State, steps: seq<Step>)
    requires Inv(s) && CanRun(s, steps) && PingsFindNone(s, steps) && (s.phase.Reconnected? || Current(s))
    ensures var t := Run(s, steps); t.phase.Reconnected? || Current(t)
    decreases |steps|
  {
    if steps != [] {
      StepKeeps(s, steps[0]);
      CurrentStep(s, steps[0]);
      CurrentRun(Next(s, steps[0]), steps[1..]);
    }
  }

  /** A query never gets hold of a statement of an earlier connection, unless a ping reconnected while statements were
      cached: after the reconnect of a retry, all of them are freed before anything is executed. */
  lemma NoStaleStatements(caching: bool, steps: seq<Step>)
    requires CanRun(Init(caching), steps) && PingsFindNone(Init(caching), steps)
    ensures var s := Run(Init(caching), steps);
      && (s.phase.Reconnected? || Current(s))
      && (s.phase.Holding? ==> s.made[s.phase.stmt] == s.connection)
  {
    CurrentRun(Init(caching), steps);
  }

  /** A ping that reconnects leaves only current statements if and only if none was cached. */
  lemma PingKeepsCurrentIff(s: State)
    requires Inv(s) && s.phase.Idle? && Current(s)
    ensures Current(Next(s, PingReconnects)) <==> s.owned.cached == {}
  {
    if h :| h in s.owned.cached {
      assert Next(s, PingReconnects).made[s.owned.handles[h].stmt.value] != s.connection + 1;
    }
  }

  lemma Before(s: State, step: Step, rest: seq<Step>)
    requires Enabled(s, step) && CanRun(Next(s, step), rest)
    ensures CanRun(s, [step] + rest) && Run(s, [step] + rest) == Run(Next(s, step), rest)
  {
    assert ([step] + rest)[1..] == rest;
  }

  /** After such a ping a query uses a statement of the closed connection. */
  lemma StaleAfterPing() returns (steps: seq<Step>)
    ensures CanRun(Init(true), steps)
    ensures var s := Run(Init(true), steps);
      s.phase.Holding? && s.phase.stmt < |s.made| && s.made[s.phase.stmt] != s.connection
  {
    var s1 := Next(Init(true), Initialises);
    var s2 := Next(s1, Prepares);
    var s3 := Next(s2, Leaves);
    var s4 := Next(s3, PingReconnects);
    Before(s4, UsesHandle(0), []);
    Before(s3, PingReconnects, [UsesHandle(0)] + []);
    Before(s2, Leaves, [PingReconnects] + ([UsesHandle(0)] + []));
    Before(s1, Prepares, [Leaves] + ([PingReconnects] + ([UsesHandle(0)] + [])));
    steps := [Prepares] + ([Leaves] + ([PingReconnects] + ([UsesHandle(0)] + [])));
    Before(Init(true), Initialises, steps);
    steps := [Initialises] + steps;
  }

  // ---------------------------------------------------------------------------------------------------------
  // In which order the threads do what they do
  // ---------------------------------------------------------------------------------------------------------

  /** A step of the database thread, and whether the handle it looked at was valid. */
  datatype Did = Did(step: Step, valid: bool)

  predicate OfLua(step: Step) {
    step.LuaChecks? || step.LuaFrees?
  }

  function DidAt(s: State, step: Step): Did {
    Did(step, step.WorkerChecks? && step.h < |s.owned.handles| && s.owned.handles[step.h].IsValid())
  }

  /** What the database thread did last in a run that continues one whose last was `last`. */
  function LastDid(s: State, steps: seq<Step>, last: Option<Did>): Option<Did>
    decreases |steps|
  {
    if steps == [] then last
    else LastDid(Next(s, steps[0]), steps[1..], if OfLua(steps[0]) then last else Some(DidAt(s, steps[0])))
  }

  /** The thread is between two executions. */
  predicate Between(last: Option<Did>) {
    last.None? ||
    match last.value.step
    case PrepareFails => true
    case Leaves => true
    case WorkerChecks(_) => !last.value.valid
    case WorkerFrees => true
    case FreesCached => true
    case PingReconnects => true
    case FreesUnused => true
    case _ => false
  }

  /** The thread has a statement to execute. */
  predicate HasStatement(last: Option<Did>) {
    last.Some? && (last.value.step.UsesHandle? || last.value.step.Prepares? || last.value.step.Uses?)
  }

  /** What comes after what: a preparation ends or fails, a statement is used until it is left, the two parts of
      freeing a handle belong together, and after the reconnect of a retry the cached statements are freed before
      anything else. */
  predicate Follows(last: Option<Did>, step: Step) {
    match step
    case PrepareFails => last.Some? && last.value.step.Initialises?
    case Prepares => last.Some? && last.value.step.Initialises?
    case Uses => HasStatement(last)
    case Leaves => HasStatement(last)
    case WorkerFrees => last.Some? && last.value.step.WorkerChecks? && last.value.valid
    case FreesCached => last.Some? && last.value.step.Reconnects?
    case _ => Between(last)
  }

  predicate Reaches(last: Option<Did>, phase: Phase) {
    if last.None? then phase == Idle
    else
      match last.value.step
      case LuaChecks(_) => false
      case LuaFrees => false
      case Initialises => phase.Preparing?
      case UsesHandle(_) => phase.Holding?
      case Prepares => phase.Holding?
      case Uses => phase.Holding?
      case WorkerChecks(h) => if last.value.valid then phase == Freeing(h) else phase == Idle
      case Reconnects => phase == Reconnected
      case Ends => phase == Ended
      case _ => phase == Idle
  }

  lemma ReachesStep(s: State, step: Step, last: Option<Did>)
    requires Enabled(s, step) && Reaches(last, s.phase)
    ensures Reaches(if OfLua(step) then last else Some(DidAt(s, step)), Next(s, step).phase)
  {
  }

  lemma {:induction false} ReachesRun(s: State, steps: seq<Step>, last: Option<Did>)
    requires CanRun(s, steps) && Reaches(last, s.phase)
    ensures Reaches(LastDid(s, steps, last), Run(s, steps).phase)
    decreases |steps|
  {
    if steps != [] {
      ReachesStep(s, steps[0], last);
      ReachesRun(Next(s, steps[0]), steps[1..], if OfLua(steps[0]) then last else Some(DidAt(s, steps[0])));
    }
  }

  lemma EnabledIff(s: State, last: Option<Did>, step: Step)
    requires Reaches(last, s.phase) && Inv(s) && !OfLua(step)
    ensures Enabled(s, step)
            <==> && Follows(last, step)
                 && (step.UsesHandle? ==> step.h < |s.owned.handles| && s.owned.handles[step.h].IsValid())
                 && (step.WorkerChecks? ==> step.h < |s.owned.handles|)
  {
  }

  /** In every reachable state the database thread can take exactly the steps that follow its last one; a handle it
      picks up is valid then, and one it looks at exists. */
  lemma WorkerOrderIff(caching: bool, steps: seq<Step>, step: Step)
    requires CanRun(Init(caching), steps) && !OfLua(step)
    ensures var s := Run(Init(caching), steps);
      Enabled(s, step)
      <==> && Follows(LastDid(Init(caching), steps, None), step)
           && (step.UsesHandle? ==> step.h < |s.owned.handles| && s.owned.handles[step.h].IsValid())
           && (step.WorkerChecks? ==> step.h < |s.owned.handles|)
  {
    ReachesRun(Init(caching), steps, None);
    RunKeeps(Init(caching), steps);
    EnabledIff(Run(Init(caching), steps), LastDid(Init(caching), steps, None), step);
  }

  /** How often a run connects again. */
  function Reconnections(steps: seq<Step>): nat {
    if steps == [] then 0 else (if steps[0].Reconnects? || steps[0].PingReconnects? then 1 else 0)
                               + Reconnections(steps[1..])
  }

  lemma {:induction false} ConnectionCounts(s: State, steps: seq<Step>)
    requires CanRun(s, steps)
    ensures Run(s, steps).connection == s.connection + Reconnections(steps)
    decreases |steps|
  {
    if steps != [] {
      ConnectionCounts(Next(s, steps[0]), steps[1..]);
    }
  }

  /** Handing an unused statement back, and getting it closed: a handle the Lua thread sees valid it frees next,
      whatever the other thread does between; a cached one is then freed and no longer valid; and the next clean-up
      of the database thread closes it, with everything freed before, and nothing else. */
  lemma FreedIsClosed(s: State, h: nat)
    requires Inv(s) && s.pending.None? && h in s.owned.cached
    ensures var checked := Next(s, LuaChecks(h)); var freed := Next(checked, LuaFrees);
      && Enabled(s, LuaChecks(h)) && checked == s.(pending := Some(h)) && Enabled(checked, LuaFrees)
      && freed.pending == None && freed.owned.cached == s.owned.cached - {h} && !freed.owned.handles[h].IsValid()
      && freed.owned.freed == s.owned.freed + {s.owned.handles[h].stmt.value}
      && freed.owned.client == s.owned.client
      && (s.phase == Idle ==>
            var cleaned := Next(freed, FreesUnused);
            && Enabled(freed, FreesUnused) && cleaned.owned.freed == {} && cleaned.owned.cached == freed.owned.cached
            && cleaned.owned.client.closed == s.owned.client.closed + freed.owned.freed
            && cleaned.owned.client.open == s.owned.client.open - freed.owned.freed)
  {
    OwnedIsOpen(s, h);
    assert s.owned.freed <= s.owned.client.open;
    var freed := Next(Next(s, LuaChecks(h)), LuaFrees);
    assert freed.owned.freed * s.owned.client.open == freed.owned.freed;
  }

  /** A handle that is no longer valid is left alone. */
  lemma InvalidIsLeft(s: State, h: nat)
    requires h < |s.owned.handles| && !s.owned.handles[h].IsValid()
    ensures Next(s, LuaChecks(h)) == s && Next(s, WorkerChecks(h)) == s
  {
  }

  /** In any state a step is misuse of exactly those statements that it uses or closes and that are not open. */
  lemma MisuseIff(s: State, step: Step, x: Stmt)
    requires Enabled(s, step) && x !in s.owned.client.misused
    ensures x in Next(s, step).owned.client.misused
            <==> x !in s.owned.client.open
                 && match step
                    case Uses => x == s.phase.stmt
                    case Leaves => !s.caching && x == s.phase.stmt
                    case PrepareFails => !s.caching && x == s.phase.raw
                    case FreesUnused => x in s.owned.freed
                    case FreesCached => x in s.owned.CachedStmts() || x in s.owned.freed
                    case Ends => x in s.owned.CachedStmts() || x in s.owned.freed
                    case _ => false
  {
  }

  /** The handle the Lua thread has seen valid and not yet freed, by its steps alone. */
  function Seen(s: State, steps: seq<Step>, last: Option<nat>): Option<nat>
    decreases |steps|
  {
    if steps == [] then last
    else
      var now := match steps[0]
        case LuaChecks(h) => if h < |s.owned.handles| && s.owned.handles[h].IsValid() then Some(h) else last
        case LuaFrees => None
        case _ => last;
      Seen(Next(s, steps[0]), steps[1..], now)
  }

  lemma {:induction false} SeenRun(s: State, steps: seq<Step>)
    requires CanRun(s, steps)
    ensures Run(s, steps).pending == Seen(s, steps, s.pending)
    decreases |steps|
  {
    if steps != [] {
      SeenRun(Next(s, steps[0]), steps[1..]);
    }
  }

  /** In every reachable state the Lua thread frees exactly a handle it has seen valid, and looks at no other before. */
  lemma LuaOrderIff(caching: bool, steps: seq<Step>, h: nat)
    requires CanRun(Init(caching), steps)
    ensures var s := Run(Init(caching), steps); var seen := Seen(Init(caching), steps, None);
      && (Enabled(s, LuaFrees) <==> seen.Some?) && s.pending == seen
      && (Enabled(s, LuaChecks(h)) <==> seen.None? && h < |s.owned.handles|)
  {
    SeenRun(Init(caching), steps);
    RunKeeps(Init(caching), steps);
  }
}
