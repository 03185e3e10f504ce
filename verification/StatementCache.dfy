/** The prepared statements a database owns, and the loops that close them. */
module Statements {
  import opened QueryTypes

  /** A `MYSQL_STMT` of the client library, by identity. */
  type Stmt = nat

  /** A `StatementHandle`. */
  datatype Handle = Handle(stmt: Option<Stmt>, valid: bool)
  {
    predicate IsValid() {
      stmt.Some? && valid
    }
  }

  /** The statements of the client library: closing or using one that is not open is misuse. */
  datatype Client = Client(open: set<Stmt>, closed: set<Stmt>, misused: set<Stmt>)
  {
    function Closing(x: Stmt): Client {
      if x in open then Client(open - {x}, closed + {x}, misused) else this.(misused := misused + {x})
    }

    function ClosingAll(xs: set<Stmt>): Client {
      Client(open - xs, closed + xs * open, misused + (xs - open))
    }

    function Using(x: Stmt): Client {
      if x in open then this else this.(misused := misused + {x})
    }
  }

  /** Handles are named by the order in which they were made. */
  datatype Owned = Owned(handles: seq<Handle>, cached: set<nat>, freed: set<Stmt>, client: Client)
  {
    /** The statements of the cached handles. */
    function CachedStmts(): set<Stmt> {
      StmtsOf(handles, cached)
    }

    /** A handle is valid exactly while it is cached, cached handles own different statements, and every statement that
        is cached or freed is open and only one of both. */
    ghost predicate Sound() {
      && (forall h :: h in cached ==> 0 <= h < |handles|)
      && (forall h :: 0 <= h < |handles| ==> (handles[h].IsValid() <==> h in cached))
      && (forall g, h :: g in cached && h in cached && g != h ==> handles[g].stmt != handles[h].stmt)
      && CachedStmts() !! freed && CachedStmts() <= client.open && freed <= client.open
    }
  }

  function StmtsOf(handles: seq<Handle>, hs: set<nat>): set<Stmt> {
    set h | h in hs && h < |handles| && handles[h].stmt.Some? :: handles[h].stmt.value
  }

  function Invalidated(handles: seq<Handle>, h: nat): (r: seq<Handle>)
    requires h < |handles|
  {
    handles[h := handles[h].(valid := false)]
  }

  /** `cacheStatement` of a statement. */
  function Cached(o: Owned, x: Stmt): Owned {
    o.(handles := o.handles + [Handle(Some(x), true)], cached := o.cached + {|o.handles|})
  }

  /** The part of `freeStatement` that holds the mutex. */
  function FreedHandle(o: Owned, h: nat): Owned
    requires h < |o.handles| && o.handles[h].stmt.Some?
  {
    if h in o.cached
    then Owned(Invalidated(o.handles, h), o.cached - {h}, o.freed + {o.handles[h].stmt.value}, o.client)
    else o.(handles := Invalidated(o.handles, h))
  }

  /** `freeCachedStatements`. */
  function AllFreed(o: Owned): Owned {
    Owned(AllInvalidated(o.handles, o.cached), {}, {}, o.client.ClosingAll(o.CachedStmts() + o.freed))
  }

  function AllInvalidated(handles: seq<Handle>, hs: set<nat>): (r: seq<Handle>)
    ensures |r| == |handles|
    ensures forall h :: 0 <= h < |handles| ==> r[h] == if h in hs then handles[h].(valid := false) else handles[h]
  {
    seq(|handles|, h requires 0 <= h < |handles| => if h in hs then handles[h].(valid := false) else handles[h])
  }

  /** `freeUnusedStatements`. */
  function UnusedFreed(o: Owned): Owned {
    o.(freed := {}, client := o.client.ClosingAll(o.freed))
  }

  /** The statement fields of a database. */
  class StatementOwner {
    var handles: seq<Handle>
    var cachedStatements: set<nat>
    var freedStatements: set<Stmt>
    var client: Client

    constructor ()
      ensures View() == Owned([], {}, {}, Client({}, {}, {})) && View().Sound()
    {
      handles, cachedStatements, freedStatements, client := [], {}, {}, Client({}, {}, {});
    }

    function View(): Owned
      reads this
    {
      Owned(handles, cachedStatements, freedStatements, client)
    }

    /** A null statement gets a handle that nobody owns. */
    method CacheStatement(stmt: Option<Stmt>) returns (handle: nat)
      modifies this
      ensures handle == old(|handles|)
      ensures View() == if stmt.None? then old(View()).(handles := old(handles) + [Handle(None, false)])
                        else Cached(old(View()), stmt.value)
    {
      handle := |handles|;
      if stmt.None? {
        handles := handles + [Handle(None, false)];
        return;
      }
      handles := handles + [Handle(stmt, true)];
      cachedStatements := cachedStatements + {handle};
    }

    /** What the caller saw before it took the mutex may be outdated: nothing is required of the handle's validity. */
    method FreeLocked(h: nat)
      requires h < |handles| && handles[h].stmt.Some?
      modifies this
      ensures View() == FreedHandle(old(View()), h)
    {
      if h in cachedStatements {
        cachedStatements := cachedStatements - {h};
        freedStatements := freedStatements + {handles[h].stmt.value};
      }
      handles := handles[h := handles[h].(valid := false)];
    }

    method FreeStatement(handle: Option<nat>)
      requires handle.Some? ==> handle.value < |handles|
      modifies this
      ensures View() == if handle.Some? && old(handles)[handle.value].IsValid()
                        then FreedHandle(old(View()), handle.value) else old(View())
    {
      if handle.None? || !handles[handle.value].IsValid() {
        return;
      }
      FreeLocked(handle.value);
    }

    method CloseStmt(x: Stmt)
      modifies this`client
      ensures client == old(client).Closing(x)
    {
      client := client.Closing(x);
    }

    /** Close every statement that is still in `xs`. */
    method CloseAll(xs: set<Stmt>)
      modifies this`client
      ensures client == old(client).ClosingAll(xs)
    {
      var todo := xs;
      while todo != {}
        invariant todo <= xs
        invariant client == old(client).ClosingAll(xs - todo)
      {
        var x :| x in todo;
        todo := todo - {x};
        ghost var before := client;
        CloseStmt(x);
        assert client == old(client).ClosingAll(xs - todo) by {
          assert xs - todo == (xs - todo - {x}) + {x};
        }
      }
      assert xs - {} == xs;
    }

    method FreeUnusedStatements()
      modifies this
      ensures View() == UnusedFreed(old(View()))
    {
      CloseAll(freedStatements);
      freedStatements := {};
    }

    method FreeCachedStatements()
      requires View().Sound()
      modifies this
      ensures View() == AllFreed(old(View())) && View().Sound()
    {
      ghost var o := View();
      var todo := cachedStatements;
      while todo != {}
        invariant todo <= cachedStatements == o.cached && freedStatements == o.freed && |handles| == |o.handles|
        invariant handles == AllInvalidated(o.handles, o.cached - todo)
        invariant client == o.client.ClosingAll(StmtsOf(o.handles, o.cached - todo))
      {
        var h :| h in todo;
        todo := todo - {h};
        OneMore(o, todo, h);
        if !handles[h].IsValid() {
          continue;
        }
        CloseStmt(handles[h].stmt.value);
        handles := handles[h := handles[h].(valid := false)];
      }
      assert o.cached - {} == o.cached;
      cachedStatements := {};
      CloseAll(freedStatements);
      freedStatements := {};
      AllFreedSound(o);
    }
  }

  /** One iteration of the closing loop. */
  lemma OneMore(o: Owned, todo: set<nat>, h: nat)
    requires o.Sound() && todo <= o.cached && h in o.cached && h !in todo
    ensures o.client.ClosingAll(StmtsOf(o.handles, o.cached - todo - {h})).Closing(o.handles[h].stmt.value)
            == o.client.ClosingAll(StmtsOf(o.handles, o.cached - todo))
  {
    var x := o.handles[h].stmt.value;
    var done := StmtsOf(o.handles, o.cached - todo - {h});
    assert StmtsOf(o.handles, o.cached - todo) == done + {x};
    assert x in o.client.open && x !in done;
    assert o.client.open - (done + {x}) == o.client.open - done - {x};
  }

  // ---------------------------------------------------------------------------------------------------------
  // Every operation keeps the ownership sound
  // ---------------------------------------------------------------------------------------------------------

  lemma AllFreedSound(o: Owned)
    requires o.Sound()
    ensures AllFreed(o).Sound() && AllFreed(o).CachedStmts() == {}
    ensures AllFreed(o).client.misused == o.client.misused
    ensures forall h :: 0 <= h < |o.handles| ==> !AllFreed(o).handles[h].IsValid()
  {
  }

  /** It closes every statement the database owns, and no other. */
  lemma AllFreedCloses(o: Owned)
    requires o.Sound()
    ensures var owned := o.CachedStmts() + o.freed;
      AllFreed(o).client == Client(o.client.open - owned, o.client.closed + owned, o.client.misused)
  {
    var owned := o.CachedStmts() + o.freed;
    assert owned * o.client.open == owned && owned - o.client.open == {};
  }

  /** The clean-up after a query closes every freed statement, and no cached one. */
  lemma UnusedFreedSound(o: Owned)
    requires o.Sound()
    ensures UnusedFreed(o).Sound() && UnusedFreed(o).freed == {} && UnusedFreed(o).cached == o.cached
    ensures UnusedFreed(o).handles == o.handles && UnusedFreed(o).CachedStmts() == o.CachedStmts()
    ensures UnusedFreed(o).client
            == Client(o.client.open - o.freed, o.client.closed + o.freed, o.client.misused)
  {
    assert o.freed * o.client.open == o.freed && o.freed - o.client.open == {};
  }

  /** Caching an open statement that nobody owns. */
  lemma CachedSound(o: Owned, x: Stmt)
    requires o.Sound() && x in o.client.open && x !in o.CachedStmts() && x !in o.freed
    ensures Cached(o, x).Sound() && Cached(o, x).CachedStmts() == o.CachedStmts() + {x}
  {
    var r := Cached(o, x);
    assert r.handles[|o.handles|].stmt == Some(x);
    forall y | y in o.CachedStmts() ensures y in r.CachedStmts() {
      var h :| h in o.cached && h < |o.handles| && o.handles[h].stmt == Some(y);
      assert r.handles[h] == o.handles[h];
    }
    forall h | h in o.cached ensures r.handles[h] == o.handles[h] && r.handles[h].stmt != Some(x) {
      assert o.handles[h].stmt.value in o.CachedStmts();
    }
    assert r.CachedStmts() == o.CachedStmts() + {x};
  }

  /** Freeing a handle, whether or not it is still valid: its statement changes from cached to freed, or nothing
      happens. */
  lemma FreedHandleSound(o: Owned, h: nat)
    requires o.Sound() && h < |o.handles| && o.handles[h].stmt.Some?
    ensures FreedHandle(o, h).Sound()
    ensures FreedHandle(o, h).CachedStmts() == o.CachedStmts() - if h in o.cached then {o.handles[h].stmt.value} else {}
  {
    var r := FreedHandle(o, h);
    var x := o.handles[h].stmt.value;
    assert forall g :: 0 <= g < |o.handles| && g != h ==> r.handles[g] == o.handles[g];
    if h in o.cached {
      assert forall y :: y in o.CachedStmts() && y != x ==> y in r.CachedStmts() by {
        forall y | y in o.CachedStmts() && y != x ensures y in r.CachedStmts() {
          var g :| g in o.cached && g < |o.handles| && o.handles[g].stmt == Some(y);
          assert g in r.cached && r.handles[g] == o.handles[g];
        }
      }
      assert x in o.CachedStmts();
    } else {
      assert r.handles[h].stmt == o.handles[h].stmt;
      assert r.CachedStmts() == o.CachedStmts();
    }
  }
}
