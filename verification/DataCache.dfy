/** The Lua table of the current result set that each query object caches, and who may still see an old one. */
module DataCache {
  import opened QueryTypes
  import opened Results

  type QueryId = nat
  type DataId = nat

  /** A Lua reference; 0 is none. */
  type Ref = nat

  /** A row as a Lua table, keyed by column number or by column name. */
  datatype RowTable = RowTable(numeric: bool, values: seq<string>)

  type Table = seq<RowTable>

  datatype QueryObject = QueryObject(callback: Option<DataId>, reference: Ref, numeric: bool)

  /** A data object and the query it was built by. */
  datatype DataObject = DataObject(owner: QueryId, view: DataView)

  /** What a table was made from: the query's option at that time, and the rows. */
  datatype Origin = Origin(numeric: bool, rows: ResultSet)

  /** A live reference, the query whose cache it is, its table, and where the table came from, which no step looks
      at. */
  datatype Cached = Cached(owner: QueryId, table: Table, origin: Origin)

  datatype World = World(queries: map<QueryId, QueryObject>, data: map<DataId, DataObject>, refs: map<Ref, Cached>,
                         next: Ref)
  {
    /** Callback data exists and was built by the query, and references and cached tables correspond. */
    ghost predicate Valid() {
      && next > 0 && (forall r :: r in refs ==> 0 < r < next)
      && (forall q :: q in queries && queries[q].callback.Some? ==>
            queries[q].callback.value in data && data[queries[q].callback.value].owner == q)
      && (forall q :: q in queries && queries[q].reference != 0 ==>
            queries[q].reference in refs && refs[queries[q].reference].owner == q)
      && (forall r :: r in refs ==> refs[r].owner in queries && queries[refs[r].owner].reference == r)
      && (forall r :: r in refs ==> refs[r].table == Decoded(refs[r].origin.numeric, refs[r].origin.rows))
    }

    /** The data's query exists. */
    predicate Owned(q: QueryId, d: DataId) {
      q in queries && d in data && data[d].owner == q
    }
  }

  /** The table of a result set. */
  function Decoded(numeric: bool, rows: ResultSet): Table {
    seq(|rows|, i requires 0 <= i < |rows| => RowTable(numeric, rows[i]))
  }

  /** The rows of the current result set of a data object; none when no set is left. */
  function Front(v: DataView): ResultSet {
    if v.HasMore() then v.results[0] else []
  }

  /** The table of the current result set. */
  function Current(numeric: bool, v: DataView): Table {
    Decoded(numeric, Front(v))
  }

  // ---------------------------------------------------------------------------------------------------------
  // Operations, on values
  // ---------------------------------------------------------------------------------------------------------

  function Freed(w: World, q: QueryId): World
    requires q in w.queries
  {
    var o := w.queries[q];
    if o.reference == 0 then w
    else w.(queries := w.queries[q := o.(reference := 0)], refs := w.refs - {o.reference})
  }

  function Created(w: World, q: QueryId, d: DataId): World
    requires q in w.queries && d in w.data
  {
    var o := w.queries[q];
    if o.reference != 0 then w
    else
      var rows := if o.callback.Some? then Front(w.data[d].view) else [];
      w.(queries := w.queries[q := o.(reference := w.next)],
         refs := w.refs[w.next := Cached(q, Decoded(o.numeric, rows), Origin(o.numeric, rows))], next := w.next + 1)
  }

  function Pointed(w: World, q: QueryId, d: DataId): World
    requires q in w.queries
  {
    w.(queries := w.queries[q := w.queries[q].(callback := Some(d))])
  }

  /** One member of a successful transaction. */
  function Renewed(w: World, q: QueryId, d: DataId): World
    requires q in w.queries && d in w.data
  {
    Created(Pointed(Freed(w, q), q, d), q, d)
  }

  /** The table a query has cached. */
  function TableOf(w: World, q: QueryId): Table
    requires q in w.queries
  {
    var r := w.queries[q].reference;
    if r in w.refs then w.refs[r].table else []
  }

  /** The members' queries and data exist. */
  predicate AllOwned(w: World, members: seq<(QueryId, DataId)>) {
    forall i :: 0 <= i < |members| ==> w.Owned(members[i].0, members[i].1)
  }

  /** The loop of a transaction's success callback over the first `n` members: the tables it collects. */
  function RenewedAll(w: World, members: seq<(QueryId, DataId)>, n: nat): (r: (World, seq<Table>))
    requires n <= |members| && AllOwned(w, members)
    ensures AllOwned(r.0, members) && |r.1| == n && r.0.data == w.data
  {
    if n == 0 then (w, [])
    else
      var (before, tables) := RenewedAll(w, members, n - 1);
      var (q, d) := members[n - 1];
      var after := Renewed(before, q, d);
      (after, tables + [TableOf(after, q)])
  }

  /** The callbacks of a failed or aborted transaction point the members to their data and free nothing. */
  function PointedAll(w: World, members: seq<(QueryId, DataId)>, n: nat): (r: World)
    requires n <= |members| && AllOwned(w, members)
    ensures AllOwned(r, members) && r.data == w.data
  {
    if n == 0 then w else Pointed(PointedAll(w, members, n - 1), members[n - 1].0, members[n - 1].1)
  }

  function FreedAll(w: World, members: seq<(QueryId, DataId)>, n: nat): (r: World)
    requires n <= |members| && AllOwned(w, members)
    ensures AllOwned(r, members) && r.data == w.data
  {
    if n == 0 then w else Freed(FreedAll(w, members, n - 1), members[n - 1].0)
  }

  /** Nil before a query has callback data and after an error. */
  predicate NoData(w: World, q: QueryId)
    requires q in w.queries
  {
    var c := w.queries[q].callback;
    c.None? || c.value !in w.data || w.data[c.value].view.resultStatus == Error
  }

  function GotData(w: World, q: QueryId): (World, Option<Table>)
    requires q in w.queries
  {
    if NoData(w, q) then (w, None)
    else
      var w' := Created(w, q, w.queries[q].callback.value);
      (w', Some(TableOf(w', q)))
  }

  /** The cache is freed even when there is no next result and the call fails. */
  function GotNext(w: World, q: QueryId): World
    requires q in w.queries
  {
    var w' := Freed(w, q);
    var c := w.queries[q].callback;
    if c.None? || c.value !in w.data then w'
    else w'.(data := w'.data[c.value := w'.data[c.value].(view := w'.data[c.value].view.Popped())])
  }

  // ---------------------------------------------------------------------------------------------------------
  // In place
  // ---------------------------------------------------------------------------------------------------------

  class Script {
    var queries: map<QueryId, QueryObject>
    var data: map<DataId, DataObject>
    var refs: map<Ref, Cached>
    var next: Ref

    constructor ()
      ensures View() == World(map[], map[], map[], 1)
    {
      queries, data, refs, next := map[], map[], map[], 1;
    }

    function View(): World
      reads this
    {
      World(queries, data, refs, next)
    }

    method FreeDataReference(q: QueryId)
      requires q in queries
      modifies this
      ensures View() == Freed(old(View()), q)
    {
      if queries[q].reference != 0 {
        refs := refs - {queries[q].reference};
        queries := queries[q := queries[q].(reference := 0)];
      }
    }

    method CreateDataReference(q: QueryId, d: DataId) returns (ref: Ref)
      requires q in queries && d in data
      modifies this
      ensures View() == Created(old(View()), q, d) && ref == queries[q].reference
    {
      if queries[q].reference != 0 {
        return queries[q].reference;
      }
      var table: Table, rows: ResultSet := [], [];
      assert Decoded(queries[q].numeric, rows) == table;
      if queries[q].callback.Some? && data[d].view.HasMore() {
        rows := data[d].view.results[0];
        var i := 0;
        while i < |rows|
          invariant 0 <= i <= |rows|
          invariant table == Decoded(queries[q].numeric, rows[..i])
        {
          table := table + [RowTable(queries[q].numeric, rows[i])];
          assert rows[..i + 1] == rows[..i] + [rows[i]];
          i := i + 1;
        }
        assert rows[..i] == rows;
      }
      ref := next;
      next := next + 1;
      refs := refs[ref := Cached(q, table, Origin(queries[q].numeric, rows))];
      queries := queries[q := queries[q].(reference := ref)];
    }

    method SetCallbackData(q: QueryId, d: DataId)
      requires q in queries
      modifies this
      ensures View() == Pointed(old(View()), q, d)
    {
      queries := queries[q := queries[q].(callback := Some(d))];
    }

    /** A single query's success, up to its callbacks: `dataReference` is what they are given. */
    method RunSuccess(q: QueryId, d: DataId) returns (dataReference: Ref)
      requires q in queries && d in data
      modifies this
      ensures View() == Created(Freed(Pointed(old(View()), q, d), q), q, d) && dataReference == queries[q].reference
    {
      SetCallbackData(q, d);
      FreeDataReference(q);
      dataReference := CreateDataReference(q, d);
    }

    /** One member of a transaction that succeeded. */
    method RunMember(q: QueryId, d: DataId) returns (table: Table)
      requires View().Owned(q, d) && View().Valid()
      modifies this
      ensures View() == Renewed(old(View()), q, d) && table == TableOf(View(), q)
    {
      RenewedKeeps(View(), q, d);
      FreeDataReference(q);
      SetCallbackData(q, d);
      var ref := CreateDataReference(q, d);
      table := refs[ref].table;
    }

    /** A transaction's success, up to its callback. */
    method RunTransactionSuccess(members: seq<(QueryId, DataId)>) returns (results: seq<Table>)
      requires AllOwned(View(), members) && View().Valid()
      modifies this
      ensures (View(), results) == RenewedAll(old(View()), members, |members|)
    {
      ghost var w := View();
      ghost var done := RenewedAll(w, members, 0);
      results := [];
      var i := 0;
      while i < |members|
        invariant 0 <= i <= |members|
        invariant done == RenewedAll(w, members, i) && View() == done.0 && results == done.1
      {
        RenewedAllKeeps(w, members, i);
        var table := RunMember(members[i].0, members[i].1);
        RenewedAllNext(w, members, i);
        done := RenewedAll(w, members, i + 1);
        results := results + [table];
        i := i + 1;
      }
    }

    method GetData(q: QueryId) returns (table: Option<Table>)
      requires q in queries && View().Valid()
      modifies this
      ensures (View(), table) == GotData(old(View()), q)
    {
      if queries[q].callback.None? || data[queries[q].callback.value].view.resultStatus == Error {
        return None;
      }
      var ref := CreateDataReference(q, queries[q].callback.value);
      return Some(refs[ref].table);
    }

    method GetNextResults(q: QueryId) returns (ok: bool)
      requires q in queries && View().Valid()
      modifies this
      ensures View() == GotNext(old(View()), q)
      ensures ok <==> old(queries)[q].callback.Some? && old(data)[old(queries)[q].callback.value].view.HasMore()
    {
      FreeDataReference(q);
      if queries[q].callback.None? {
        return false;
      }
      var d := queries[q].callback.value;
      if !data[d].view.HasMore() {
        assert data[d := data[d]] == data;
        return false;
      }
      data := data[d := data[d].(view := data[d].view.Popped())];
      return true;
    }
  }

  lemma RenewedAllNext(w: World, members: seq<(QueryId, DataId)>, i: nat)
    requires i < |members| && AllOwned(w, members)
    ensures var (before, tables) := RenewedAll(w, members, i);
      var after := Renewed(before, members[i].0, members[i].1);
      RenewedAll(w, members, i + 1) == (after, tables + [TableOf(after, members[i].0)])
  {
  }

  lemma FreedKeeps(w: World, q: QueryId)
    requires w.Valid() && q in w.queries
    ensures Freed(w, q).Valid() && Freed(w, q).queries[q].reference == 0
  {
  }

  lemma CreatedKeeps(w: World, q: QueryId, d: DataId)
    requires w.Valid() && w.Owned(q, d)
    ensures Created(w, q, d).Valid() && Created(w, q, d).queries[q].reference != 0
  {
  }

  lemma PointedKeeps(w: World, q: QueryId, d: DataId)
    requires w.Valid() && w.Owned(q, d)
    ensures Pointed(w, q, d).Valid()
  {
  }

  /** What a step on the cache of one query leaves alone. */
  predicate OthersStay(w: World, r: World, q: QueryId) {
    && r.data == w.data
    && (forall p :: p in w.queries && p != q ==>
          p in r.queries && r.queries[p] == w.queries[p] && TableOf(r, p) == TableOf(w, p))
  }

  lemma FreedOthers(w: World, q: QueryId)
    requires w.Valid() && q in w.queries
    ensures OthersStay(w, Freed(w, q), q)
  {
  }

  lemma CreatedOthers(w: World, q: QueryId, d: DataId)
    requires w.Valid() && q in w.queries && d in w.data
    ensures OthersStay(w, Created(w, q, d), q)
  {
  }

  /** A member's table is a fresh decoding of its own data. */
  lemma RenewedKeeps(w: World, q: QueryId, d: DataId)
    requires w.Valid() && w.Owned(q, d)
    ensures var r := Renewed(w, q, d);
      && r.Valid() && r.queries[q].reference != 0 && r.queries[q].callback == Some(d)
      && TableOf(r, q) == Current(w.queries[q].numeric, w.data[d].view)
      && r.queries[q].numeric == w.queries[q].numeric && OthersStay(w, r, q)
  {
    var w1 := Freed(w, q);
    var w2 := Pointed(w1, q, d);
    FreedKeeps(w, q);
    PointedKeeps(w1, q, d);
    CreatedKeeps(w2, q, d);
    FreedOthers(w, q);
    assert OthersStay(w1, w2, q);
    CreatedOthers(w2, q, d);
  }

  predicate SameQueries(w: World, r: World) {
    && r.data == w.data
    && (forall q :: q in w.queries ==> q in r.queries && r.queries[q].numeric == w.queries[q].numeric)
  }

  lemma RenewedSame(w: World, q: QueryId, d: DataId)
    requires w.Valid() && w.Owned(q, d)
    ensures Renewed(w, q, d).Valid() && SameQueries(w, Renewed(w, q, d))
  {
    RenewedKeeps(w, q, d);
  }

  lemma {:induction false} RenewedAllKeeps(w: World, members: seq<(QueryId, DataId)>, n: nat)
    requires w.Valid() && n <= |members| && AllOwned(w, members)
    ensures RenewedAll(w, members, n).0.Valid() && SameQueries(w, RenewedAll(w, members, n).0)
  {
    if n > 0 {
      RenewedAllKeeps(w, members, n - 1);
      RenewedSame(RenewedAll(w, members, n - 1).0, members[n - 1].0, members[n - 1].1);
      RenewedAllNext(w, members, n - 1);
    }
  }

  lemma {:induction false} TransactionTablesUpTo(w: World, members: seq<(QueryId, DataId)>, n: nat, i: nat)
    requires w.Valid() && i < n <= |members| && AllOwned(w, members)
    ensures RenewedAll(w, members, n).1[i] == Current(w.queries[members[i].0].numeric, w.data[members[i].1].view)
  {
    if i < n - 1 {
      TransactionTablesUpTo(w, members, n - 1, i);
    } else {
      RenewedAllKeeps(w, members, n - 1);
      RenewedKeeps(RenewedAll(w, members, n - 1).0, members[n - 1].0, members[n - 1].1);
    }
  }

  /** The table a successful transaction passes for its i-th member decodes that member's own data, even when the same
      query was added several times. */
  lemma TransactionTables(w: World, members: seq<(QueryId, DataId)>, i: nat)
    requires w.Valid() && i < |members| && AllOwned(w, members)
    ensures var tables := RenewedAll(w, members, |members|).1;
      |tables| == |members| && tables[i] == Current(w.queries[members[i].0].numeric, w.data[members[i].1].view)
  {
    TransactionTablesUpTo(w, members, |members|, i);
  }

  // ---------------------------------------------------------------------------------------------------------
  // Every run
  // ---------------------------------------------------------------------------------------------------------

  /** What happens on the Lua thread between two calls into the module, and when the database thread writes to a data
      object. */
  datatype Step =
    | MakesQuery(q: QueryId)
    | MakesData(q: QueryId, d: DataId)
    | Succeeds(q: QueryId, d: DataId)
    | Fails(q: QueryId, d: DataId)
    | TransactionSucceeds(members: seq<(QueryId, DataId)>)
    | TransactionStops(members: seq<(QueryId, DataId)>)
    | CallbackEnds(members: seq<(QueryId, DataId)>)
    | GetsData(q: QueryId)
    | GetsNext(q: QueryId)
    | SetsNumeric(q: QueryId, on: bool)
    | WorkerWrites(d: DataId, view: DataView)

  const EMPTY := DataView(NotRunning, NoResult, "", [], [], [])

  /** Only data with an error is delivered as such. */
  predicate Enabled(w: World, step: Step) {
    match step
    case MakesQuery(q) => q !in w.queries
    case MakesData(q, d) => q in w.queries && d !in w.data
    case Succeeds(q, d) => w.Owned(q, d)
    case Fails(q, d) => w.Owned(q, d) && w.data[d].view.resultStatus == Error
    case TransactionSucceeds(members) => AllOwned(w, members)
    case TransactionStops(members) => AllOwned(w, members)
    case CallbackEnds(members) => AllOwned(w, members)
    case GetsData(q) => q in w.queries
    case GetsNext(q) => q in w.queries
    case SetsNumeric(q, _) => q in w.queries
    case WorkerWrites(d, _) => d in w.data
  }

  /** A step that cannot be taken changes nothing. */
  function Next(w: World, step: Step): World {
    if !Enabled(w, step) then w
    else
      match step
      case MakesQuery(q) => w.(queries := w.queries[q := QueryObject(None, 0, false)])
      case MakesData(q, d) => w.(data := w.data[d := DataObject(q, EMPTY)])
      case Succeeds(q, d) => Created(Freed(Pointed(w, q, d), q), q, d)
      case Fails(q, d) => Pointed(w, q, d)
      case TransactionSucceeds(members) => RenewedAll(w, members, |members|).0
      case TransactionStops(members) => PointedAll(w, members, |members|)
      case CallbackEnds(members) => FreedAll(w, members, |members|)
      case GetsData(q) => GotData(w, q).0
      case GetsNext(q) => GotNext(w, q)
      case SetsNumeric(q, on) => w.(queries := w.queries[q := w.queries[q].(numeric := on)])
      case WorkerWrites(d, view) => w.(data := w.data[d := w.data[d].(view := view)])
  }

  /** What a query caches, if it can be seen at all, is the decoding of its current result set. */
  ghost predicate CoherentQuery(w: World, q: QueryId)
    requires q in w.queries
  {
    w.queries[q].reference != 0 && !NoData(w, q) ==>
      TableOf(w, q) == Current(w.queries[q].numeric, w.data[w.queries[q].callback.value].view)
  }

  ghost predicate Coherent(w: World) {
    forall q :: q in w.queries ==> CoherentQuery(w, q)
  }

  /** Nothing to see is cached, or the member's data has an error, which hides the cache. */
  predicate Hidden(w: World, q: QueryId, d: DataId)
    requires w.Owned(q, d)
  {
    w.queries[q].reference == 0 || w.data[d].view.resultStatus == Error
  }

  /** The step does not change, behind a cached table, what the table was decoded from: a stopped transaction has no
      member without an error whose query has a table cached, the database thread does not write to the callback data
      of such a query, and its options stay. */
  predicate Calm(w: World, step: Step)
    requires Enabled(w, step)
  {
    match step
    case TransactionStops(members) => forall i :: 0 <= i < |members| ==> Hidden(w, members[i].0, members[i].1)
    case WorkerWrites(d, _) =>
      var q := w.data[d].owner;
      q in w.queries ==> w.queries[q].reference == 0 || w.queries[q].callback != Some(d)
    case SetsNumeric(q, on) => w.queries[q].reference == 0 || w.queries[q].numeric == on
    case _ => true
  }

  predicate CanRun(w: World, steps: seq<Step>)
    decreases |steps|
  {
    steps == [] || (Enabled(w, steps[0]) && CanRun(Next(w, steps[0]), steps[1..]))
  }

  function Run(w: World, steps: seq<Step>): World
    decreases |steps|
  {
    if steps == [] then w else Run(Next(w, steps[0]), steps[1..])
  }

  predicate AllCalm(w: World, steps: seq<Step>)
    requires CanRun(w, steps)
    decreases |steps|
  {
    steps == [] || (Calm(w, steps[0]) && AllCalm(Next(w, steps[0]), steps[1..]))
  }

  const INIT := World(map[], map[], map[], 1)

  /** What a query sees does not depend on other queries' caches. */
  predicate SameView(w: World, r: World, q: QueryId)
    requires q in w.queries
  {
    && q in r.queries && r.queries[q] == w.queries[q] && TableOf(r, q) == TableOf(w, q)
    && (w.queries[q].callback.Some? ==>
          var d := w.queries[q].callback.value;
          (d in w.data <==> d in r.data) && (d in w.data ==> r.data[d].view == w.data[d].view))
  }

  lemma SameViewCoherent(w: World, r: World, q: QueryId)
    requires q in w.queries && SameView(w, r, q) && CoherentQuery(w, q)
    ensures CoherentQuery(r, q)
  {
  }

  lemma RenewedCoherent(w: World, q: QueryId, d: DataId)
    requires w.Valid() && w.Owned(q, d) && Coherent(w)
    ensures Coherent(Renewed(w, q, d))
  {
    RenewedKeeps(w, q, d);
    forall p | p in w.queries && p != q ensures CoherentQuery(Renewed(w, q, d), p) {
      SameViewCoherent(w, Renewed(w, q, d), p);
    }
  }

  /** A single query's success does the same, in another order. */
  lemma SucceedsIsRenewed(w: World, q: QueryId, d: DataId)
    requires w.Valid() && w.Owned(q, d)
    ensures Created(Freed(Pointed(w, q, d), q), q, d) == Renewed(w, q, d)
  {
    if w.queries[q].reference != 0 {
      assert Freed(Pointed(w, q, d), q).queries == Pointed(Freed(w, q), q, d).queries;
    }
  }

  lemma {:induction false} RenewedAllCoherent(w: World, members: seq<(QueryId, DataId)>, n: nat)
    requires w.Valid() && Coherent(w) && n <= |members| && AllOwned(w, members)
    ensures Coherent(RenewedAll(w, members, n).0)
  {
    if n > 0 {
      RenewedAllCoherent(w, members, n - 1);
      RenewedAllKeeps(w, members, n - 1);
      RenewedCoherent(RenewedAll(w, members, n - 1).0, members[n - 1].0, members[n - 1].1);
    }
  }

  lemma FreedCoherent(w: World, q: QueryId)
    requires w.Valid() && q in w.queries && Coherent(w)
    ensures Coherent(Freed(w, q))
  {
    FreedKeeps(w, q);
    forall p | p in w.queries && p != q ensures CoherentQuery(Freed(w, q), p) {
      SameViewCoherent(w, Freed(w, q), p);
    }
  }

  lemma {:induction false} FreedAllCoherent(w: World, members: seq<(QueryId, DataId)>, n: nat)
    requires w.Valid() && Coherent(w) && n <= |members| && AllOwned(w, members)
    ensures FreedAll(w, members, n).Valid() && Coherent(FreedAll(w, members, n))
  {
    if n > 0 {
      FreedAllCoherent(w, members, n - 1);
      FreedKeeps(FreedAll(w, members, n - 1), members[n - 1].0);
      FreedCoherent(FreedAll(w, members, n - 1), members[n - 1].0);
    }
  }

  lemma {:induction false} PointedAllCoherent(w: World, members: seq<(QueryId, DataId)>, n: nat)
    requires w.Valid() && Coherent(w) && n <= |members| && AllOwned(w, members)
    requires forall i :: 0 <= i < |members| ==> Hidden(w, members[i].0, members[i].1)
    ensures var r := PointedAll(w, members, n);
      && r.Valid() && Coherent(r) && (forall i :: 0 <= i < |members| ==> Hidden(r, members[i].0, members[i].1))
  {
    if n > 0 {
      PointedAllCoherent(w, members, n - 1);
      PointedKeeps(PointedAll(w, members, n - 1), members[n - 1].0, members[n - 1].1);
      var r, q := PointedAll(w, members, n - 1), members[n - 1].0;
      forall p | p in r.queries && p != q ensures CoherentQuery(PointedAll(w, members, n), p) {
        SameViewCoherent(r, PointedAll(w, members, n), p);
      }
    }
  }

  lemma FailsKeeps(w: World, q: QueryId, d: DataId)
    requires w.Valid() && Coherent(w) && Enabled(w, Fails(q, d))
    ensures Next(w, Fails(q, d)).Valid() && Coherent(Next(w, Fails(q, d)))
  {
    PointedKeeps(w, q, d);
    forall p | p in w.queries && p != q ensures CoherentQuery(Pointed(w, q, d), p) {
      SameViewCoherent(w, Pointed(w, q, d), p);
    }
  }

  lemma GetsDataKeeps(w: World, q: QueryId)
    requires w.Valid() && Coherent(w) && q in w.queries
    ensures GotData(w, q).0.Valid() && Coherent(GotData(w, q).0)
    ensures !NoData(w, q) ==>
              GotData(w, q).1
              == Some(Current(w.queries[q].numeric, w.data[w.queries[q].callback.value].view))
  {
    if !NoData(w, q) {
      var d := w.queries[q].callback.value;
      CreatedKeeps(w, q, d);
      forall p | p in w.queries && p != q ensures CoherentQuery(Created(w, q, d), p) {
        SameViewCoherent(w, Created(w, q, d), p);
      }
    }
  }

  lemma GetsNextKeeps(w: World, q: QueryId)
    requires w.Valid() && Coherent(w) && q in w.queries
    ensures GotNext(w, q).Valid() && Coherent(GotNext(w, q))
  {
    FreedKeeps(w, q);
    forall p | p in w.queries && p != q ensures CoherentQuery(GotNext(w, q), p) {
      SameViewCoherent(w, GotNext(w, q), p);
    }
  }

  lemma WritesKeeps(w: World, d: DataId, view: DataView)
    requires w.Valid() && Coherent(w) && d in w.data && Calm(w, WorkerWrites(d, view))
    ensures Next(w, WorkerWrites(d, view)).Valid() && Coherent(Next(w, WorkerWrites(d, view)))
  {
    forall p | p in w.queries && w.queries[p].callback != Some(d)
      ensures CoherentQuery(Next(w, WorkerWrites(d, view)), p)
    {
      SameViewCoherent(w, Next(w, WorkerWrites(d, view)), p);
    }
  }

  lemma MakesKeeps(w: World, step: Step)
    requires w.Valid() && Coherent(w) && Enabled(w, step) && (step.MakesQuery? || step.MakesData?)
    ensures Next(w, step).Valid() && Coherent(Next(w, step))
  {
    forall p | p in w.queries ensures CoherentQuery(Next(w, step), p) {
      SameViewCoherent(w, Next(w, step), p);
    }
  }

  lemma SetsNumericKeeps(w: World, q: QueryId, on: bool)
    requires w.Valid() && Coherent(w) && q in w.queries && Calm(w, SetsNumeric(q, on))
    ensures Next(w, SetsNumeric(q, on)).Valid() && Coherent(Next(w, SetsNumeric(q, on)))
  {
    forall p | p in w.queries && p != q ensures CoherentQuery(Next(w, SetsNumeric(q, on)), p) {
      SameViewCoherent(w, Next(w, SetsNumeric(q, on)), p);
    }
  }

  lemma StepKeeps(w: World, step: Step)
    requires w.Valid() && Coherent(w) && Enabled(w, step) && Calm(w, step)
    ensures Next(w, step).Valid() && Coherent(Next(w, step))
  {
    match step
    case MakesQuery(_) => MakesKeeps(w, step);
    case MakesData(_, _) => MakesKeeps(w, step);
    case Succeeds(q, d) =>
      SucceedsIsRenewed(w, q, d);
      RenewedKeeps(w, q, d);
      RenewedCoherent(w, q, d);
    case Fails(q, d) => FailsKeeps(w, q, d);
    case TransactionSucceeds(members) =>
      RenewedAllKeeps(w, members, |members|);
      RenewedAllCoherent(w, members, |members|);
    case TransactionStops(members) => PointedAllCoherent(w, members, |members|);
    case CallbackEnds(members) => FreedAllCoherent(w, members, |members|);
    case GetsData(q) => GetsDataKeeps(w, q);
    case GetsNext(q) => GetsNextKeeps(w, q);
    case SetsNumeric(q, on) => SetsNumericKeeps(w, q, on);
    case WorkerWrites(d, view) => WritesKeeps(w, d, view);
  }

  lemma {:induction false} RunKeeps(w: World, steps: seq<Step>)
    requires w.Valid() && Coherent(w) && CanRun(w, steps) && AllCalm(w, steps)
    ensures Run(w, steps).Valid() && Coherent(Run(w, steps))
    decreases |steps|
  {
    if steps != [] {
      StepKeeps(w, steps[0]);
      RunKeeps(Next(w, steps[0]), steps[1..]);
    }
  }

  /** In calm runs `getData` is a fresh decoding of the current result set, nil exactly before a query has callback
      data and after an error, and every live reference belongs to the one query that caches it. */
  lemma GetDataIsFresh(steps: seq<Step>, q: QueryId)
    requires CanRun(INIT, steps) && AllCalm(INIT, steps) && q in Run(INIT, steps).queries
    ensures var w := Run(INIT, steps);
      && GotData(w, q).1
         == (if NoData(w, q) then None
             else Some(Current(w.queries[q].numeric, w.data[w.queries[q].callback.value].view)))
      && (forall r :: r in w.refs ==> w.refs[r].owner in w.queries && w.queries[w.refs[r].owner].reference == r)
  {
    RunKeeps(INIT, steps);
    GetsDataKeeps(Run(INIT, steps), q);
  }

  // ---------------------------------------------------------------------------------------------------------
  // Steps that are not calm
  // ---------------------------------------------------------------------------------------------------------

  /** The rows are those the table was made from, and so is the option unless there are none. */
  predicate SameOrigin(o: Origin, numeric: bool, rows: ResultSet) {
    o.rows == rows && (o.numeric == numeric || rows == [])
  }

  function OriginOf(w: World, q: QueryId): Origin
    requires w.Valid() && q in w.queries && w.queries[q].reference != 0
  {
    w.refs[w.queries[q].reference].origin
  }

  /** Decoding loses nothing. */
  lemma DecodedSameIff(o: Origin, numeric: bool, rows: ResultSet)
    ensures Decoded(o.numeric, o.rows) == Decoded(numeric, rows) <==> SameOrigin(o, numeric, rows)
  {
    var a, b := Decoded(o.numeric, o.rows), Decoded(numeric, rows);
    if a == b {
      assert |o.rows| == |a| == |b| == |rows|;
      forall i | 0 <= i < |rows| ensures o.rows[i] == rows[i] && o.numeric == numeric {
        assert a[i] == b[i];
      }
      assert o.rows == rows;
      if rows != [] {
        assert a[0] == b[0];
      }
    } else if rows == [] {
      assert b == [] && (o.rows == [] ==> a == []);
    }
  }

  /** A table is cached and the callback data has no error: `getData` returns the table, and it is a fresh decoding if
      and only if the current result set is the one it was made from. */
  lemma CachedFreshIff(w: World, q: QueryId)
    requires w.Valid() && q in w.queries && w.queries[q].reference != 0 && !NoData(w, q)
    ensures GotData(w, q).1 == Some(TableOf(w, q))
    ensures var v := w.data[w.queries[q].callback.value].view;
      && (TableOf(w, q) == Current(w.queries[q].numeric, v)
          <==> SameOrigin(OriginOf(w, q), w.queries[q].numeric, Front(v)))
      && (CoherentQuery(w, q) <==> SameOrigin(OriginOf(w, q), w.queries[q].numeric, Front(v)))
  {
    var v := w.data[w.queries[q].callback.value].view;
    DecodedSameIff(OriginOf(w, q), w.queries[q].numeric, Front(v));
  }

  lemma {:induction false} PointedAllValid(w: World, members: seq<(QueryId, DataId)>, n: nat)
    requires w.Valid() && n <= |members| && AllOwned(w, members)
    ensures PointedAll(w, members, n).Valid()
  {
    if n > 0 {
      PointedAllValid(w, members, n - 1);
      PointedKeeps(PointedAll(w, members, n - 1), members[n - 1].0, members[n - 1].1);
    }
  }

  lemma {:induction false} FreedAllValid(w: World, members: seq<(QueryId, DataId)>, n: nat)
    requires w.Valid() && n <= |members| && AllOwned(w, members)
    ensures FreedAll(w, members, n).Valid()
  {
    if n > 0 {
      FreedAllValid(w, members, n - 1);
      FreedKeeps(FreedAll(w, members, n - 1), members[n - 1].0);
    }
  }

  /** Every step, calm or not, keeps references and caches in correspondence. */
  lemma ValidStep(w: World, step: Step)
    requires w.Valid() && Enabled(w, step)
    ensures Next(w, step).Valid()
  {
    match step
    case Succeeds(q, d) =>
      SucceedsIsRenewed(w, q, d);
      RenewedKeeps(w, q, d);
    case Fails(q, d) => PointedKeeps(w, q, d);
    case TransactionSucceeds(members) => RenewedAllKeeps(w, members, |members|);
    case TransactionStops(members) => PointedAllValid(w, members, |members|);
    case CallbackEnds(members) => FreedAllValid(w, members, |members|);
    case GetsData(q) => if !NoData(w, q) { CreatedKeeps(w, q, w.queries[q].callback.value); }
    case GetsNext(q) => FreedKeeps(w, q);
    case _ =>
  }

  lemma {:induction false} ValidRun(w: World, steps: seq<Step>)
    requires w.Valid() && CanRun(w, steps)
    ensures Run(w, steps).Valid()
    decreases |steps|
  {
    if steps != [] {
      ValidStep(w, steps[0]);
      ValidRun(Next(w, steps[0]), steps[1..]);
    }
  }

  /** After every run, calm or not: `getData` is nil exactly before a query has callback data and after an error, and
      otherwise a fresh decoding of the current result set if and only if no table was cached, or the cached one was
      made from the same rows under the same option. Every live reference belongs to the one query that caches it. */
  lemma GetDataFreshIff(steps: seq<Step>, q: QueryId)
    requires CanRun(INIT, steps) && q in Run(INIT, steps).queries
    ensures var w := Run(INIT, steps); var o := w.queries[q];
      && w.Valid() && (GotData(w, q).1.None? <==> NoData(w, q))
      && (!NoData(w, q) ==>
            var v := w.data[o.callback.value].view;
            GotData(w, q).1 == Some(Current(o.numeric, v))
            <==> o.reference == 0 || SameOrigin(OriginOf(w, q), o.numeric, Front(v)))
      && (forall r :: r in w.refs ==> w.refs[r].owner in w.queries && w.queries[w.refs[r].owner].reference == r)
  {
    ValidRun(INIT, steps);
    var w := Run(INIT, steps);
    if !NoData(w, q) {
      if w.queries[q].reference != 0 {
        CachedFreshIff(w, q);
      } else {
        CreatedKeeps(w, q, w.queries[q].callback.value);
      }
    }
  }

  /** Where the callbacks of a transaction leave a query: at the data of its last member. */
  lemma {:induction false} PointedAllAt(w: World, members: seq<(QueryId, DataId)>, n: nat, i: nat)
    requires i < n <= |members| && AllOwned(w, members)
    requires forall j :: i < j < |members| ==> members[j].0 != members[i].0
    ensures var r := PointedAll(w, members, n); var q := members[i].0;
      r.queries[q] == w.queries[q].(callback := Some(members[i].1)) && r.refs == w.refs
  {
    if i < n - 1 {
      PointedAllAt(w, members, n - 1, i);
    } else {
      PointedAllKeepsCache(w, members, i, members[i].0);
    }
  }

  lemma {:induction false} PointedAllKeepsCache(w: World, members: seq<(QueryId, DataId)>, n: nat, q: QueryId)
    requires n <= |members| && AllOwned(w, members) && q in w.queries
    ensures var r := PointedAll(w, members, n);
      && q in r.queries && r.queries[q].reference == w.queries[q].reference
      && r.queries[q].numeric == w.queries[q].numeric && r.refs == w.refs
  {
    if n > 0 {
      PointedAllKeepsCache(w, members, n - 1, q);
    }
  }

  /** A transaction, of any members, fails or is aborted while the query of a member has a table cached, and the data
      the query is left with has no error: `getData` returns the cached table, which is right if and only if it was
      made from the rows that are current now, under the same option. If the table was right and visible before, that
      is if and only if the old and the new current result set have the same rows. */
  lemma StoppedIsStale(w: World, members: seq<(QueryId, DataId)>, i: nat)
    requires w.Valid() && AllOwned(w, members) && i < |members|
    requires forall j :: i < j < |members| ==> members[j].0 != members[i].0
    requires w.queries[members[i].0].reference != 0 && w.data[members[i].1].view.resultStatus != Error
    ensures var (q, d) := members[i]; var r := Next(w, TransactionStops(members)); var rows := Front(w.data[d].view);
      && q in r.queries && GotData(r, q).1 == Some(TableOf(w, q))
      && (CoherentQuery(r, q) <==> SameOrigin(OriginOf(w, q), w.queries[q].numeric, rows))
      && (!NoData(w, q) && CoherentQuery(w, q) ==>
            (CoherentQuery(r, q) <==> Front(w.data[w.queries[q].callback.value].view) == rows))
  {
    var q := members[i].0;
    PointedAllAt(w, members, |members|, i);
    PointedAllValid(w, members, |members|);
    CachedFreshIff(PointedAll(w, members, |members|), q);
    if !NoData(w, q) {
      CachedFreshIff(w, q);
    }
  }

  /** The database thread executes data whose error a failed wait has already delivered: `getData` returns the table
      that was cached before the error, which is right if and only if that was made from the rows now stored. */
  lemma LateWriteIsStale(w: World, q: QueryId, d: DataId, view: DataView)
    requires w.Valid() && w.Owned(q, d) && w.queries[q].callback == Some(d) && w.queries[q].reference != 0
    requires w.data[d].view.resultStatus == Error && view.resultStatus != Error
    ensures var r := Next(w, WorkerWrites(d, view));
      && GotData(r, q).1 == Some(TableOf(w, q))
      && (CoherentQuery(r, q) <==> SameOrigin(OriginOf(w, q), w.queries[q].numeric, Front(view)))
  {
    CachedFreshIff(Next(w, WorkerWrites(d, view)), q);
  }

  /** Setting the field option of a query while a table is cached, in either direction: `getData` returns the table,
      which is right if and only if it was made from the current rows and under that option, or there are no rows. */
  lemma OptionChangeIsStale(w: World, q: QueryId, on: bool)
    requires w.Valid() && q in w.queries && w.queries[q].reference != 0 && !NoData(w, q)
    ensures var r := Next(w, SetsNumeric(q, on)); var rows := Front(w.data[w.queries[q].callback.value].view);
      && GotData(r, q).1 == Some(TableOf(w, q))
      && (CoherentQuery(r, q) <==> SameOrigin(OriginOf(w, q), on, rows))
      && (CoherentQuery(w, q) && on != w.queries[q].numeric ==>
            (CoherentQuery(r, q) <==> rows == []))
  {
    CachedFreshIff(w, q);
    CachedFreshIff(Next(w, SetsNumeric(q, on)), q);
  }

  // ---------------------------------------------------------------------------------------------------------
  // What the tables hold
  // ---------------------------------------------------------------------------------------------------------

  /** Row `i` of the table is row `i` of the result set, under the option. */
  predicate Shows(table: Table, numeric: bool, rows: ResultSet) {
    |table| == |rows|
    && forall i :: 0 <= i < |rows| ==> table[i].numeric == numeric && table[i].values == rows[i]
  }

  /** The tables made from a result set are those that show it, row by row and in its order. */
  lemma DecodedShows(table: Table, numeric: bool, rows: ResultSet)
    ensures table == Decoded(numeric, rows) <==> Shows(table, numeric, rows)
  {
    if Shows(table, numeric, rows) {
      forall i | 0 <= i < |rows| ensures table[i] == Decoded(numeric, rows)[i] {
        assert table[i] == RowTable(numeric, rows[i]);
      }
    }
  }

  /** The first result set, or no rows when one of the three queues is empty. */
  function FirstRows(v: DataView): ResultSet {
    if |v.results| > 0 && |v.insertIds| > 0 && |v.affectedRows| > 0 then v.results[0] else []
  }

  /** `getData` without a cached table: it shows the first result set the callback data has left, row by row, changes no
      data and no other query, and a second call returns the same table. */
  lemma GetDataShows(w: World, q: QueryId)
    requires w.Valid() && q in w.queries && w.queries[q].reference == 0 && !NoData(w, q)
    ensures var (r, table) := GotData(w, q);
      && table.Some? && Shows(table.value, w.queries[q].numeric, FirstRows(w.data[w.queries[q].callback.value].view))
      && OthersStay(w, r, q) && q in r.queries && GotData(r, q) == (r, table) && r == Next(w, GetsData(q))
  {
    var o := w.queries[q];
    var rows := FirstRows(w.data[o.callback.value].view);
    CreatedOthers(w, q, o.callback.value);
    DecodedShows(Decoded(o.numeric, rows), o.numeric, rows);
  }

  /** Before a query has callback data its table would be empty, whatever data is given; and a table that is cached is
      kept. */
  lemma CreatedWithout(w: World, q: QueryId, d: DataId)
    requires w.Valid() && q in w.queries && d in w.data
    ensures w.queries[q].reference != 0 ==> Created(w, q, d) == w
    ensures w.queries[q].reference == 0 && w.queries[q].callback == None ==> TableOf(Created(w, q, d), q) == []
  {
  }

  /** The tables a delivered transaction passes show the first result set of each member, row by row. */
  lemma TransactionShows(w: World, members: seq<(QueryId, DataId)>, i: nat)
    requires w.Valid() && i < |members| && AllOwned(w, members)
    ensures var tables := RenewedAll(w, members, |members|).1; var (q, d) := members[i];
      |tables| == |members| && Shows(tables[i], w.queries[q].numeric, FirstRows(w.data[d].view))
  {
    TransactionTables(w, members, i);
    var (q, d) := members[i];
    var rows := FirstRows(w.data[d].view);
    DecodedShows(Decoded(w.queries[q].numeric, rows), w.queries[q].numeric, rows);
  }

  /** What an error delivers: the query is at the failed data, `getData` is nil, and no cache is touched. */
  lemma FailsShowsNil(w: World, q: QueryId, d: DataId)
    requires w.Valid() && Enabled(w, Fails(q, d))
    ensures var r := Next(w, Fails(q, d));
      && r == w.(queries := w.queries[q := w.queries[q].(callback := Some(d))]) && GotData(r, q) == (r, None)
  {
  }

  /** The query is at this data, with a table of these rows cached. */
  predicate CachesAt(r: World, q: QueryId, d: DataId, table: Table) {
    q in r.queries && r.queries[q].callback == Some(d) && r.queries[q].reference != 0 && TableOf(r, q) == table
  }

  lemma RenewedLast(w: World, members: seq<(QueryId, DataId)>, n: nat)
    requires w.Valid() && n < |members| && AllOwned(w, members)
    ensures var r := RenewedAll(w, members, n + 1).0; var (q, d) := members[n];
      && CachesAt(r, q, d, Current(w.queries[q].numeric, w.data[d].view))
      && OthersStay(RenewedAll(w, members, n).0, r, q)
  {
    RenewedAllKeeps(w, members, n);
    RenewedKeeps(RenewedAll(w, members, n).0, members[n].0, members[n].1);
    RenewedAllNext(w, members, n);
  }

  lemma CachesStays(before: World, after: World, p: QueryId, q: QueryId, d: DataId, table: Table)
    requires OthersStay(before, after, p) && q != p && CachesAt(before, q, d, table)
    ensures CachesAt(after, q, d, table)
  {
  }

  /** One more member, of another query. */
  lemma RenewedOther(w: World, members: seq<(QueryId, DataId)>, n: nat, q: QueryId, d: DataId, table: Table)
    requires w.Valid() && n < |members| && AllOwned(w, members) && members[n].0 != q
    requires CachesAt(RenewedAll(w, members, n).0, q, d, table)
    ensures CachesAt(RenewedAll(w, members, n + 1).0, q, d, table)
  {
    RenewedLast(w, members, n);
    CachesStays(RenewedAll(w, members, n).0, RenewedAll(w, members, n + 1).0, members[n].0, q, d, table);
  }

  lemma {:induction false} RenewedRest(w: World, members: seq<(QueryId, DataId)>, n: nat, q: QueryId, d: DataId,
                                       table: Table)
    requires w.Valid() && n <= |members| && AllOwned(w, members)
    requires forall j :: n <= j < |members| ==> members[j].0 != q
    requires CachesAt(RenewedAll(w, members, n).0, q, d, table)
    ensures CachesAt(RenewedAll(w, members, |members|).0, q, d, table)
    decreases |members| - n
  {
    if n < |members| {
      RenewedOther(w, members, n, q, d, table);
      RenewedRest(w, members, n + 1, q, d, table);
    }
  }

  /** What the success of a transaction leaves a query with: the data of its last member, and its table cached. */
  lemma TransactionCaches(w: World, members: seq<(QueryId, DataId)>, i: nat)
    requires w.Valid() && i < |members| && AllOwned(w, members)
    requires forall j :: i < j < |members| ==> members[j].0 != members[i].0
    ensures var r := Next(w, TransactionSucceeds(members)); var (q, d) := members[i];
      && q in r.queries && r.queries[q].callback == Some(d) && r.queries[q].reference != 0
      && Shows(TableOf(r, q), w.queries[q].numeric, FirstRows(w.data[d].view))
  {
    var (q, d) := members[i];
    var rows := FirstRows(w.data[d].view);
    RenewedLast(w, members, i);
    RenewedRest(w, members, i + 1, q, d, Decoded(w.queries[q].numeric, rows));
    DecodedShows(Decoded(w.queries[q].numeric, rows), w.queries[q].numeric, rows);
  }

  predicate Among(members: seq<(QueryId, DataId)>, n: nat, p: QueryId)
    requires n <= |members|
  {
    exists i :: 0 <= i < n && members[i].0 == p
  }

  /** The query without its table, or as it was. */
  predicate FreedOrSame(w: World, r: World, p: QueryId, freed: bool)
    requires p in w.queries
  {
    && p in r.queries
    && (if freed then r.queries[p] == w.queries[p].(reference := 0)
        else r.queries[p] == w.queries[p] && TableOf(r, p) == TableOf(w, p))
  }

  lemma FreedOne(w: World, before: World, q: QueryId, p: QueryId, freed: bool)
    requires before.Valid() && q in before.queries && p in w.queries && FreedOrSame(w, before, p, freed)
    ensures FreedOrSame(w, Freed(before, q), p, freed || p == q)
  {
    FreedOthers(before, q);
  }

  lemma {:induction false} FreedAllIs(w: World, members: seq<(QueryId, DataId)>, n: nat, p: QueryId)
    requires w.Valid() && n <= |members| && AllOwned(w, members) && p in w.queries
    ensures FreedOrSame(w, FreedAll(w, members, n), p, Among(members, n, p))
  {
    if n > 0 {
      FreedAllValid(w, members, n - 1);
      FreedAllIs(w, members, n - 1, p);
      FreedOne(w, FreedAll(w, members, n - 1), members[n - 1].0, p, Among(members, n - 1, p));
      assert Among(members, n, p) <==> Among(members, n - 1, p) || members[n - 1].0 == p;
    }
  }

  /** A table is cached for the duration of the callback only: after it no query of the delivery has one, and every
      other query keeps its own. */
  lemma CallbackFrees(w: World, members: seq<(QueryId, DataId)>, p: QueryId)
    requires w.Valid() && AllOwned(w, members) && p in w.queries
    ensures var r := Next(w, CallbackEnds(members));
      && r.data == w.data && p in r.queries
      && (if exists i :: 0 <= i < |members| && members[i].0 == p then r.queries[p] == w.queries[p].(reference := 0)
          else r.queries[p] == w.queries[p] && TableOf(r, p) == TableOf(w, p))
  {
    FreedAllIs(w, members, |members|, p);
  }

  /** `getNextResults` moves the callback data one set on in all three queues, as long as there is one, and forgets the
      cached table in any case; nothing else changes. */
  lemma GetNextMoves(w: World, q: QueryId)
    requires w.Valid() && q in w.queries && w.queries[q].callback.Some?
    ensures var r := GotNext(w, q); var d := w.queries[q].callback.value; var v := w.data[d].view;
      && r.queries.Keys == w.queries.Keys && r.queries[q] == w.queries[q].(reference := 0)
      && (forall p :: p in w.queries && p != q ==> r.queries[p] == w.queries[p] && TableOf(r, p) == TableOf(w, p))
      && r.data.Keys == w.data.Keys && (forall x :: x in w.data && x != d ==> r.data[x] == w.data[x])
      && r.data[d].owner == w.data[d].owner
      && r.data[d].view == (if |v.results| > 0 && |v.insertIds| > 0 && |v.affectedRows| > 0
                            then v.(results := v.results[1..], insertIds := v.insertIds[1..],
                                    affectedRows := v.affectedRows[1..])
                            else v)
  {
    FreedOthers(w, q);
  }

  lemma {:induction false} RunAppend(w: World, steps: seq<Step>, step: Step)
    requires CanRun(w, steps) && Enabled(Run(w, steps), step)
    ensures CanRun(w, steps + [step]) && Run(w, steps + [step]) == Next(Run(w, steps), step)
    decreases |steps|
  {
    if steps == [] {
      assert steps + [step] == [step];
      assert [step][1..] == [];
    } else {
      assert (steps + [step])[1..] == steps[1..] + [step];
      RunAppend(Next(w, steps[0]), steps[1..], step);
    }
  }

  /** Calling `getNextResults` `k` times. */
  function Nexts(q: QueryId, k: nat): (steps: seq<Step>)
    ensures |steps| == k
  {
    seq(k, _ => GetsNext(q))
  }

  lemma {:induction false} NextsMove(w: World, q: QueryId, k: nat)
    requires w.Valid() && q in w.queries && w.queries[q].callback.Some? && w.queries[q].callback.value in w.data
    ensures CanRun(w, Nexts(q, k))
    ensures var r := Run(w, Nexts(q, k)); var d := w.queries[q].callback.value;
      && r.Valid() && q in r.queries && d in r.data && r.data[d].view == w.data[d].view.PoppedTimes(k)
      && r.queries[q] == (if k == 0 then w.queries[q] else w.queries[q].(reference := 0))
  {
    if k > 0 {
      NextsMove(w, q, k - 1);
      var r := Run(w, Nexts(q, k - 1));
      RunAppend(w, Nexts(q, k - 1), GetsNext(q));
      assert Nexts(q, k) == Nexts(q, k - 1) + [GetsNext(q)];
      ValidStep(r, GetsNext(q));
      GetNextMoves(r, q);
    }
  }

  lemma {:induction false} StoringKeepsResult(d: DataView, sets: seq<SetReply>)
    ensures d.WithSets(sets).resultStatus == d.resultStatus
  {
    if sets != [] {
      StoringKeepsResult(d, sets[..|sets| - 1]);
    }
  }

  lemma {:induction false} PoppingKeepsResult(d: DataView, k: nat)
    ensures d.PoppedTimes(k).resultStatus == d.resultStatus
  {
    if k > 0 {
      PoppingKeepsResult(d, k - 1);
    }
  }

  /** What the callback of a successful query finds. */
  ghost predicate InCallback(w: World, q: QueryId, numeric: bool, view: DataView) {
    && w.Valid() && q in w.queries && w.queries[q].callback.Some? && w.queries[q].callback.value in w.data
    && w.data[w.queries[q].callback.value].view == view && w.queries[q].reference != 0
    && w.queries[q].numeric == numeric && Shows(TableOf(w, q), numeric, FirstRows(view))
  }

  lemma Delivered(w: World, q: QueryId, d: DataId)
    requires w.Valid() && w.Owned(q, d)
    ensures InCallback(Next(w, Succeeds(q, d)), q, w.queries[q].numeric, w.data[d].view)
  {
    SucceedsIsRenewed(w, q, d);
    RenewedKeeps(w, q, d);
    var rows := FirstRows(w.data[d].view);
    DecodedShows(Decoded(w.queries[q].numeric, rows), w.queries[q].numeric, rows);
  }

  /** The data a query reads when the server sent `sets`. */
  lemma {:induction false} SetAfterReads(v: DataView, sets: seq<SetReply>, k: nat)
    requires v.resultStatus == Success
    ensures var after := v.Cleared().WithSets(sets).PoppedTimes(k);
      after.resultStatus == Success && FirstRows(after) == if k < |sets| then RowsOf(sets[k]) else []
  {
    ReadsServerOrder(v, sets, k);
    StoringKeepsResult(v.Cleared(), sets);
    PoppingKeepsResult(v.Cleared().WithSets(sets), k);
  }

  /** After `k` calls of `getNextResults` `getData` shows these rows. */
  predicate ReadsAfter(w: World, q: QueryId, k: nat, numeric: bool, rows: ResultSet) {
    var r := Run(w, Nexts(q, k));
    CanRun(w, Nexts(q, k)) && q in r.queries && GotData(r, q).1.Some? && Shows(GotData(r, q).1.value, numeric, rows)
  }

  lemma {:induction false} CallbackReads(w: World, q: QueryId, numeric: bool, v: DataView, sets: seq<SetReply>, k: nat)
    requires InCallback(w, q, numeric, v.Cleared().WithSets(sets)) && v.resultStatus == Success
    ensures ReadsAfter(w, q, k, numeric, if k < |sets| then RowsOf(sets[k]) else [])
  {
    SetAfterReads(v, sets, k);
    NextsMove(w, q, k);
    if k > 0 {
      GetDataShows(Run(w, Nexts(q, k)), q);
    } else {
      assert Nexts(q, 0) == [];
    }
  }

  /** A script reads every result set: in the callback of a successful query, after `k` calls of `getNextResults`,
      `getData` shows set `k` of what the server sent, row by row, and an empty table behind the last. */
  lemma {:induction false} ReadsEverySet(w: World, q: QueryId, d: DataId, v: DataView, sets: seq<SetReply>, k: nat)
    requires w.Valid() && w.Owned(q, d) && w.data[d].view == v.Cleared().WithSets(sets) && v.resultStatus == Success
    ensures ReadsAfter(Next(w, Succeeds(q, d)), q, k, w.queries[q].numeric,
                       if k < |sets| then RowsOf(sets[k]) else [])
  {
    Delivered(w, q, d);
    CallbackReads(Next(w, Succeeds(q, d)), q, w.queries[q].numeric, v, sets, k);
  }

  // ---------------------------------------------------------------------------------------------------------
  // Runs that reach such steps
  // ---------------------------------------------------------------------------------------------------------

  lemma Does(steps: seq<Step>, step: Step) returns (steps': seq<Step>)
    requires CanRun(INIT, steps) && Enabled(Run(INIT, steps), step)
    ensures CanRun(INIT, steps') && Run(INIT, steps') == Next(Run(INIT, steps), step)
  {
    steps' := steps + [step];
    RunAppend(INIT, steps, step);
  }

  /** Data that succeeded with one result set of one row of one column. */
  function OneRow(value: string): DataView {
    DataView(Complete, Success, "", [[[value]]], [0], [1])
  }

  /** Query 0 has been delivered data 0, and its table is still cached. */
  predicate OneCached(w: World) {
    && w.queries == map[0 := QueryObject(Some(0), 1, false)]
    && w.data == map[0 := DataObject(0, OneRow("a"))]
    && w.refs == map[1 := Cached(0, [RowTable(false, ["a"])], Origin(false, [["a"]]))] && w.next == 2
  }

  lemma Caches() returns (steps: seq<Step>)
    ensures CanRun(INIT, steps) && OneCached(Run(INIT, steps))
  {
    steps := Does([], MakesQuery(0));
    steps := Does(steps, MakesData(0, 0));
    steps := Does(steps, WorkerWrites(0, OneRow("a")));
    steps := Does(steps, Succeeds(0, 0));
    assert Decoded(false, [["a"]]) == [RowTable(false, ["a"])];
  }

  /** The old table is what `getData` returns, and not the decoding of the current result set. */
  predicate ShowsOld(w: World) {
    && 0 in w.queries && !NoData(w, 0)
    && GotData(w, 0).1 == Some([RowTable(false, ["a"])])
    && GotData(w, 0).1 != Some(Current(w.queries[0].numeric, w.data[w.queries[0].callback.value].view))
  }

  /** A member that completed in a transaction that failed later shows the result of an earlier execution. */
  lemma StoppedRun() returns (steps: seq<Step>)
    ensures CanRun(INIT, steps) && ShowsOld(Run(INIT, steps))
  {
    steps := Caches();
    steps := Does(steps, MakesData(0, 1));
    steps := Does(steps, WorkerWrites(1, OneRow("b")));
    var w := Run(INIT, steps);
    assert PointedAll(w, [(0, 1)], 1) == Pointed(PointedAll(w, [(0, 1)], 0), 0, 1);
    steps := Does(steps, TransactionStops([(0, 1)]));
    assert Current(false, OneRow("b"))[0].values[0] == "b";
  }

  /** Data whose wait failed is delivered with the error, executed, and then shows the result of an earlier execution.
      */
  lemma LateWriteRun() returns (steps: seq<Step>)
    ensures CanRun(INIT, steps) && ShowsOld(Run(INIT, steps))
  {
    steps := Caches();
    steps := Does(steps, MakesData(0, 1));
    steps := Does(steps, WorkerWrites(1, EMPTY.(status := Complete, resultStatus := Error)));
    steps := Does(steps, Fails(0, 1));
    steps := Does(steps, WorkerWrites(1, OneRow("b")));
    assert Current(false, OneRow("b"))[0].values[0] == "b";
  }

  /** The rows stay keyed by name after numeric fields were asked for. */
  lemma OptionChangeRun() returns (steps: seq<Step>)
    ensures CanRun(INIT, steps) && ShowsOld(Run(INIT, steps))
  {
    steps := Caches();
    steps := Does(steps, SetsNumeric(0, true));
    assert Current(true, OneRow("a"))[0].numeric;
  }
}
