/** The result sets of one execution of a query, in three parallel queues, and how a script reads them. */
module Results {
  import opened QueryTypes

  /** The rows of a result set; a statement without one stores the empty result set. */
  type ResultSet = seq<seq<string>>

  /** One result set as the server sends it. */
  datatype SetReply = SetReply(rows: Option<ResultSet>, insertId: nat, affectedRows: nat)

  function RowsOf(reply: SetReply): ResultSet {
    match reply.rows
    case Some(rows) => rows
    case None => []
  }

  /** The fields of a query data object that its execution writes. */
  datatype DataView = DataView(
    status: QueryStatus, resultStatus: QueryResultStatus, errorText: string,
    results: seq<ResultSet>, insertIds: seq<nat>, affectedRows: seq<nat>)
  {
    predicate Aligned() {
      |results| == |insertIds| == |affectedRows|
    }

    /** `hasMoreResults` of the data object. */
    predicate HasMore() {
      insertIds != [] && affectedRows != [] && results != []
    }

    function Cleared(): DataView {
      this.(results := [], insertIds := [], affectedRows := [])
    }

    function WithEmptySet(): DataView {
      this.(results := results + [[]], insertIds := insertIds + [0], affectedRows := affectedRows + [0])
    }

    function WithSets(sets: seq<SetReply>): DataView {
      if sets == [] then this
      else
        var d := WithSets(sets[..|sets| - 1]);
        var last := sets[|sets| - 1];
        d.(results := d.results + [RowsOf(last)], insertIds := d.insertIds + [last.insertId],
           affectedRows := d.affectedRows + [last.affectedRows])
    }

    /** `getNextResults` of the data object. */
    function Popped(): DataView {
      if HasMore()
      then this.(results := results[1..], insertIds := insertIds[1..], affectedRows := affectedRows[1..])
      else this
    }

    function PoppedTimes(k: nat): DataView {
      if k == 0 then this else PoppedTimes(k - 1).Popped()
    }

    function LastInsertId(): nat {
      if insertIds == [] then 0 else insertIds[0]
    }

    function AffectedRows(): nat {
      if affectedRows == [] then 0 else affectedRows[0]
    }
  }

  class QueryData {
    var status: QueryStatus
    var resultStatus: QueryResultStatus
    var errorText: string
    var results: seq<ResultSet>
    var insertIds: seq<nat>
    var affectedRows: seq<nat>

    constructor ()
      ensures View() == DataView(NotRunning, NoResult, "", [], [], [])
    {
      status, resultStatus, errorText := NotRunning, NoResult, "";
      results, insertIds, affectedRows := [], [], [];
    }

    function View(): DataView
      reads this
    {
      DataView(status, resultStatus, errorText, results, insertIds, affectedRows)
    }

    method ClearResultData()
      modifies this
      ensures View() == old(View()).Cleared()
    {
      results := [];
      insertIds := [];
      affectedRows := [];
    }

    method EmplaceEmptyResultData()
      modifies this
      ensures View() == old(View()).WithEmptySet()
    {
      results := results + [[]];
      insertIds := insertIds + [0];
      affectedRows := affectedRows + [0];
    }

    /** The body of the store loop of a plain query, for all sets that arrive. */
    method StoreSets(sets: seq<SetReply>)
      modifies this
      ensures View() == old(View()).WithSets(sets)
    {
      var i := 0;
      while i < |sets|
        invariant 0 <= i <= |sets|
        invariant View() == old(View()).WithSets(sets[..i])
      {
        assert sets[..i + 1][..i] == sets[..i];
        if sets[i].rows.Some? {
          results := results + [sets[i].rows.value];
        } else {
          results := results + [[]];
        }
        insertIds := insertIds + [sets[i].insertId];
        affectedRows := affectedRows + [sets[i].affectedRows];
        i := i + 1;
      }
      assert sets[..|sets|] == sets;
    }

    /** Returns false, and pops nothing, when there is nothing to pop. */
    method GetNextResults() returns (popped: bool)
      modifies this
      ensures View() == old(View()).Popped() && (popped <==> old(View()).HasMore())
    {
      if insertIds == [] || affectedRows == [] || results == [] {
        return false;
      }
      results := results[1..];
      insertIds := insertIds[1..];
      affectedRows := affectedRows[1..];
      return true;
    }
  }

  /** Storing appends one element per set to each queue, in the order of the server. */
  lemma {:induction false} StoredSets(d: DataView, sets: seq<SetReply>, i: nat)
    ensures var r := d.WithSets(sets);
      && |r.results| == |d.results| + |sets| && |r.insertIds| == |d.insertIds| + |sets|
      && |r.affectedRows| == |d.affectedRows| + |sets|
      && (i < |sets| ==>
            && r.results[|d.results| + i] == RowsOf(sets[i])
            && r.insertIds[|d.insertIds| + i] == sets[i].insertId
            && r.affectedRows[|d.affectedRows| + i] == sets[i].affectedRows)
  {
    if sets != [] {
      StoredSets(d, sets[..|sets| - 1], i);
    }
  }

  /** Popping takes the same number off each queue, as long as none runs out. */
  lemma {:induction false} PoppedSuffix(d: DataView, k: nat)
    requires k <= |d.results| && k <= |d.insertIds| && k <= |d.affectedRows|
    ensures d.PoppedTimes(k)
            == d.(results := d.results[k..], insertIds := d.insertIds[k..], affectedRows := d.affectedRows[k..])
  {
    if k > 0 {
      PoppedSuffix(d, k - 1);
    }
  }

  lemma {:induction false} PoppedPastEnd(d: DataView, k: nat)
    requires d.Aligned() && k >= |d.results|
    ensures d.PoppedTimes(k) == d.Cleared()
  {
    if k == |d.results| {
      PoppedSuffix(d, k);
    } else {
      PoppedPastEnd(d, k - 1);
    }
  }

  /** Executing on cleared data and reading the sets one by one: after `k` pops every accessor describes set `k` of the
      server, `hasMoreResults` is true exactly as long as there is one, and popping beyond the end changes nothing. */
  lemma ReadsServerOrder(d: DataView, sets: seq<SetReply>, k: nat)
    ensures var r := d.Cleared().WithSets(sets); var after := r.PoppedTimes(k);
      && r.Aligned() && |r.results| == |sets|
      && (after.HasMore() <==> k < |sets|)
      && (k < |sets| ==>
            && after.results[0] == RowsOf(sets[k]) && after.LastInsertId() == sets[k].insertId
            && after.AffectedRows() == sets[k].affectedRows
            && after.results[0] == (if sets[k].rows.Some? then sets[k].rows.value else []))
      && (k >= |sets| ==> after.LastInsertId() == 0 && after.AffectedRows() == 0)
  {
    var r := d.Cleared().WithSets(sets);
    StoredSets(d.Cleared(), sets, k);
    if k < |sets| {
      PoppedSuffix(r, k);
    } else {
      PoppedPastEnd(r, k);
    }
  }
}
