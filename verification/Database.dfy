/**
 `Database` and `IQuery` in the form the source gives them: fields changed in place, one method per critical section.
 Each method is proved to perform the update of the shared fields that the life cycle's steps use. Query data objects
 are records in `data`, found by their identity.
 */
module Databases {
  import opened QueryTypes
  import opened BlockingQueues
  import opened Lifecycle

  class Database {
    const queryQueue: BlockingQueue<Entry>
    const finishedQueries: BlockingQueue<DataId>
    var canWait: bool
    var waitingQuery: Option<DataId>
    var data: map<DataId, Data>

    constructor ()
      ensures View() == INIT.sh
      ensures fresh(queryQueue) && fresh(finishedQueries)
    {
      queryQueue := new BlockingQueue<Entry>();
      finishedQueries := new BlockingQueue<DataId>();
      canWait, waitingQuery, data := false, None, map[];
    }

    /** The shared fields as the life cycle sees them. */
    ghost function View(): Shared
      reads this, queryQueue, finishedQueries
    {
      Shared(queryQueue.backingQueue, finishedQueries.backingQueue, canWait, waitingQuery, data)
    }

    method SetStatus(d: DataId, status: QueryStatus)
      modifies this`data
      ensures View() == WithStatus(old(View()), d, status)
    {
      if d in data {
        data := data[d := data[d].(status := status)];
      }
    }

    /** Queue first, then set the status. */
    method EnqueueQuery(d: DataId)
      modifies this`data, queryQueue
      ensures View() == WithStatus(Put(old(View()), Item(d)), d, Waiting)
    {
      queryQueue.Put(Item(d));
      SetStatus(d, Waiting);
    }

    method Shutdown()
      modifies queryQueue
      ensures View() == Put(old(View()), Pill)
    {
      queryQueue.Put(Pill);
    }

    method AbortAllQueries() returns (canceled: seq<Entry>)
      modifies this`data, queryQueue
      ensures View() == ClearQueue(old(View())) && canceled == old(queryQueue.backingQueue)
    {
      canceled := queryQueue.Clear();
      MarkNone(data);
      for i := 0 to |canceled|
        invariant data == MarkAborted(old(data), QueueData(canceled[..i]))
        invariant queryQueue.backingQueue == [] && finishedQueries.backingQueue == old(finishedQueries.backingQueue)
      {
        QueueDataAppend(canceled[..i], canceled[i]);
        assert canceled[..i + 1] == canceled[..i] + [canceled[i]];
        if canceled[i].Item? {
          var d := canceled[i].data;
          if d in data {
            data := data[d := data[d].(status := Aborted, finished := true)];
          }
        }
      }
      assert canceled[..|canceled|] == canceled;
    }

    /** Take `d` out of the queue; if it was there, mark it aborted and finished. */
    method RemoveFromQueue(d: DataId) returns (wasRemoved: bool)
      modifies this`data, queryQueue
      ensures View() == RemoveQueued(old(View()), d)
      ensures wasRemoved <==> Item(d) in old(queryQueue.backingQueue)
    {
      ghost var q := queryQueue.backingQueue;
      ghost var info := data;
      FilteredOutIsWithout(q, e => e == Item(d), Item(d));
      wasRemoved := queryQueue.RemoveIf(e => e == Item(d));
      assert wasRemoved <==> Item(d) in q;
      if wasRemoved {
        if d in data {
          data := data[d := data[d].(status := Aborted, finished := true)];
        }
        assert data == MarkAborted(info, [d]);
      } else {
        WithoutAbsent(q, Item(d));
      }
    }

    method FailWaitingQuery(d: DataId, reason: ErrorText)
      modifies this`data, finishedQueries
      ensures View() == Fail(old(View()), d, reason)
    {
      if d in data {
        data := data[d := data[d].(error := reason)];
        data := data[d := data[d].(result := Error)];
        data := data[d := data[d].(status := Complete)];
        data := data[d := data[d].(finished := true)];
      }
      finishedQueries.Put(d);
    }

    method AbortWaitingQuery()
      modifies this, finishedQueries
      ensures View() == AbortTheWaiting(old(View()))
    {
      canWait := false;
      if waitingQuery.Some? {
        FailWaitingQuery(waitingQuery.value, WaitDisconnected);
        waitingQuery := None;
      }
    }

    /** Up to the wait on the condition variable. */
    method WaitForQuery(d: DataId) returns (blocks: bool)
      modifies this, finishedQueries
      ensures View() == EnterWait(old(View()), d)
      ensures blocks <==> old(canWait && !Finished(View(), d))
    {
      if !canWait {
        FailWaitingQuery(d, WaitImpossible);
        return false;
      }
      if d in data && data[d].finished {
        return false;
      }
      waitingQuery := Some(d);
      return true;
    }

    method TakeFinishedQueries() returns (ds: seq<DataId>)
      modifies finishedQueries
      ensures ds == old(finishedQueries.backingQueue) && View() == old(View()).(finishedQueries := [])
    {
      ds := finishedQueries.Clear();
    }

    method RecordOutcome(d: DataId, result: QueryResultStatus, error: ErrorText)
      modifies this`data
      ensures View() == RecordResult(old(View()), d, result, error)
    {
      if d in data {
        data := data[d := data[d].(result := result, error := if result == Error then error else data[d].error)];
        data := data[d := data[d].(status := Complete)];
      }
    }

    /** Mark the data finished and give up the waiter slot if it is waited for. */
    method FinishServed(d: DataId)
      modifies this`data, this`waitingQuery
      ensures View() == FinishData(old(View()), d)
    {
      if d in data {
        data := data[d := data[d].(finished := true)];
      }
      if waitingQuery == Some(d) {
        waitingQuery := None;
      }
    }

    /** The body of the worker's loop, after the take and apart from the execution itself, whose result is given. */
    method Serve(d: DataId, result: QueryResultStatus, error: ErrorText)
      modifies this, finishedQueries
      ensures View() == Served(old(View()), d, result, error)
    {
      SetStatus(d, Running);
      RecordOutcome(d, result, error);
      finishedQueries.Put(d);
      FinishServed(d);
    }

    /** The worker alone, with a pill queued: it serves what is ahead of the first pill, in order, and leaves the
        rest. */
    method RunToPill(result: DataId -> QueryResultStatus, error: DataId -> ErrorText)
      requires Pill in queryQueue.backingQueue
      modifies this, queryQueue, finishedQueries
      ensures var q := old(queryQueue.backingQueue);
        View() == ServedAll(old(View()), BeforePill(q), result, error).(queue := AfterPill(q))
    {
      ghost var q := queryQueue.backingQueue;
      ghost var sh := View();
      ghost var served: seq<DataId> := [];
      var e := queryQueue.Take();
      PillFront(q);
      while e != Pill
        invariant e != Pill ==> Pill in queryQueue.backingQueue
        invariant e == Pill ==> served == BeforePill(q) && queryQueue.backingQueue == AfterPill(q)
        invariant e != Pill ==> served + [e.data] + BeforePill(queryQueue.backingQueue) == BeforePill(q)
        invariant e != Pill ==> AfterPill(queryQueue.backingQueue) == AfterPill(q)
        invariant View() == ServedAll(sh, served, result, error).(queue := queryQueue.backingQueue)
        decreases |queryQueue.backingQueue|, e != Pill
      {
        ServedNext(sh, served, e.data, result, error, queryQueue.backingQueue);
        Serve(e.data, result(e.data), error(e.data));
        served := served + [e.data];
        PillFront(queryQueue.backingQueue);
        e := queryQueue.Take();
      }
    }
  }

  lemma PillFront(q: seq<Entry>)
    requires Pill in q
    ensures q[0] == Pill ==> BeforePill(q) == [] && AfterPill(q) == q[1..]
    ensures q[0] != Pill ==>
      Pill in q[1..] && BeforePill(q) == [q[0].data] + BeforePill(q[1..]) && AfterPill(q) == AfterPill(q[1..])
  {
  }

  function Served(sh: Shared, d: DataId, result: QueryResultStatus, error: ErrorText): Shared {
    var ran := RecordResult(WithStatus(sh, d, Running), d, result, error);
    FinishData(ran.(finishedQueries := ran.finishedQueries + [d]), d)
  }

  function ServedAll(sh: Shared, ds: seq<DataId>, result: DataId -> QueryResultStatus, error: DataId -> ErrorText)
    : Shared
  {
    if ds == [] then sh
    else
      var n := |ds| - 1;
      Served(ServedAll(sh, ds[..n], result, error), ds[n], result(ds[n]), error(ds[n]))
  }

  lemma ServedAllAppend(sh: Shared, ds: seq<DataId>, d: DataId, result: DataId -> QueryResultStatus,
                        error: DataId -> ErrorText)
    ensures ServedAll(sh, ds + [d], result, error) == Served(ServedAll(sh, ds, result, error), d, result(d), error(d))
  {
    assert (ds + [d])[..|ds|] == ds;
  }

  lemma ServedNext(sh: Shared, served: seq<DataId>, d: DataId, result: DataId -> QueryResultStatus,
                   error: DataId -> ErrorText, q: seq<Entry>)
    ensures Served(ServedAll(sh, served, result, error).(queue := q), d, result(d), error(d))
            == ServedAll(sh, served + [d], result, error).(queue := q)
  {
    ServedQueue(ServedAll(sh, served, result, error), q, d, result(d), error(d));
    ServedAllAppend(sh, served, d, result, error);
  }

  /** Serving does not look at the queue. */
  lemma ServedQueue(sh: Shared, q: seq<Entry>, d: DataId, result: QueryResultStatus, error: ErrorText)
    ensures Served(sh.(queue := q), d, result, error) == Served(sh, d, result, error).(queue := q)
  {
  }

  lemma ServedEffect(sh: Shared, x: DataId, result: QueryResultStatus, error: ErrorText, d: DataId)
    ensures var sh' := Served(sh, x, result, error);
      && sh'.finishedQueries == sh.finishedQueries + [x] && sh'.info.Keys == sh.info.Keys
      && (d in sh.info && d == x ==>
            sh'.info[d].finished && sh'.info[d].status == Complete && sh'.info[d].result == result)
      && (d in sh.info && d != x ==> sh'.info[d] == sh.info[d])
  {
  }

  /** What serving does to the outside: the served data are published in order, and each made one ends finished and
      complete with its own result; the others keep their records. */
  lemma {:induction false} ServedAllEffect(sh: Shared, ds: seq<DataId>, result: DataId -> QueryResultStatus,
                                           error: DataId -> ErrorText, d: DataId)
    ensures var sh' := ServedAll(sh, ds, result, error);
      && sh'.finishedQueries == sh.finishedQueries + ds && sh'.info.Keys == sh.info.Keys
      && (d in sh.info && d in ds ==>
            sh'.info[d].finished && sh'.info[d].status == Complete && sh'.info[d].result == result(d))
      && (d in sh.info && d !in ds ==> sh'.info[d] == sh.info[d])
  {
    if ds == [] {
      assert sh.finishedQueries + ds == sh.finishedQueries;
    } else {
      var n := |ds| - 1;
      ServedAllEffect(sh, ds[..n], result, error, d);
      ServedEffect(ServedAll(sh, ds[..n], result, error), ds[n], result(ds[n]), error(ds[n]), d);
      assert ds == ds[..n] + [ds[n]];
      assert sh.finishedQueries + ds == sh.finishedQueries + ds[..n] + [ds[n]];
    }
  }

  lemma {:induction false} QueueDataAppend(q: seq<Entry>, e: Entry)
    ensures QueueData(q + [e]) == QueueData(q) + if e.Item? then [e.data] else []
  {
    var tail := if e.Item? then [e.data] else [];
    if q == [] {
      assert q + [e] == [e];
      assert [e][1..] == [];
    } else {
      var head := if q[0].Item? then [q[0].data] else [];
      QueueDataAppend(q[1..], e);
      assert (q + [e])[1..] == q[1..] + [e];
      assert QueueData(q + [e]) == head + (QueueData(q[1..]) + tail);
      assert QueueData(q) == head + QueueData(q[1..]);
    }
  }

  lemma MarkNone(info: map<DataId, Data>)
    ensures MarkAborted(info, []) == info
  {
  }

  // ---------------------------------------------------------------------------------------------------------
  // IQuery
  // ---------------------------------------------------------------------------------------------------------

  class IQuery {
    var runningQueryData: seq<DataId>
    var hasBeenStarted: bool

    constructor ()
      ensures runningQueryData == [] && !hasBeenStarted
    {
      runningQueryData, hasBeenStarted := [], false;
    }

    method AddQueryData(db: Database, d: DataId)
      modifies this`runningQueryData, db`data
      ensures runningQueryData == old(runningQueryData) + [d]
      ensures db.View() == if d in old(db.data) && !hasBeenStarted
                           then old(db.View()).(info := old(db.data)[d := old(db.data)[d].(first := true)])
                           else old(db.View())
    {
      if !hasBeenStarted && d in db.data {
        db.data := db.data[d := db.data[d].(first := true)];
      }
      runningQueryData := runningQueryData + [d];
    }

    /** List the data, queue it, and only then mark the query as started. */
    method Start(db: Database, d: DataId)
      modifies this, db`data, db.queryQueue
      ensures runningQueryData == old(runningQueryData) + [d] && hasBeenStarted
      ensures var sh := old(db.View());
        var listed := if d in sh.info && !old(hasBeenStarted)
                      then sh.(info := sh.info[d := sh.info[d].(first := true)]) else sh;
        db.View() == WithStatus(Put(listed, Item(d)), d, Waiting)
    {
      AddQueryData(db, d);
      db.EnqueueQuery(d);
      hasBeenStarted := true;
    }

    /** Up to the wait on the condition variable, on the data started last. `started` is false where the source throws
        because nothing is running. */
    method Wait(db: Database, shouldSwap: bool) returns (started: bool, blocks: bool)
      modifies db, db.queryQueue, db.finishedQueries
      ensures started <==> runningQueryData != []
      ensures !started ==> db.View() == old(db.View()) && !blocks
      ensures started ==>
        var sh := old(db.View());
        var d := runningQueryData[|runningQueryData| - 1];
        && db.View() == EnterWait(if shouldSwap then sh.(queue := SwapToFront(sh.queue, Item(d))) else sh, d)
        && (blocks <==> sh.canWait && !Finished(sh, d))
    {
      if runningQueryData == [] {
        return false, false;
      }
      var d := runningQueryData[|runningQueryData| - 1];
      if shouldSwap {
        SwappedIfIsSwapToFront(db.queryQueue.backingQueue, e => e == Item(d), Item(d));
        var _ := db.queryQueue.SwapToFrontIf(e => e == Item(d));
      }
      blocks := db.WaitForQuery(d);
      started := true;
    }

    method FinishQueryData(d: DataId)
      modifies this`runningQueryData
      ensures runningQueryData == Dropped(old(runningQueryData), d)
    {
      if runningQueryData == [] { return; }
      var front := runningQueryData[0];
      if front == d {
        runningQueryData := runningQueryData[1..];
      } else {
        runningQueryData := Without(runningQueryData, d);
      }
    }

    /** Nothing interleaves here; the life cycle lets the worker take entries between two removals. */
    method Abort(db: Database) returns (abortedQueries: seq<DataId>)
      modifies db`data, db.queryQueue
      ensures db.View() == AbortedEach(old(db.View()), runningQueryData)
      ensures abortedQueries == AbortedList(old(db.View()), runningQueryData)
    {
      var runningQueries := runningQueryData;
      abortedQueries := [];
      ghost var sh := db.View();
      var i := 0;
      while i < |runningQueries|
        invariant 0 <= i <= |runningQueries|
        invariant db.View() == AbortedEach(sh, runningQueries[..i])
        invariant abortedQueries == AbortedList(sh, runningQueries[..i])
      {
        var wasRemoved := db.RemoveFromQueue(runningQueries[i]);
        assert runningQueries[..i + 1][..i] == runningQueries[..i];
        if wasRemoved {
          abortedQueries := abortedQueries + [runningQueries[i]];
        }
        i := i + 1;
      }
      assert runningQueries[..|runningQueries|] == runningQueries;
    }
  }

  function AbortedEach(sh: Shared, ds: seq<DataId>): Shared {
    if ds == [] then sh else RemoveQueued(AbortedEach(sh, ds[..|ds| - 1]), ds[|ds| - 1])
  }

  function AbortedList(sh: Shared, ds: seq<DataId>): seq<DataId> {
    if ds == [] then []
    else
      var n := |ds| - 1;
      AbortedList(sh, ds[..n]) + if Item(ds[n]) in AbortedEach(sh, ds[..n]).queue then [ds[n]] else []
  }

  function Elements(ds: seq<DataId>): (r: set<DataId>)
    ensures forall d :: d in r <==> d in ds
  {
    if ds == [] then {} else Elements(ds[..|ds| - 1]) + {ds[|ds| - 1]}
  }

  /** The entries that do not carry one of `ds`, in order. */
  function KeptEntries(q: seq<Entry>, ds: set<DataId>): seq<Entry> {
    if q == [] then []
    else (if q[0].Item? && q[0].data in ds then [] else [q[0]]) + KeptEntries(q[1..], ds)
  }

  /** The elements of `ds` that are queued, in order. */
  function QueuedOf(q: seq<Entry>, ds: seq<DataId>): seq<DataId> {
    if ds == [] then []
    else QueuedOf(q, ds[..|ds| - 1]) + if Item(ds[|ds| - 1]) in q then [ds[|ds| - 1]] else []
  }

  lemma {:induction false} KeptWithout(q: seq<Entry>, ds: set<DataId>, d: DataId)
    ensures Without(KeptEntries(q, ds), Item(d)) == KeptEntries(q, ds + {d})
    ensures Item(d) in KeptEntries(q, ds) <==> Item(d) in q && d !in ds
  {
    if q != [] {
      var head := if q[0].Item? && q[0].data in ds then [] else [q[0]];
      KeptWithout(q[1..], ds, d);
      WithoutConcat(head, KeptEntries(q[1..], ds), Item(d));
      if head != [] {
        assert [q[0]][1..] == [];
      }
    }
  }

  lemma {:induction false} KeptNone(q: seq<Entry>)
    ensures KeptEntries(q, {}) == q
  {
    if q != [] {
      KeptNone(q[1..]);
    }
  }

  lemma RemoveQueuedQueue(sh: Shared, d: DataId)
    ensures RemoveQueued(sh, d).queue == Without(sh.queue, Item(d))
    ensures RemoveQueued(sh, d).finishedQueries == sh.finishedQueries
  {
    if Item(d) !in sh.queue {
      WithoutAbsent(sh.queue, Item(d));
    }
  }

  lemma {:induction false} AbortedQueue(sh: Shared, ds: seq<DataId>)
    ensures AbortedEach(sh, ds).queue == KeptEntries(sh.queue, Elements(ds))
    ensures AbortedEach(sh, ds).finishedQueries == sh.finishedQueries
  {
    if ds == [] {
      KeptNone(sh.queue);
    } else {
      var n := |ds| - 1;
      var gone := Elements(ds[..n]);
      AbortedQueue(sh, ds[..n]);
      KeptWithout(sh.queue, gone, ds[n]);
      RemoveQueuedQueue(AbortedEach(sh, ds[..n]), ds[n]);
    }
  }

  lemma {:induction false} AbortedRecords(sh: Shared, ds: seq<DataId>, d: DataId)
    ensures var sh' := AbortedEach(sh, ds);
      && sh'.info.Keys == sh.info.Keys
      && (d in sh.info ==>
            sh'.info[d] == if d in ds && Item(d) in sh.queue then sh.info[d].(status := Aborted, finished := true)
                           else sh.info[d])
  {
    if ds != [] {
      var n := |ds| - 1;
      AbortedRecords(sh, ds[..n], d);
      AbortedQueue(sh, ds[..n]);
      KeptWithout(sh.queue, Elements(ds[..n]), d);
      assert ds == ds[..n] + [ds[n]];
    }
  }

  lemma {:induction false} AbortedListIs(sh: Shared, ds: seq<DataId>)
    requires forall i, j :: 0 <= i < j < |ds| ==> ds[i] != ds[j]
    ensures AbortedList(sh, ds) == QueuedOf(sh.queue, ds)
  {
    if ds != [] {
      var n := |ds| - 1;
      AbortedListIs(sh, ds[..n]);
      AbortedQueue(sh, ds[..n]);
      KeptWithout(sh.queue, Elements(ds[..n]), ds[n]);
    }
  }

  /** Aborting a query takes exactly its queued data out of the queue, keeps the rest in order with their records, and
      reports what it took, in start order; what it took is aborted and finished. */
  lemma AbortRemovesExactly(sh: Shared, ds: seq<DataId>, d: DataId)
    requires forall i, j :: 0 <= i < j < |ds| ==> ds[i] != ds[j]
    ensures var sh' := AbortedEach(sh, ds);
      && sh'.queue == KeptEntries(sh.queue, Elements(ds))
      && AbortedList(sh, ds) == QueuedOf(sh.queue, ds)
      && sh'.finishedQueries == sh.finishedQueries && sh'.info.Keys == sh.info.Keys
      && (d in sh.info ==>
            sh'.info[d] == if d in ds && Item(d) in sh.queue then sh.info[d].(status := Aborted, finished := true)
                           else sh.info[d])
  {
    AbortedQueue(sh, ds);
    AbortedRecords(sh, ds, d);
    AbortedListIs(sh, ds);
  }
}
