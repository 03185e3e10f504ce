/**
 What the data of a transaction's members say after the run: which member the last attempt ended at, and, as a function
 of the answers of that attempt alone, every member's status, error text and result sets.
 */
module Members {
  import opened QueryTypes
  import opened Results
  import opened Servers
  import opened Transactions

  /** What every member's data is reset to before an attempt. */
  function Fresh(): DataView {
    DataView(Running, NoResult, "", [], [], [])
  }

  /** The first of the first `n` members whose statement the server breaks, or `n`. */
  function FirstBroken(members: nat -> StatementReply, n: nat): (k: nat)
    ensures k <= n
    ensures forall i :: 0 <= i < k ==> members(i).end.Done?
    ensures k < n ==> members(k).end.Broken?
  {
    if n == 0 then 0
    else
      var k := FirstBroken(members, n - 1);
      if k < n - 1 || members(n - 1).end.Broken? then k else n
  }

  /** A member that completed. */
  function Completed(reply: StatementReply): DataView {
    Fresh().WithSets(reply.sets).(status := Complete, resultStatus := Success)
  }

  /** The member that failed, while it is not repaired. */
  function Failed(reply: StatementReply): DataView
    requires reply.end.Broken?
  {
    StatementData(Fresh(), reply).(resultStatus := Error, errorText := reply.end.fault.text)
  }

  /** The data of member `i` when the members ran up to member `k`, which failed if there is one. */
  function MemberData(members: nat -> StatementReply, n: nat, k: nat, i: nat): DataView
    requires k < n ==> members(k).end.Broken?
  {
    if i < k then Completed(members(i)) else if i == k < n then Failed(members(i)) else Fresh()
  }

  lemma {:induction false} MembersData(s: Session, stmts: seq<Statement>, views: seq<DataView>, answers: Answers,
                                       n: nat, i: nat)
    requires n <= |stmts| == |views| && i < |stmts| && s.live
    requires forall j :: 0 <= j < |views| ==> views[j] == Fresh()
    ensures var p := MembersRun(s, stmts, views, answers, n); var k := FirstBroken(answers.members, n);
      && p.at == k && (p.fault.Some? <==> k < n) && (p.fault.None? ==> p.session.live)
      && (k < n ==> p.fault.value == answers.members(k).end.fault)
      && p.views[i] == MemberData(answers.members, n, k, i)
  {
    if n > 0 {
      MembersData(s, stmts, views, answers, n - 1, i);
      MembersData(s, stmts, views, answers, n - 1, n - 1);
      StoringKeeps(Fresh(), answers.members(n - 1).sets);
    }
  }

  /** Storing result sets changes nothing else. */
  lemma {:induction false} StoringKeeps(d: DataView, sets: seq<SetReply>)
    ensures var r := d.WithSets(sets);
      r.status == d.status && r.resultStatus == d.resultStatus && r.errorText == d.errorText
  {
    if sets != [] {
      StoringKeeps(d, sets[..|sets| - 1]);
    }
  }

  /** Turning autocommit off succeeds. */
  predicate Begins(s: Session, answers: Answers) {
    s.live && answers.off.Ok?
  }

  /** The member an attempt ends at: none runs if autocommit cannot be turned off. */
  function EndsAt(s: Session, answers: Answers, n: nat): (k: nat)
    ensures k <= n
  {
    if Begins(s, answers) then FirstBroken(answers.members, n) else 0
  }

  /** `hasMoreResults` of a query whose callback data this is. */
  predicate ShowsMore(v: DataView) {
    v.status != Aborted && v.HasMore()
  }

  /** Data of a member that was not executed, or was not reached, after the repair. */
  function Untouched(): DataView {
    DataView(Aborted, Error, "", [[]], [0], [0])
  }

  /** The data of member `i` after an attempt that failed at `k`; `began` says whether any member was executed. */
  function FailedData(members: nat -> StatementReply, n: nat, began: bool, k: nat, i: nat): DataView
    requires k < n && began ==> members(k).end.Broken?
  {
    if i < k then Completed(members(i))
    else if i == k < n && began then Repaired(Failed(members(k)))
    else Untouched()
  }

  /** The repair leaves a completed member alone; one that was running is aborted with an error and an empty set behind
      what it had stored; any other is complete with an error. */
  lemma RepairedIs(v: DataView)
    ensures var r := Repaired(v);
      && (v.status == Complete ==> r == v)
      && (v.status == Running ==>
            r == DataView(Aborted, Error, v.errorText, v.results + [[]], v.insertIds + [0], v.affectedRows + [0]))
      && (v.status != Complete && v.status != Running ==>
            r == DataView(Complete, Error, v.errorText, v.results, v.insertIds, v.affectedRows))
  {
  }

  lemma BodyMembers(s: Session, stmts: seq<Statement>, views: seq<DataView>, answers: Answers, i: nat)
    requires i < |stmts| == |views|
    ensures var p := Body(s, stmts, views, answers); var k := EndsAt(s, answers, |stmts|);
      && p.at == k
      && (p.fault.None? <==> Begins(s, answers) && k == |stmts| && answers.commit.CommitOk?)
      && p.views[i] == if Begins(s, answers) then MemberData(answers.members, |stmts|, k, i) else Fresh()
  {
    var (s1, off) := Autocommitted(s, false, answers.off);
    if off.None? {
      MembersData(s1, stmts, PreparedAll(views), answers, |stmts|, i);
    }
  }

  /** An attempt that failed: members before the failing one completed and keep their sets, that one carries its error
      text and whatever it had stored, with an empty set behind it, and the others are aborted with an empty set. */
  lemma FailedAttemptMembers(s: Session, stmts: seq<Statement>, views: seq<DataView>, answers: Answers, i: nat)
    requires i < |stmts| == |views| && Attempted(s, stmts, views, answers).fault.Some?
    ensures var p := Attempted(s, stmts, views, answers); var k := EndsAt(s, answers, |stmts|);
      && p.at == k
      && p.views[i] == FailedData(answers.members, |stmts|, Begins(s, answers), k, i)
  {
    BodyMembers(s, stmts, views, answers, i);
    StoringKeeps(Fresh(), answers.members(i).sets);
  }

  /** The counter a half or fully stored first set left, or 0. */
  function FirstInsertId(reply: StatementReply): nat
    requires reply.end.Broken?
  {
    if reply.sets != [] then reply.sets[0].insertId
    else if reply.end.half.Some? then reply.end.half.value.insertId else 0
  }

  function FirstAffectedRows(reply: StatementReply): nat
    requires reply.end.Broken?
  {
    if reply.sets != [] then reply.sets[0].affectedRows
    else if reply.end.half.Some? then reply.end.half.value.affectedRows else 0
  }

  /** The member a transaction failed at is aborted with its error text, but `lastInsert` and `affectedRows` still tell
      the counters of the first set it had stored, although they were rolled back. Its data is that of a member that
      was never executed, apart from the text, if and only if it had stored nothing. */
  lemma FailedMemberKeepsCounters(reply: StatementReply)
    requires reply.end.Broken?
    ensures var v := Repaired(Failed(reply));
      && v.status == Aborted && v.resultStatus == Error && v.errorText == reply.end.fault.text
      && v.LastInsertId() == FirstInsertId(reply) && v.AffectedRows() == FirstAffectedRows(reply)
      && (v == Untouched().(errorText := reply.end.fault.text) <==> StoredNothing(reply))
  {
    StoringKeeps(Fresh(), reply.sets);
    StoredSets(Fresh(), reply.sets, 0);
  }

  /** Reading on, every set it had stored shows its counters, also the half stored one, as if they had not been rolled
      back; `hasMoreResults` is false all along. */
  lemma FailedMemberReads(reply: StatementReply, j: nat)
    requires reply.end.Broken? && j <= |reply.sets|
    ensures var after := Repaired(Failed(reply)).PoppedTimes(j);
      && (j < |reply.sets| ==>
            after.LastInsertId() == reply.sets[j].insertId && after.AffectedRows() == reply.sets[j].affectedRows)
      && (j == |reply.sets| && reply.end.half.Some? ==>
            && after.LastInsertId() == reply.end.half.value.insertId
            && after.AffectedRows() == reply.end.half.value.affectedRows)
      && !ShowsMore(after)
  {
    var v := Repaired(Failed(reply));
    StoringKeeps(Fresh(), reply.sets);
    StoredSets(Fresh(), reply.sets, j);
    PoppedSuffix(v, j);
  }

  /** When every member completed, the sets of each are those of the server in its order. */
  lemma SucceededAttemptMembers(s: Session, stmts: seq<Statement>, views: seq<DataView>, answers: Answers, i: nat)
    requires i < |stmts| == |views| && Attempted(s, stmts, views, answers).fault.None?
    ensures Attempted(s, stmts, views, answers).views[i] == Completed(answers.members(i))
    ensures answers.members(i).end.Done?
  {
    BodyMembers(s, stmts, views, answers, i);
  }

  /** Reading a completed member yields its sets in the order of the server. */
  lemma CompletedReadsServerOrder(reply: StatementReply, j: nat)
    ensures var after := Completed(reply).PoppedTimes(j);
      && (ShowsMore(after) <==> j < |reply.sets|)
      && (j < |reply.sets| ==>
            && after.results[0] == RowsOf(reply.sets[j]) && after.LastInsertId() == reply.sets[j].insertId
            && after.AffectedRows() == reply.sets[j].affectedRows)
  {
    var d := Fresh().(status := Complete, resultStatus := Success);
    StoringCommutes(Fresh(), reply.sets);
    ReadsServerOrder(d, reply.sets, j);
    PoppingKeeps(Completed(reply), j);
    assert d.Cleared() == d;
  }

  lemma {:induction false} StoringCommutes(d: DataView, sets: seq<SetReply>)
    ensures d.WithSets(sets).(status := Complete, resultStatus := Success)
            == d.(status := Complete, resultStatus := Success).WithSets(sets)
  {
    if sets != [] {
      StoringCommutes(d, sets[..|sets| - 1]);
    }
  }

  lemma {:induction false} PoppingKeeps(d: DataView, j: nat)
    ensures d.PoppedTimes(j).status == d.status && d.PoppedTimes(j).resultStatus == d.resultStatus
  {
    if j > 0 {
      PoppingKeeps(d, j - 1);
    }
  }

  // ---------------------------------------------------------------------------------------------------------
  // Across the retry
  // ---------------------------------------------------------------------------------------------------------

  /** The data of member `i` as a function of the answers of the attempt that was the last. */
  function FinalData(s: Session, answers: Answers, n: nat, failed: bool, i: nat): DataView {
    if failed then FailedData(answers.members, n, Begins(s, answers), EndsAt(s, answers, n), i)
    else Completed(answers.members(i))
  }

  /** Across the retry the members are a prefix of completed ones and a rest of aborted ones, cut where the last
      attempt ended; their data is a function of the answers of that attempt, whatever it held before. */
  lemma MemberStatusPrefix(s: Session, stmts: seq<Statement>, views: seq<DataView>, retry: bool, first: Answers,
                           reconnects: bool, second: Answers, i: nat)
    requires i < |stmts| == |views|
    ensures
      var r := RunQuery(s, stmts, views, retry, first, reconnects, second);
      var again := Retries(Attempted(s, stmts, views, first), retry, reconnects);
      r.views[i] == if again then FinalData(s.Reconnected(), second, |stmts|, r.result == Error, i)
                    else FinalData(s, first, |stmts|, r.result == Error, i)
  {
    var p := Attempted(s, stmts, views, first);
    if Retries(p, retry, reconnects) {
      AttemptMembers(p.session.Reconnected(), stmts, p.views, second, i);
    } else {
      AttemptMembers(s, stmts, views, first, i);
    }
  }

  lemma AttemptMembers(s: Session, stmts: seq<Statement>, views: seq<DataView>, answers: Answers, i: nat)
    requires i < |stmts| == |views|
    ensures var p := Attempted(s, stmts, views, answers);
      p.views[i] == FinalData(s, answers, |stmts|, p.fault.Some?, i)
  {
    if Attempted(s, stmts, views, answers).fault.None? {
      SucceededAttemptMembers(s, stmts, views, answers, i);
    } else {
      FailedAttemptMembers(s, stmts, views, answers, i);
    }
  }

  /** What that data says of member `i` of a failed transaction. */
  lemma FailedStatuses(s: Session, answers: Answers, n: nat, i: nat)
    requires i < n
    ensures var k := EndsAt(s, answers, n); var v := FinalData(s, answers, n, true, i);
      && (v.status == Complete <==> i < k) && (v.status == Aborted <==> i >= k)
      && (v.resultStatus == Success <==> i < k) && (v.resultStatus == Error <==> i >= k)
      && (v.errorText != "" ==> i == k && Begins(s, answers))
      && (i > k ==> v.results == [[]] && v.LastInsertId() == 0 && v.AffectedRows() == 0)
  {
    StoringKeeps(Fresh(), answers.members(i).sets);
    if i == EndsAt(s, answers, n) && Begins(s, answers) {
      FailedMemberKeepsCounters(answers.members(i));
    }
  }

  // ---------------------------------------------------------------------------------------------------------
  // Whether there is a second attempt, and what the script is told
  // ---------------------------------------------------------------------------------------------------------

  /** The error an attempt ends with, from the answers alone: that of a session already gone, or the first one a call
      is answered with. */
  function FirstError(s: Session, answers: Answers, n: nat): Option<Fault> {
    if !s.live then Some(Fault(2006, Gone().text, true))
    else if answers.off.Fails? then Some(answers.off.fault)
    else
      var k := FirstBroken(answers.members, n);
      if k < n then Some(answers.members(k).end.fault)
      else if answers.commit.CommitFails? then Some(answers.commit.fault)
      else None
  }

  lemma AttemptError(s: Session, stmts: seq<Statement>, views: seq<DataView>, answers: Answers)
    requires |stmts| == |views|
    ensures Attempted(s, stmts, views, answers).fault == FirstError(s, answers, |stmts|)
  {
    var (s1, off) := Autocommitted(s, false, answers.off);
    if off.None? && stmts != [] {
      MembersData(s1, stmts, PreparedAll(views), answers, |stmts|, 0);
    }
  }

  /** For all answers: a transaction is attempted a second time if and only if retries are on, the first attempt ended
      with one of seven errors, and the reconnect works; then on a new session in autocommit, without anything open. The
      result and the error text are those of the last attempt. */
  lemma AttemptedAgainIff(s: Session, stmts: seq<Statement>, views: seq<DataView>, retry: bool, first: Answers,
                          reconnects: bool, second: Answers)
    requires |stmts| == |views|
    ensures var p := Attempted(s, stmts, views, first);
      var r := RunQuery(s, stmts, views, retry, first, reconnects, second);
      var anew := Session(p.session.committed, true, true, []);
      var error := FirstError(s, first, |stmts|);
      var again := retry && reconnects && error.Some?
                   && error.value.code in {1053, 1243, 1461, 2006, 2013, 2030, 4031};
      var last := if again then FirstError(anew, second, |stmts|) else error;
      && r.last == (if again then Attempted(anew, stmts, p.views, second) else p)
      && r.session == r.last.session && r.views == r.last.views
      && r.result == (if last.None? then Success else Error)
      && r.errorText == (if last.None? then None else Some(last.value.text))
  {
    AttemptError(s, stmts, views, first);
    var p := Attempted(s, stmts, views, first);
    AttemptError(p.session.Reconnected(), stmts, p.views, second);
  }
}
