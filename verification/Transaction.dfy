/** A transaction's execution, its repair after an error, and the retry after a reconnect. */
module Transactions {
  import opened QueryTypes
  import opened Results
  import opened Servers

  /** What the server answers during one attempt. */
  datatype Answers = Answers(
    off: Reply, members: nat -> StatementReply, commit: CommitReply, rollback: Reply, on: Reply)

  // ---------------------------------------------------------------------------------------------------------
  // One attempt, on values
  // ---------------------------------------------------------------------------------------------------------

  /** How far an attempt got: the fault that ended it, and the member it ended at. */
  datatype Progress = Progress(session: Session, views: seq<DataView>, fault: Option<Fault>, at: nat)

  /** Errors and data of an earlier attempt are cleared. */
  function Prepared(v: DataView): DataView {
    v.(status := Running, resultStatus := NoResult, errorText := "").Cleared()
  }

  function PreparedAll(views: seq<DataView>): (r: seq<DataView>)
    ensures |r| == |views| && forall i :: 0 <= i < |r| ==> r[i] == Prepared(views[i])
  {
    seq(|views|, i requires 0 <= i < |views| => Prepared(views[i]))
  }

  /** One member: its data says how it went. */
  function MemberRun(s: Session, stmt: Statement, v: DataView, reply: StatementReply)
    : (Session, DataView, Option<Fault>)
  {
    var (s', v', fault) := Executed(s, stmt, v, reply);
    match fault
    case None => (s', v'.(status := Complete, resultStatus := Success), None)
    case Some(f) => (s', v'.(errorText := f.text, resultStatus := Error), fault)
  }

  /** The first `n` members. */
  function MembersRun(s: Session, stmts: seq<Statement>, views: seq<DataView>, answers: Answers, n: nat): (p: Progress)
    requires n <= |stmts| == |views|
    ensures |p.views| == |views| && p.at <= n
    ensures p.fault.None? ==> p.at == n
  {
    if n == 0 then Progress(s, views, None, 0)
    else
      var p := MembersRun(s, stmts, views, answers, n - 1);
      if p.fault.Some? then p
      else
        var (s', v, fault) := MemberRun(p.session, stmts[n - 1], p.views[n - 1], answers.members(n - 1));
        Progress(s', p.views[n - 1 := v], fault, if fault.None? then n else n - 1)
  }

  /** Everything up to the commit. */
  function Body(s: Session, stmts: seq<Statement>, views: seq<DataView>, answers: Answers): (p: Progress)
    requires |stmts| == |views|
    ensures |p.views| == |views| && p.at <= |stmts|
  {
    var (s1, off) := Autocommitted(s, false, answers.off);
    if off.Some? then Progress(s1, PreparedAll(views), off, 0)
    else
      var p := MembersRun(s1, stmts, PreparedAll(views), answers, |stmts|);
      if p.fault.Some? then p
      else
        var (s2, fault) := CommitDone(p.session, answers.commit);
        Progress(s2, p.views, fault, |stmts|)
  }

  /** Members that did not complete get a readable state. */
  function Repaired(v: DataView): DataView {
    if v.status == Complete then v
    else if v.status == Running then v.(resultStatus := Error).WithEmptySet().(status := Aborted)
    else v.(resultStatus := Error, status := Complete)
  }

  function RepairedAll(views: seq<DataView>): (r: seq<DataView>)
    ensures |r| == |views| && forall i :: 0 <= i < |r| ==> r[i] == Repaired(views[i])
  {
    seq(|views|, i requires 0 <= i < |views| => Repaired(views[i]))
  }

  /** `executeStatement` of a transaction. */
  function Attempted(s: Session, stmts: seq<Statement>, views: seq<DataView>, answers: Answers): (p: Progress)
    requires |stmts| == |views|
    ensures |p.views| == |views| && p.at <= |stmts|
  {
    var p := Body(s, stmts, views, answers);
    if p.fault.None? then p.(session := Autocommitted(p.session, true, answers.on).0)
    else p.(session := Autocommitted(RolledBack(p.session, answers.rollback), true, answers.on).0,
            views := RepairedAll(p.views))
  }

  // ---------------------------------------------------------------------------------------------------------
  // The retry, on values
  // ---------------------------------------------------------------------------------------------------------

  datatype Outcome = Outcome(
    session: Session, views: seq<DataView>, result: QueryResultStatus, errorText: Option<string>, last: Progress)

  /** Whether a failed first attempt is repeated on a new connection. */
  predicate Retries(first: Progress, retry: bool, reconnects: bool) {
    first.fault.Some? && retry && IsRetriableError(first.fault.value.code) && reconnects
  }

  function Settled(p: Progress): Outcome {
    match p.fault
    case None => Outcome(p.session, p.views, Success, None, p)
    case Some(f) => Outcome(p.session, p.views, Error, Some(f.text), p)
  }

  /** `runQuery` of a transaction. */
  function RunQuery(s: Session, stmts: seq<Statement>, views: seq<DataView>, retry: bool, first: Answers,
                    reconnects: bool, second: Answers): Outcome
    requires |stmts| == |views|
  {
    var p := Attempted(s, stmts, views, first);
    if Retries(p, retry, reconnects) then Settled(Attempted(p.session.Reconnected(), stmts, p.views, second))
    else Settled(p)
  }

  // ---------------------------------------------------------------------------------------------------------
  // The same in place
  // ---------------------------------------------------------------------------------------------------------

  function Statements(queries: seq<(Statement, QueryData)>): (r: seq<Statement>)
    ensures |r| == |queries| && forall i :: 0 <= i < |r| ==> r[i] == queries[i].0
  {
    seq(|queries|, i requires 0 <= i < |queries| => queries[i].0)
  }

  ghost predicate DistinctData(queries: seq<(Statement, QueryData)>) {
    forall i, j :: 0 <= i < j < |queries| ==> queries[i].1 != queries[j].1
  }

  ghost function DataOf(queries: seq<(Statement, QueryData)>): set<object> {
    set i | 0 <= i < |queries| :: queries[i].1
  }

  ghost function Views(queries: seq<(Statement, QueryData)>): (r: seq<DataView>)
    reads DataOf(queries)
    ensures |r| == |queries| && forall i :: 0 <= i < |r| ==> r[i] == queries[i].1.View()
  {
    seq(|queries|, i requires 0 <= i < |queries| reads DataOf(queries) => queries[i].1.View())
  }

  class TransactionData {
    const queries: seq<(Statement, QueryData)>
    var status: QueryStatus
    var resultStatus: QueryResultStatus
    var errorText: string

    constructor (queries: seq<(Statement, QueryData)>)
      ensures this.queries == queries && status == NotRunning && resultStatus == NoResult && errorText == ""
    {
      this.queries := queries;
      status, resultStatus, errorText := NotRunning, NoResult, "";
    }

    /** Clear what an earlier attempt left. */
    method Prepare()
      requires DistinctData(queries)
      modifies DataOf(queries)
      ensures Views(queries) == PreparedAll(old(Views(queries)))
    {
      for i := 0 to |queries|
        invariant forall j :: 0 <= j < i ==> queries[j].1.View() == Prepared(old(queries[j].1.View()))
        invariant forall j :: i <= j < |queries| ==> queries[j].1.View() == old(queries[j].1.View())
      {
        var data := queries[i].1;
        data.status := Running;
        data.resultStatus := NoResult;
        data.errorText := "";
        data.ClearResultData();
      }
    }

    /** Give the members that did not complete a readable state. */
    method Repair()
      requires DistinctData(queries)
      modifies DataOf(queries)
      ensures Views(queries) == RepairedAll(old(Views(queries)))
    {
      for i := 0 to |queries|
        invariant forall j :: 0 <= j < i ==> queries[j].1.View() == Repaired(old(queries[j].1.View()))
        invariant forall j :: i <= j < |queries| ==> queries[j].1.View() == old(queries[j].1.View())
      {
        var data := queries[i].1;
        if data.status != Complete {
          data.resultStatus := Error;
          if data.status == Running {
            data.EmplaceEmptyResultData();
            data.status := Aborted;
          } else {
            data.status := Complete;
          }
        }
      }
    }

    method ExecuteMember(server: Server, i: nat, reply: StatementReply) returns (fault: Option<Fault>)
      requires i < |queries|
      modifies server, queries[i].1
      ensures (server.session, queries[i].1.View(), fault)
              == MemberRun(old(server.session), queries[i].0, old(queries[i].1.View()), reply)
    {
      var data := queries[i].1;
      fault := server.Execute(queries[i].0, data, reply);
      if fault.Some? {
        data.errorText := fault.value.text;
        data.resultStatus := Error;
      } else {
        data.status := Complete;
        data.resultStatus := Success;
      }
    }

    /** The members' data are as the attempt's progress says. */
    ghost predicate Holds(server: Server, p: Progress)
      reads server, DataOf(queries)
    {
      && server.session == p.session && |p.views| == |queries|
      && forall j :: 0 <= j < |queries| ==> queries[j].1.View() == p.views[j]
    }

    /** The body of the member loop. */
    method ExecuteNext(server: Server, i: nat, answers: Answers, ghost s: Session, ghost views: seq<DataView>)
      returns (fault: Option<Fault>)
      requires DistinctData(queries) && i < |queries| == |views|
      requires MembersRun(s, Statements(queries), views, answers, i).fault.None?
      requires Holds(server, MembersRun(s, Statements(queries), views, answers, i))
      modifies server, queries[i].1
      ensures Holds(server, MembersRun(s, Statements(queries), views, answers, i + 1))
      ensures fault == MembersRun(s, Statements(queries), views, answers, i + 1).fault
    {
      MembersNext(s, Statements(queries), views, answers, i);
      fault := ExecuteMember(server, i, answers.members(i));
    }

    /** The member loop. */
    method ExecuteMembers(server: Server, answers: Answers) returns (fault: Option<Fault>)
      requires DistinctData(queries)
      modifies server, DataOf(queries)
      ensures var p := MembersRun(old(server.session), Statements(queries), old(Views(queries)), answers, |queries|);
        Holds(server, p) && fault == p.fault
    {
      ghost var s, views := server.session, Views(queries);
      var i := 0;
      while i < |queries|
        invariant 0 <= i <= |queries|
        invariant MembersRun(s, Statements(queries), views, answers, i).fault.None?
        invariant Holds(server, MembersRun(s, Statements(queries), views, answers, i))
      {
        fault := ExecuteNext(server, i, answers, s, views);
        if fault.Some? {
          MembersStop(s, Statements(queries), views, answers, i + 1, |queries|);
          return fault;
        }
        i := i + 1;
      }
      return None;
    }

    /** Everything up to the commit. */
    method ExecuteBody(server: Server, answers: Answers) returns (fault: Option<Fault>)
      requires DistinctData(queries)
      modifies server, DataOf(queries)
      ensures var p := Body(old(server.session), Statements(queries), old(Views(queries)), answers);
        Holds(server, p) && fault == p.fault
    {
      Prepare();
      fault := server.SetAutocommit(false, answers.off);
      if fault.Some? {
        return;
      }
      fault := ExecuteMembers(server, answers);
      if fault.Some? {
        return;
      }
      fault := server.Commit(answers.commit);
    }

    /** `executeStatement`; the fault is what it throws. */
    method ExecuteStatement(server: Server, answers: Answers) returns (fault: Option<Fault>)
      requires DistinctData(queries)
      modifies this, server, DataOf(queries)
      ensures var p := Attempted(old(server.session), Statements(queries), old(Views(queries)), answers);
        Holds(server, p) && fault == p.fault
      ensures status == Running && errorText == old(errorText)
      ensures resultStatus == if fault.None? then Success else Error
    {
      status := Running;
      fault := ExecuteBody(server, answers);
      if fault.None? {
        resultStatus := Success;
        var _ := server.SetAutocommit(true, answers.on);
      } else {
        resultStatus := Error;
        server.Rollback(answers.rollback);
        var _ := server.SetAutocommit(true, answers.on);
        Repair();
      }
    }

    /** `runQuery`. */
    method Run(server: Server, retry: bool, first: Answers, reconnects: bool, second: Answers)
      requires DistinctData(queries)
      modifies this, server, DataOf(queries)
      ensures var r := RunQuery(old(server.session), Statements(queries), old(Views(queries)), retry, first, reconnects,
                           second);
        && Holds(server, r.last) && resultStatus == r.result
        && errorText == (if r.errorText.Some? then r.errorText.value else old(errorText))
      decreases retry
    {
      ghost var p := Attempted(server.session, Statements(queries), Views(queries), first);
      var fault := ExecuteStatement(server, first);
      assert Views(queries) == p.views;
      if fault.None? {
        resultStatus := Success;
      } else if retry && IsRetriableError(fault.value.code) && reconnects {
        server.Reconnect();
        Run(server, false, second, false, second);
      } else {
        resultStatus := Error;
        errorText := fault.value.text;
      }
    }
  }

  lemma MembersNext(s: Session, stmts: seq<Statement>, views: seq<DataView>, answers: Answers, n: nat)
    requires n < |stmts| == |views| && MembersRun(s, stmts, views, answers, n).fault.None?
    ensures var p := MembersRun(s, stmts, views, answers, n);
      var (s', v, fault) := MemberRun(p.session, stmts[n], p.views[n], answers.members(n));
      MembersRun(s, stmts, views, answers, n + 1)
      == Progress(s', p.views[n := v], fault, if fault.None? then n + 1 else n)
  {
  }

  /** Nothing runs after the member that failed. */
  lemma {:induction false} MembersStop(s: Session, stmts: seq<Statement>, views: seq<DataView>, answers: Answers,
                                       m: nat, n: nat)
    requires m <= n <= |stmts| == |views|
    requires MembersRun(s, stmts, views, answers, m).fault.Some?
    ensures MembersRun(s, stmts, views, answers, n) == MembersRun(s, stmts, views, answers, m)
    decreases n - m
  {
    if m < n {
      MembersStop(s, stmts, views, answers, m, n - 1);
    }
  }
}
