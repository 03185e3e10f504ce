/** `runQuery` of a single query: its retry after a reconnect does not clear what the first attempt stored. */
module SingleRetry {
  import opened QueryTypes
  import opened Results
  import opened Servers

  datatype Outcome = Outcome(session: Session, view: DataView)

  /** Whether the statement is executed again on a new connection. */
  predicate Again(fault: Option<Fault>, retry: bool, reconnects: bool) {
    fault.Some? && retry && IsRetriableError(fault.value.code) && reconnects
  }

  function Settled(s: Session, v: DataView, fault: Option<Fault>): Outcome {
    match fault
    case None => Outcome(s, v.(resultStatus := Success))
    case Some(f) => Outcome(s, v.(resultStatus := Error, errorText := f.text))
  }

  function RunQuery(s: Session, stmt: Statement, v: DataView, retry: bool, first: StatementReply, reconnects: bool,
                    second: StatementReply): Outcome
  {
    var (s1, v1, fault) := Executed(s, stmt, v, first);
    if Again(fault, retry, reconnects)
    then var (s2, v2, fault2) := Executed(s1.Reconnected(), stmt, v1, second); Settled(s2, v2, fault2)
    else Settled(s1, v1, fault)
  }

  /** The same in place. */
  method Run(server: Server, stmt: Statement, data: QueryData, retry: bool, first: StatementReply, reconnects: bool,
             second: StatementReply)
    modifies server, data
    ensures Outcome(server.session, data.View())
            == RunQuery(old(server.session), stmt, old(data.View()), retry, first, reconnects, second)
    decreases retry
  {
    var fault := server.Execute(stmt, data, first);
    if fault.None? {
      data.resultStatus := Success;
    } else if retry && IsRetriableError(fault.value.code) && reconnects {
      server.Reconnect();
      Run(server, stmt, data, false, second, false, second);
    } else {
      data.resultStatus := Error;
      data.errorText := fault.value.text;
    }
  }

  // ---------------------------------------------------------------------------------------------------------
  // What is left, for any answers, retry flag and reconnect
  // ---------------------------------------------------------------------------------------------------------

  /** What the first attempt reports. */
  function FirstFault(s: Session, first: StatementReply): Option<Fault> {
    if !s.live then Some(Gone())
    else
      match first.end
      case Done => None
      case Broken(f, _, _) => Some(f)
  }

  /** The statement is executed again. */
  predicate RunsAgain(s: Session, retry: bool, first: StatementReply, reconnects: bool) {
    Again(FirstFault(s, first), retry, reconnects)
  }

  function Rows(sets: seq<SetReply>): seq<ResultSet> {
    seq(|sets|, i requires 0 <= i < |sets| => RowsOf(sets[i]))
  }

  lemma {:induction false} StoredRows(d: DataView, sets: seq<SetReply>)
    ensures d.WithSets(sets).results == d.results + Rows(sets)
    ensures |d.WithSets(sets).insertIds| == |d.insertIds| + |sets|
    ensures |d.WithSets(sets).affectedRows| == |d.affectedRows| + |sets|
  {
    if sets != [] {
      StoredRows(d, sets[..|sets| - 1]);
    }
  }

  /** What one attempt stores. */
  lemma AttemptStores(d: DataView, reply: StatementReply)
    ensures var r := StatementData(d, reply); var half := if LeavesHalf(reply) then 1 else 0;
      && r.results == d.results + Rows(reply.sets)
      && |r.insertIds| == |d.insertIds| + |reply.sets| + half
      && |r.affectedRows| == |d.affectedRows| + |reply.sets| + half
  {
    StoredRows(d, reply.sets);
  }

  /** The attempt failed between storing a set's counters and its rows. */
  predicate LeavesHalf(reply: StatementReply) {
    reply.end.Broken? && reply.end.half.Some?
  }

  /** The effects an attempt commits: those of a session in autocommit. */
  function Gain(s: Session, stmt: Statement, reply: StatementReply): seq<Effect> {
    if s.live && s.autocommit then Ran(stmt, reply.end) else []
  }

  /** The data holds the sets of both attempts one after the other, and the effects of both are committed, as far as
      each attempt was made and got, whether they succeed or fail. */
  lemma RetryKeepsBoth(s: Session, stmt: Statement, v: DataView, retry: bool, first: StatementReply, reconnects: bool,
                       second: StatementReply)
    ensures var r := RunQuery(s, stmt, v, retry, first, reconnects, second);
      var again := RunsAgain(s, retry, first, reconnects);
      && r.view.results
         == v.results + (if s.live then Rows(first.sets) else []) + (if again then Rows(second.sets) else [])
      && r.session.committed
         == s.committed + Gain(s, stmt, first) + (if again then Ran(stmt, second.end) else [])
      && (r.view.resultStatus == Success <==> if again then second.end.Done? else s.live && first.end.Done?)
      && (r.view.resultStatus == Success || r.view.resultStatus == Error)
  {
    var v1 := if s.live then StatementData(v, first) else v;
    AttemptStores(v, first);
    AttemptStores(v1, second);
    assert v.results + [] == v.results && v1.results + [] == v1.results;
    assert s.committed + [] == s.committed;
    assert s.committed + Gain(s, stmt, first) + [] == s.committed + Gain(s, stmt, first);
  }

  /** A query that is executed again ends with the data of the second attempt alone, whatever that attempt is answered,
      if and only if the first had stored nothing. */
  lemma RetriedExactIff(s: Session, stmt: Statement, v: DataView, retry: bool, first: StatementReply, reconnects: bool,
                        second: StatementReply)
    requires RunsAgain(s, retry, first, reconnects)
    ensures RunQuery(s, stmt, v, retry, first, reconnects, second).view
            == RunQuery(s.Reconnected(), stmt, v, false, second, false, second).view
            <==> s.live ==> StoredNothing(first)
  {
    var v1 := if s.live then StatementData(v, first) else v;
    AttemptStores(v, first);
    AttemptStores(v1, second);
    AttemptStores(v, second);
  }

  /** The three queues stay parallel if and only if no attempt that was made failed between storing a set's counters
      and its rows. */
  lemma RetriedAlignedIff(s: Session, stmt: Statement, v: DataView, retry: bool, first: StatementReply,
                          reconnects: bool, second: StatementReply)
    requires v.Aligned()
    ensures RunQuery(s, stmt, v, retry, first, reconnects, second).view.Aligned()
            <==> && (s.live ==> !LeavesHalf(first))
                 && (RunsAgain(s, retry, first, reconnects) ==> !LeavesHalf(second))
  {
    var v1 := if s.live then StatementData(v, first) else v;
    AttemptStores(v, first);
    AttemptStores(v1, second);
  }

  /** On a clean session a query that succeeds has its effects committed exactly once if and only if it was executed
      once, or the failed first attempt had none; and one that fails has nothing committed if and only if no attempt
      had any. */
  lemma RetriedOnceIff(s: Session, stmt: Statement, v: DataView, retry: bool, first: StatementReply, reconnects: bool,
                       second: StatementReply)
    requires s.Clean()
    ensures var r := RunQuery(s, stmt, v, retry, first, reconnects, second);
      var again := RunsAgain(s, retry, first, reconnects);
      if r.view.resultStatus == Success
      then r.session.committed == s.committed + stmt.effects <==> (again && s.live ==> Ran(stmt, first.end) == [])
      else r.session.committed == s.committed
           <==> (s.live ==> Ran(stmt, first.end) == []) && (again ==> Ran(stmt, second.end) == [])
  {
    RetryKeepsBoth(s, stmt, v, retry, first, reconnects, second);
    var r := RunQuery(s, stmt, v, retry, first, reconnects, second);
    var one := Gain(s, stmt, first);
    var two := if RunsAgain(s, retry, first, reconnects) then Ran(stmt, second.end) else [];
    assert |s.committed + one + two| == |s.committed| + |one| + |two|;
    assert s.committed + [] == s.committed && s.committed + one + [] == s.committed + one;
  }

  /** The error an answer ends with. */
  function ErrorOf(live: bool, reply: StatementReply): Option<Fault> {
    if !live then Some(Fault(2006, Gone().text, true))
    else if reply.end.Done? then None
    else Some(reply.end.fault)
  }

  /** For all answers: a query is executed a second time if and only if retries are on, the first time ended with one of
      seven errors, a session already gone included, and the reconnect works; then on a new session in autocommit, into
      the data as the first time left it. The result and the error text are those of the last time, and after a success
      the text stays as it was. */
  lemma ExecutedAgainIff(s: Session, stmt: Statement, v: DataView, retry: bool, first: StatementReply, reconnects: bool,
                         second: StatementReply)
    ensures var r := RunQuery(s, stmt, v, retry, first, reconnects, second);
      var error := ErrorOf(s.live, first);
      var again := retry && reconnects && error.Some?
                   && error.value.code in {1053, 1243, 1461, 2006, 2013, 2030, 4031};
      var last := if again then ErrorOf(true, second) else error;
      var (s1, v1, _) := Executed(s, stmt, v, first);
      var (s2, v2, _) := Executed(Session(s1.committed, true, true, []), stmt, v1, second);
      && (again <==> RunsAgain(s, retry, first, reconnects))
      && r.session == (if again then s2 else s1)
      && r.view == (if again then v2 else v1).(resultStatus := if last.None? then Success else Error,
                                               errorText := if last.None? then v.errorText else last.value.text)
  {
    StoringKeepsText(v, first.sets);
    StoringKeepsText(StatementData(v, first), second.sets);
    StoringKeepsText(v, second.sets);
  }

  lemma {:induction false} StoringKeepsText(d: DataView, sets: seq<SetReply>)
    ensures d.WithSets(sets).errorText == d.errorText
  {
    if sets != [] {
      StoringKeepsText(d, sets[..|sets| - 1]);
    }
  }
}
