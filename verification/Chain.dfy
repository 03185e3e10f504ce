/**
 Many queries and transactions one after the other on the connection of one database: the session each of them finds is
 the one its predecessor left.
 */
module Chains {
  import opened QueryTypes
  import opened Results
  import opened Servers
  import T = Transactions
  import Atomicity
  import SingleRetry

  /** One thing that happens to the session, with what the server answers. A ping reconnects when the session is gone
      or does not answer. */
  datatype Job =
    | Single(stmt: Statement, view: DataView, retry: bool, one: StatementReply, reconnects: bool, two: StatementReply)
    | Atomic(stmts: seq<Statement>, views: seq<DataView>, retry: bool, first: T.Answers, reconnects: bool,
             second: T.Answers)
    | Ping(answers: bool, reconnects: bool)
    | Lost
  {
    predicate Fits() {
      Atomic? ==> |stmts| == |views|
    }
  }

  function After(s: Session, job: Job): Session
    requires job.Fits()
  {
    match job
    case Single(stmt, view, retry, one, reconnects, two) =>
      SingleRetry.RunQuery(s, stmt, view, retry, one, reconnects, two).session
    case Atomic(stmts, views, retry, first, reconnects, second) =>
      T.RunQuery(s, stmts, views, retry, first, reconnects, second).session
    case Ping(answers, reconnects) => if !(s.live && answers) && reconnects then s.Reconnected() else s
    case Lost => s.Dropped()
  }

  predicate AllFit(jobs: seq<Job>) {
    forall i :: 0 <= i < |jobs| ==> jobs[i].Fits()
  }

  function AfterAll(s: Session, jobs: seq<Job>): Session
    requires AllFit(jobs)
    decreases |jobs|
  {
    if jobs == [] then s else AfterAll(After(s, jobs[0]), jobs[1..])
  }

  // ---------------------------------------------------------------------------------------------------------
  // Clean sessions
  // ---------------------------------------------------------------------------------------------------------

  /** The transaction's last attempt failed to turn autocommit back on although the session is still there. */
  predicate Sticks(s: Session, job: Job)
    requires job.Fits()
  {
    job.Atomic? &&
    var p := T.Attempted(s, job.stmts, job.views, job.first);
    if Atomicity.SecondRuns(s, job.stmts, job.views, job.retry, job.first, job.reconnects)
    then Atomicity.StaysManual(p.session.Reconnected(), job.stmts, p.views, job.second)
    else Atomicity.StaysManual(s, job.stmts, job.views, job.first)
  }

  predicate SomeSticks(s: Session, jobs: seq<Job>)
    requires AllFit(jobs)
    decreases |jobs|
  {
    jobs != [] && (Sticks(s, jobs[0]) || SomeSticks(After(s, jobs[0]), jobs[1..]))
  }

  /** Every job finds a clean session, and leaves one. */
  predicate AlwaysClean(s: Session, jobs: seq<Job>)
    requires AllFit(jobs)
    decreases |jobs|
  {
    s.Clean() && (jobs != [] ==> AlwaysClean(After(s, jobs[0]), jobs[1..]))
  }

  lemma CleanAfterJobIff(s: Session, job: Job)
    requires job.Fits() && s.Clean()
    ensures After(s, job).Clean() <==> !Sticks(s, job)
  {
    if job.Atomic? {
      Atomicity.CleanAfterRunIff(s, job.stmts, job.views, job.retry, job.first, job.reconnects, job.second);
    }
  }

  /** Over any sequence of jobs from a clean session, every job finds the session clean if and only if no transaction
      failed to turn autocommit back on on a session that survived. */
  lemma {:induction false} AlwaysCleanIff(s: Session, jobs: seq<Job>)
    requires AllFit(jobs) && s.Clean()
    ensures AlwaysClean(s, jobs) <==> !SomeSticks(s, jobs)
    decreases |jobs|
  {
    if jobs != [] {
      CleanAfterJobIff(s, jobs[0]);
      if After(s, jobs[0]).Clean() {
        AlwaysCleanIff(After(s, jobs[0]), jobs[1..]);
      }
    }
  }

  /** A ping never touches the committed state. The session is there afterwards if and only if it was there or the
      reconnect works, the same one if it answers; and a ping that reconnects is what cleans a session that stuck. A
      lost connection leaves the committed state and nothing open. */
  lemma PingCleansIff(s: Session, answers: bool, reconnects: bool)
    ensures var t := After(s, Ping(answers, reconnects)); var gone := After(s, Lost);
      && t.committed == s.committed && (t.live <==> s.live || reconnects) && (s.live && answers ==> t == s)
      && (t.Clean() <==> s.Clean() || (reconnects && !(s.live && answers)))
      && gone == Session(s.committed, false, s.autocommit, [])
  {
  }

  // ---------------------------------------------------------------------------------------------------------
  // The committed state
  // ---------------------------------------------------------------------------------------------------------

  /** What a transaction's failed attempts commit. */
  function Leaked(s: Session, job: Job): seq<Effect>
    requires job.Fits() && job.Atomic?
  {
    Atomicity.Leaks(s, job.stmts, job.views, job.retry, job.first, job.reconnects, job.second)
  }

  /** What one job commits on a clean session. */
  function GainOf(s: Session, job: Job): seq<Effect>
    requires job.Fits()
  {
    match job
    case Single(stmt, view, retry, one, reconnects, two) =>
      SingleRetry.Gain(s, stmt, one)
      + if SingleRetry.RunsAgain(s, retry, one, reconnects) then Ran(stmt, two.end) else []
    case Atomic(stmts, views, retry, first, reconnects, second) =>
      Leaked(s, job)
      + if T.RunQuery(s, stmts, views, retry, first, reconnects, second).result == Success
        then Atomicity.AllEffects(stmts) else []
    case _ => []
  }

  function GainOfAll(s: Session, jobs: seq<Job>): seq<Effect>
    requires AllFit(jobs)
    decreases |jobs|
  {
    if jobs == [] then [] else GainOf(s, jobs[0]) + GainOfAll(After(s, jobs[0]), jobs[1..])
  }

  lemma JobCommits(s: Session, job: Job)
    requires job.Fits() && s.Clean()
    ensures After(s, job).committed == s.committed + GainOf(s, job)
  {
    match job
    case Single(stmt, view, retry, one, reconnects, two) =>
      SingleRetry.RetryKeepsBoth(s, stmt, view, retry, one, reconnects, two);
    case Atomic(stmts, views, retry, first, reconnects, second) =>
      Atomicity.RunCommits(s, stmts, views, retry, first, reconnects, second);
    case _ => assert s.committed + [] == s.committed;
  }

  /** While no transaction sticks, the committed state grows by what each job commits, in the order of the jobs. */
  lemma {:induction false} ChainCommits(s: Session, jobs: seq<Job>)
    requires AllFit(jobs) && s.Clean() && !SomeSticks(s, jobs)
    ensures AfterAll(s, jobs).committed == s.committed + GainOfAll(s, jobs)
    decreases |jobs|
  {
    if jobs == [] {
      assert s.committed + [] == s.committed;
    } else {
      var t := After(s, jobs[0]);
      JobCommits(s, jobs[0]);
      CleanAfterJobIff(s, jobs[0]);
      ChainCommits(t, jobs[1..]);
      Grown(s.committed, GainOf(s, jobs[0]), t.committed, GainOfAll(t, jobs[1..]), AfterAll(s, jobs).committed);
    }
  }

  lemma Grown(c: seq<Effect>, one: seq<Effect>, c1: seq<Effect>, rest: seq<Effect>, c2: seq<Effect>)
    requires c1 == c + one && c2 == c1 + rest
    ensures c2 == c + (one + rest)
  {
  }

  /** Every transaction, on the session it finds, is all or nothing. */
  predicate EachAtomic(s: Session, jobs: seq<Job>)
    requires AllFit(jobs)
    decreases |jobs|
  {
    jobs != [] ==>
      && (jobs[0].Atomic? ==>
            var j := jobs[0];
            Atomicity.AllOrNothing(s, j.stmts,
                                   T.RunQuery(s, j.stmts, j.views, j.retry, j.first, j.reconnects, j.second)))
      && EachAtomic(After(s, jobs[0]), jobs[1..])
  }

  predicate SomeLeaks(s: Session, jobs: seq<Job>)
    requires AllFit(jobs)
    decreases |jobs|
  {
    jobs != [] && ((jobs[0].Atomic? && Leaked(s, jobs[0]) != []) || SomeLeaks(After(s, jobs[0]), jobs[1..]))
  }

  /** While no transaction sticks, every transaction of the sequence is all or nothing if and only if no failed attempt
      of any of them leaked. */
  lemma {:induction false} EachAtomicIff(s: Session, jobs: seq<Job>)
    requires AllFit(jobs) && s.Clean() && !SomeSticks(s, jobs)
    ensures EachAtomic(s, jobs) <==> !SomeLeaks(s, jobs)
    decreases |jobs|
  {
    if jobs != [] {
      var j := jobs[0];
      if j.Atomic? {
        Atomicity.AllOrNothingIff(s, j.stmts, j.views, j.retry, j.first, j.reconnects, j.second);
      }
      CleanAfterJobIff(s, j);
      EachAtomicIff(After(s, j), jobs[1..]);
    }
  }

  /** Failed commits have no effect, and a failed rollback or a failed change to autocommit means that the session is
      gone. */
  predicate Honest(answers: T.Answers) {
    Atomicity.Honest(answers) && (answers.on.Fails? ==> answers.on.fault.drops)
  }

  predicate AllHonest(jobs: seq<Job>) {
    forall i :: 0 <= i < |jobs| ==> jobs[i].Atomic? ==> Honest(jobs[i].first) && Honest(jobs[i].second)
  }

  /** With such answers every transaction of any sequence of queries, transactions, pings and lost connections is all
      or nothing, and every one finds the session in autocommit or gone. */
  lemma {:induction false} HonestChainIsAtomic(s: Session, jobs: seq<Job>)
    requires AllFit(jobs) && AllHonest(jobs) && s.Clean()
    ensures EachAtomic(s, jobs) && AlwaysClean(s, jobs)
    decreases |jobs|
  {
    if jobs != [] {
      var j := jobs[0];
      assert j.Atomic? ==> Honest(j.first) && Honest(j.second);
      if j.Atomic? {
        Atomicity.AtomicAcrossRetry(s, j.stmts, j.views, j.retry, j.first, j.reconnects, j.second);
      }
      CleanAfterJobIff(s, j);
      assert AllHonest(jobs[1..]);
      HonestChainIsAtomic(After(s, j), jobs[1..]);
    }
  }

  // ---------------------------------------------------------------------------------------------------------
  // Sessions that stuck
  // ---------------------------------------------------------------------------------------------------------

  /** On a session left without autocommit a query that succeeds at once commits nothing: its effects wait for the next
      transaction. */
  lemma StuckQueryWaits(s: Session, job: Job)
    requires job.Single? && s.live && !s.autocommit && job.one.end.Done?
    ensures var r := SingleRetry.RunQuery(s, job.stmt, job.view, job.retry, job.one, job.reconnects, job.two);
      && r.view.resultStatus == Success
      && r.session == s.(overlay := s.overlay + job.stmt.effects)
  {
  }

  /** The next transaction that completes commits them together with its own. */
  lemma StuckEffectsAreCommittedLater(s: Session, job: Job)
    requires job.Fits() && job.Atomic? && s.live && !s.autocommit
    requires T.Attempted(s, job.stmts, job.views, job.first).fault.None?
    ensures After(s, job).committed == s.committed + s.overlay + Atomicity.AllEffects(job.stmts)
  {
    var (s1, _) := Autocommitted(s, false, job.first.off);
    var n := |job.stmts|;
    assert job.stmts[..n] == job.stmts;
    Atomicity.MembersSession(s1, job.stmts, T.PreparedAll(job.views), job.first, n);
    var b := T.Body(s, job.stmts, job.views, job.first).session;
    assert s.committed + (s.overlay + Atomicity.AllEffects(job.stmts))
           == s.committed + s.overlay + Atomicity.AllEffects(job.stmts);
    assert b.committed + [] == b.committed;
  }

  /** A transaction that fails and is rolled back takes them with it. */
  lemma StuckEffectsAreLost(s: Session, job: Job)
    requires job.Fits() && job.Atomic? && s.live && !s.autocommit && job.first.off.Ok?
    requires job.stmts != [] && job.first.members(0).end.Broken? && !job.first.members(0).end.fault.drops
    requires job.first.rollback.Ok? && !job.retry
    ensures var s' := After(s, job); s'.committed == s.committed && s'.overlay == []
  {
    var (s1, _) := Autocommitted(s, false, job.first.off);
    FirstBreaks(s1, job.stmts, T.PreparedAll(job.views), job.first, |job.stmts|);
    assert s.committed + [] == s.committed;
  }

  lemma {:induction false} FirstBreaks(s: Session, stmts: seq<Statement>, views: seq<DataView>, answers: T.Answers,
                                       n: nat)
    requires 0 < n <= |stmts| == |views| && s.live && !s.autocommit
    requires answers.members(0).end.Broken? && !answers.members(0).end.fault.drops
    ensures var p := T.MembersRun(s, stmts, views, answers, n);
      p.fault.Some? && p.session.live && p.session.committed == s.committed
  {
    if n > 1 {
      FirstBreaks(s, stmts, views, answers, n - 1);
    }
  }
}
