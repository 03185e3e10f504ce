/**
 What a transaction does to the committed state, over all answers of the server, and what its members' data say
 afterwards.
 */
module Atomicity {
  import opened QueryTypes
  import opened Results
  import opened Servers
  import opened Transactions

  /** The effects of a list of statements, in order. */
  function AllEffects(stmts: seq<Statement>): seq<Effect> {
    if stmts == [] then [] else AllEffects(stmts[..|stmts| - 1]) + stmts[|stmts| - 1].effects
  }

  // ---------------------------------------------------------------------------------------------------------
  // The session during an attempt
  // ---------------------------------------------------------------------------------------------------------

  /** While members run nothing is committed, and the effects of those that ran are added to the overlay. */
  lemma {:induction false} MembersSession(s: Session, stmts: seq<Statement>, views: seq<DataView>, answers: Answers,
                                          n: nat)
    requires n <= |stmts| == |views|
    requires s.live && !s.autocommit
    ensures var p := MembersRun(s, stmts, views, answers, n);
      && p.session.committed == s.committed && !p.session.autocommit
      && (p.fault.None? ==> p.session.live && p.session.overlay == s.overlay + AllEffects(stmts[..n]))
      && (p.fault.Some? ==> p.session.live == !p.fault.value.drops)
      && (!p.session.live ==> p.session.overlay == [])
  {
    if n > 0 {
      MembersSession(s, stmts, views, answers, n - 1);
      assert stmts[..n][..n - 1] == stmts[..n - 1];
    } else {
      assert s.overlay + [] == s.overlay;
    }
  }

  /** The commit was answered with an error although the server carried it out. */
  predicate LostCommit(s: Session, stmts: seq<Statement>, views: seq<DataView>, answers: Answers)
    requires |stmts| == |views|
  {
    var (s1, off) := Autocommitted(s, false, answers.off);
    && off.None? && MembersRun(s1, stmts, PreparedAll(views), answers, |stmts|).fault.None?
    && answers.commit.CommitFails? && answers.commit.applied
  }

  /** The rollback failed on a session that is still there, and turning autocommit on then committed what was open. */
  predicate SpilledRollback(s: Session, stmts: seq<Statement>, views: seq<DataView>, answers: Answers)
    requires |stmts| == |views|
  {
    var p := Body(s, stmts, views, answers);
    && p.fault.Some? && p.session.live
    && answers.rollback.Fails? && !answers.rollback.fault.drops && answers.on.Ok?
  }

  /** What an attempt that reports an error commits all the same. */
  function Leak(s: Session, stmts: seq<Statement>, views: seq<DataView>, answers: Answers): seq<Effect>
    requires |stmts| == |views|
  {
    (if LostCommit(s, stmts, views, answers) then AllEffects(stmts) else [])
    + (if SpilledRollback(s, stmts, views, answers) then Body(s, stmts, views, answers).session.overlay else [])
  }

  lemma CommitSession(s: Session, before: Session, effects: seq<Effect>, commit: CommitReply)
    requires before.live && !before.autocommit && before.committed == s.committed && before.overlay == effects
    ensures var (after, fault) := CommitDone(before, commit);
      && !after.autocommit && (!after.live ==> after.overlay == [])
      && (fault.None? ==> after.committed == s.committed + effects && after.overlay == [] && after.live)
      && (fault.Some? ==>
            after.committed == s.committed + if commit.CommitFails? && commit.applied then effects else [])
  {
    assert s.committed + [] == s.committed;
  }

  lemma BodySession(s: Session, stmts: seq<Statement>, views: seq<DataView>, answers: Answers)
    requires |stmts| == |views| && s.Clean()
    ensures var p := Body(s, stmts, views, answers);
      && (p.fault.None? ==>
            p.session.committed == s.committed + AllEffects(stmts) && p.session.overlay == [] && p.session.live)
      && (p.fault.Some? ==>
            && p.session.committed
               == s.committed + (if LostCommit(s, stmts, views, answers) then AllEffects(stmts) else [])
            && (!p.session.live ==> p.session.overlay == [])
            && (p.session.live && p.session.autocommit ==> p.session.overlay == []))
  {
    var (s1, off) := Autocommitted(s, false, answers.off);
    if off.None? {
      var p := MembersRun(s1, stmts, PreparedAll(views), answers, |stmts|);
      assert stmts[..|stmts|] == stmts && [] + AllEffects(stmts) == AllEffects(stmts);
      MembersSession(s1, stmts, PreparedAll(views), answers, |stmts|);
      if p.fault.None? {
        CommitSession(s, p.session, AllEffects(stmts), answers.commit);
      }
    }
    assert s.committed + [] == s.committed;
  }

  /** Cleaning up after a failure commits the overlay exactly when the rollback failed on a live session and turning
      autocommit on worked. */
  lemma CleanupCommits(b: Session, rollback: Reply, on: Reply)
    requires !b.live ==> b.overlay == []
    ensures Autocommitted(RolledBack(b, rollback), true, on).0.committed
            == b.committed
               + if b.live && rollback.Fails? && !rollback.fault.drops && on.Ok? then b.overlay else []
  {
    assert b.committed + [] == b.committed;
  }

  lemma Sum(c: seq<Effect>, lost: seq<Effect>, b: seq<Effect>, spilled: seq<Effect>, after: seq<Effect>)
    requires b == c + lost && after == b + spilled
    ensures after == c + (lost + spilled)
  {
  }

  lemma FailedAttemptCommits(s: Session, stmts: seq<Statement>, views: seq<DataView>, answers: Answers)
    requires |stmts| == |views| && s.Clean() && Body(s, stmts, views, answers).fault.Some?
    ensures Attempted(s, stmts, views, answers).session.committed == s.committed + Leak(s, stmts, views, answers)
  {
    var b := Body(s, stmts, views, answers).session;
    var after := Autocommitted(RolledBack(b, answers.rollback), true, answers.on).0;
    assert Attempted(s, stmts, views, answers).session == after;
    BodySession(s, stmts, views, answers);
    CleanupCommits(b, answers.rollback, answers.on);
    Sum(s.committed, if LostCommit(s, stmts, views, answers) then AllEffects(stmts) else [], b.committed,
        if SpilledRollback(s, stmts, views, answers) then b.overlay else [], after.committed);
  }

  /** One attempt from a clean session: success commits every member's effects once, in order; failure commits the
      leak and nothing else. */
  lemma AttemptCommits(s: Session, stmts: seq<Statement>, views: seq<DataView>, answers: Answers)
    requires |stmts| == |views| && s.Clean()
    ensures var p := Attempted(s, stmts, views, answers);
      p.session.committed == s.committed + if p.fault.None? then AllEffects(stmts) else Leak(s, stmts, views, answers)
  {
    if Body(s, stmts, views, answers).fault.Some? {
      FailedAttemptCommits(s, stmts, views, answers);
    } else {
      BodySession(s, stmts, views, answers);
      var b := Body(s, stmts, views, answers).session;
      assert b.committed + [] == b.committed;
    }
  }

  // ---------------------------------------------------------------------------------------------------------
  // The committed state after the retry
  // ---------------------------------------------------------------------------------------------------------

  predicate SecondRuns(s: Session, stmts: seq<Statement>, views: seq<DataView>, retry: bool, first: Answers,
                       reconnects: bool)
    requires |stmts| == |views|
  {
    Retries(Attempted(s, stmts, views, first), retry, reconnects)
  }

  /** What an attempt commits although it reports an error. */
  function LeakOnError(s: Session, stmts: seq<Statement>, views: seq<DataView>, answers: Answers): seq<Effect>
    requires |stmts| == |views|
  {
    if Attempted(s, stmts, views, answers).fault.None? then [] else Leak(s, stmts, views, answers)
  }

  /** What the attempts that reported an error committed, in order. */
  function Leaks(s: Session, stmts: seq<Statement>, views: seq<DataView>, retry: bool, first: Answers,
                 reconnects: bool, second: Answers): seq<Effect>
    requires |stmts| == |views|
  {
    var p := Attempted(s, stmts, views, first);
    if SecondRuns(s, stmts, views, retry, first, reconnects)
    then LeakOnError(s, stmts, views, first) + LeakOnError(p.session.Reconnected(), stmts, p.views, second)
    else LeakOnError(s, stmts, views, first)
  }

  function GainOf(p: Progress, stmts: seq<Statement>): seq<Effect> {
    if p.fault.None? then AllEffects(stmts) else []
  }

  lemma AttemptGains(s: Session, stmts: seq<Statement>, views: seq<DataView>, answers: Answers)
    requires |stmts| == |views| && s.Clean()
    ensures var p := Attempted(s, stmts, views, answers);
      p.session.committed == s.committed + LeakOnError(s, stmts, views, answers) + GainOf(p, stmts)
  {
    AttemptCommits(s, stmts, views, answers);
    assert s.committed + [] == s.committed;
  }

  lemma Chained(c0: seq<Effect>, one: seq<Effect>, c1: seq<Effect>, two: seq<Effect>, gain: seq<Effect>,
                c2: seq<Effect>)
    requires c1 == c0 + one + [] && c2 == c1 + two + gain
    ensures c2 == c0 + (one + two) + gain
  {
  }

  lemma SecondRunCommits(s: Session, stmts: seq<Statement>, views: seq<DataView>, first: Answers, second: Answers)
    requires |stmts| == |views| && s.Clean() && Attempted(s, stmts, views, first).fault.Some?
    ensures var p := Attempted(s, stmts, views, first);
      var s2 := p.session.Reconnected();
      var p2 := Attempted(s2, stmts, p.views, second);
      p2.session.committed
      == s.committed + (LeakOnError(s, stmts, views, first) + LeakOnError(s2, stmts, p.views, second))
         + GainOf(p2, stmts)
  {
    var p := Attempted(s, stmts, views, first);
    var s2 := p.session.Reconnected();
    var p2 := Attempted(s2, stmts, p.views, second);
    AttemptGains(s, stmts, views, first);
    AttemptGains(s2, stmts, p.views, second);
    Chained(s.committed, LeakOnError(s, stmts, views, first), p.session.committed,
            LeakOnError(s2, stmts, p.views, second), GainOf(p2, stmts), p2.session.committed);
  }

  /** For any members, errors and reconnects: the committed state grows by the leaks of failed attempts and then, on
      success, by every member's effects exactly once in order. */
  lemma RunCommits(s: Session, stmts: seq<Statement>, views: seq<DataView>, retry: bool, first: Answers,
                   reconnects: bool, second: Answers)
    requires |stmts| == |views| && s.Clean()
    ensures var r := RunQuery(s, stmts, views, retry, first, reconnects, second);
      && (r.result == Success || r.result == Error)
      && r.session.committed
         == s.committed + Leaks(s, stmts, views, retry, first, reconnects, second)
            + if r.result == Success then AllEffects(stmts) else []
  {
    if SecondRuns(s, stmts, views, retry, first, reconnects) {
      SecondRunCommits(s, stmts, views, first, second);
    } else {
      AttemptGains(s, stmts, views, first);
    }
  }

  /** Success with every effect committed once, or an error with nothing committed. */
  predicate AllOrNothing(s: Session, stmts: seq<Statement>, r: Outcome) {
    || (r.result == Success && r.session.committed == s.committed + AllEffects(stmts))
    || (r.result == Error && r.session.committed == s.committed)
  }

  /** A transaction is all or nothing, across its retry, if and only if no attempt that reported an error committed
      anything. */
  lemma AllOrNothingIff(s: Session, stmts: seq<Statement>, views: seq<DataView>, retry: bool, first: Answers,
                        reconnects: bool, second: Answers)
    requires |stmts| == |views| && s.Clean()
    ensures AllOrNothing(s, stmts, RunQuery(s, stmts, views, retry, first, reconnects, second))
            <==> Leaks(s, stmts, views, retry, first, reconnects, second) == []
  {
    RunCommits(s, stmts, views, retry, first, reconnects, second);
    var r := RunQuery(s, stmts, views, retry, first, reconnects, second);
    GrowsIff(s.committed, Leaks(s, stmts, views, retry, first, reconnects, second),
             if r.result == Success then AllEffects(stmts) else [], r.session.committed);
    assert s.committed + [] == s.committed;
  }

  lemma GrowsIff(c: seq<Effect>, leaks: seq<Effect>, gain: seq<Effect>, after: seq<Effect>)
    requires after == c + leaks + gain
    ensures after == c + gain <==> leaks == []
  {
    assert |after| == |c| + |leaks| + |gain|;
    if leaks == [] {
      assert c + leaks == c;
    }
  }

  /** The server's answers that leak nothing: a failed commit had no effect, and a failed rollback means the session
      is gone, so that the server rolls it back. */
  predicate Honest(answers: Answers) {
    && (answers.commit.CommitFails? ==> !answers.commit.applied)
    && (answers.rollback.Fails? ==> answers.rollback.fault.drops)
  }

  /** With honest answers the transaction is all or nothing: for every member list and every error, with or without a
      reconnect and a second attempt. */
  lemma AtomicAcrossRetry(s: Session, stmts: seq<Statement>, views: seq<DataView>, retry: bool, first: Answers,
                          reconnects: bool, second: Answers)
    requires |stmts| == |views| && s.Clean() && Honest(first) && Honest(second)
    ensures AllOrNothing(s, stmts, RunQuery(s, stmts, views, retry, first, reconnects, second))
  {
    AllOrNothingIff(s, stmts, views, retry, first, reconnects, second);
  }

  /** An attempt whose members all complete ends with what the commit is answered. */
  lemma AllDoneBody(s: Session, stmts: seq<Statement>, views: seq<DataView>, answers: Answers)
    requires |stmts| == |views| && s.live && answers.off.Ok?
    requires forall i :: 0 <= i < |stmts| ==> answers.members(i).end.Done?
    ensures var p := Body(s, stmts, views, answers); var (s1, _) := Autocommitted(s, false, answers.off);
      && MembersRun(s1, stmts, PreparedAll(views), answers, |stmts|).fault.None?
      && p.fault == if answers.commit.CommitOk? then None else Some(answers.commit.fault)
  {
    var (s1, _) := Autocommitted(s, false, answers.off);
    MembersAllDone(s1, stmts, PreparedAll(views), answers, |stmts|);
  }

  lemma LostCommitLeaks(s: Session, stmts: seq<Statement>, views: seq<DataView>, answers: Answers)
    requires |stmts| == |views| && s.Clean() && s.live
    requires forall i :: 0 <= i < |stmts| ==> answers.members(i).end.Done?
    requires answers.off.Ok? && answers.commit.CommitFails? && answers.commit.applied && answers.rollback.Ok?
    ensures Attempted(s, stmts, views, answers).fault == Some(answers.commit.fault)
    ensures LeakOnError(s, stmts, views, answers) == AllEffects(stmts)
  {
    AllDoneBody(s, stmts, views, answers);
    assert AllEffects(stmts) + [] == AllEffects(stmts);
  }

  /** A commit whose answer is lost is repeated: the effects are committed twice and the result is success. */
  lemma LostCommitRunsTwice(s: Session, stmts: seq<Statement>, views: seq<DataView>, first: Answers, second: Answers)
    requires |stmts| == |views| && s.Clean() && s.live
    requires forall i :: 0 <= i < |stmts| ==> first.members(i).end.Done? && second.members(i).end.Done?
    requires first.off.Ok? && second.off.Ok? && second.commit.CommitOk?
    requires first.commit.CommitFails? && first.commit.applied && IsRetriableError(first.commit.fault.code)
    requires first.rollback.Ok?
    ensures var r := RunQuery(s, stmts, views, true, first, true, second);
      r.result == Success && r.session.committed == s.committed + AllEffects(stmts) + AllEffects(stmts)
  {
    LostCommitLeaks(s, stmts, views, first);
    var p := Attempted(s, stmts, views, first);
    AllDoneBody(p.session.Reconnected(), stmts, p.views, second);
    RunCommits(s, stmts, views, true, first, true, second);
    assert AllEffects(stmts) + [] == AllEffects(stmts);
  }

  lemma {:induction false} MembersAllDone(s: Session, stmts: seq<Statement>, views: seq<DataView>, answers: Answers,
                                          n: nat)
    requires n <= |stmts| == |views| && s.live
    requires forall i :: 0 <= i < n ==> answers.members(i).end.Done?
    ensures var p := MembersRun(s, stmts, views, answers, n); p.fault.None? && p.session.live
  {
    if n > 0 {
      MembersAllDone(s, stmts, views, answers, n - 1);
    }
  }

  // ---------------------------------------------------------------------------------------------------------
  // The session afterwards
  // ---------------------------------------------------------------------------------------------------------

  /** Turning autocommit back on failed although the session is still there. */
  predicate StaysManual(s: Session, stmts: seq<Statement>, views: seq<DataView>, answers: Answers)
    requires |stmts| == |views|
  {
    var b := Body(s, stmts, views, answers);
    var before := if b.fault.None? then b.session else RolledBack(b.session, answers.rollback);
    before.live && !before.autocommit && answers.on.Fails? && !answers.on.fault.drops
  }

  /** After an attempt the session is clean again, live in autocommit or gone, if and only if turning autocommit on did
      not fail on a session that is still there. */
  lemma CleanAfterIff(s: Session, stmts: seq<Statement>, views: seq<DataView>, answers: Answers)
    requires |stmts| == |views| && s.Clean()
    ensures Attempted(s, stmts, views, answers).session.Clean() <==> !StaysManual(s, stmts, views, answers)
  {
    BodySession(s, stmts, views, answers);
  }

  /** The same across the retry, for the attempt that was the last. */
  lemma CleanAfterRunIff(s: Session, stmts: seq<Statement>, views: seq<DataView>, retry: bool, first: Answers,
                         reconnects: bool, second: Answers)
    requires |stmts| == |views| && s.Clean()
    ensures var p := Attempted(s, stmts, views, first);
      RunQuery(s, stmts, views, retry, first, reconnects, second).session.Clean()
      <==> !(if SecondRuns(s, stmts, views, retry, first, reconnects)
             then StaysManual(p.session.Reconnected(), stmts, p.views, second)
             else StaysManual(s, stmts, views, first))
  {
    var p := Attempted(s, stmts, views, first);
    if SecondRuns(s, stmts, views, retry, first, reconnects) {
      CleanAfterIff(p.session.Reconnected(), stmts, p.views, second);
    } else {
      CleanAfterIff(s, stmts, views, first);
    }
  }
}
