/**
 An abstract MySQL server seen through one session. What the server answers to each call is given from outside; what
 its answers do to the session and to the committed state is defined here.
 */
module Servers {
  import opened QueryTypes
  import opened Results

  /** An effect of a statement on the database. The committed state is the sequence of committed effects, so it tells
      apart everything any interpretation of the effects could. */
  type Effect = nat

  /** An error the client library reports, and whether the session is gone with it. */
  datatype Fault = Fault(code: nat, text: string, drops: bool)

  const CR_SERVER_GONE_ERROR := 2006
  const CR_SERVER_LOST := 2013
  const CR_NO_PREPARE_STMT := 2030
  const ER_SERVER_SHUTDOWN := 1053
  const ER_UNKNOWN_STMT_HANDLER := 1243
  const ER_MAX_PREPARED_STMT_COUNT_REACHED := 1461
  const ER_CLIENT_INTERACTION_TIMEOUT := 4031

  predicate IsRetriableError(code: nat) {
    || code == CR_SERVER_LOST || code == CR_SERVER_GONE_ERROR || code == ER_MAX_PREPARED_STMT_COUNT_REACHED
    || code == ER_SERVER_SHUTDOWN || code == ER_UNKNOWN_STMT_HANDLER || code == ER_CLIENT_INTERACTION_TIMEOUT
    || code == CR_NO_PREPARE_STMT
  }

  /** What any call on a session that is gone reports. */
  function Gone(): Fault {
    Fault(CR_SERVER_GONE_ERROR, "gone", true)
  }

  datatype Session = Session(committed: seq<Effect>, live: bool, autocommit: bool, overlay: seq<Effect>)
  {
    /** Between statements outside a transaction. */
    predicate Clean() {
      overlay == [] && (live ==> autocommit)
    }

    /** The server rolls a lost session back. */
    function Dropped(): Session {
      this.(live := false, overlay := [])
    }

    function After(fault: Fault): Session {
      if fault.drops then Dropped() else this
    }

    function WithEffects(es: seq<Effect>): Session {
      if autocommit then this.(committed := committed + es) else this.(overlay := overlay + es)
    }

    function Committed(): Session {
      this.(committed := committed + overlay, overlay := [])
    }

    /** A new session replaces this one, which is closed. */
    function Reconnected(): Session {
      Session(committed, true, true, [])
    }
  }

  /** The answer to a call that returns nothing but an error. */
  datatype Reply = Ok | Fails(fault: Fault)

  /** The answer to a commit. `applied` says whether a failed commit reached the server all the same. */
  datatype CommitReply = CommitOk | CommitFails(fault: Fault, applied: bool)

  /** The answer to a statement: the sets that arrive, and how it ends. A broken statement has had `ran` of its
      effects; `half` is a set whose id and row count were stored before its rows failed to arrive, which only
      prepared statements can leave behind. */
  datatype StatementReply = StatementReply(sets: seq<SetReply>, end: StatementEnd)
  datatype StatementEnd = Done | Broken(fault: Fault, ran: nat, half: Option<SetReply>)

  /** A statement and its effects on success. */
  datatype Statement = Statement(effects: seq<Effect>)

  function Min(a: nat, b: nat): nat {
    if a < b then a else b
  }

  /** The effects a statement has had. */
  function Ran(stmt: Statement, end: StatementEnd): seq<Effect> {
    match end
    case Done => stmt.effects
    case Broken(_, ran, _) => stmt.effects[..Min(ran, |stmt.effects|)]
  }

  function WithHalf(d: DataView, half: Option<SetReply>): DataView {
    match half
    case None => d
    case Some(set') =>
      d.(insertIds := d.insertIds + [set'.insertId], affectedRows := d.affectedRows + [set'.affectedRows])
  }

  function StatementData(d: DataView, reply: StatementReply): DataView {
    var stored := d.WithSets(reply.sets);
    if reply.end.Done? then stored else WithHalf(stored, reply.end.half)
  }

  /** The statement left nothing in its data. */
  predicate StoredNothing(reply: StatementReply) {
    reply.sets == [] && (reply.end.Broken? ==> reply.end.half.None?)
  }

  /** One session, changed in place. Every method returns the fault the client library reports, if any. */
  class Server {
    var session: Session

    constructor (session: Session)
      ensures this.session == session
    {
      this.session := session;
    }

    method SetAutocommit(on: bool, reply: Reply) returns (fault: Option<Fault>)
      modifies this
      ensures (session, fault) == Autocommitted(old(session), on, reply)
    {
      if !session.live {
        return Some(Gone());
      }
      match reply {
        case Fails(f) =>
          session := session.After(f);
          return Some(f);
        case Ok =>
          if on {
            session := session.Committed();
          }
          session := session.(autocommit := on);
          return None;
      }
    }

    method Commit(reply: CommitReply) returns (fault: Option<Fault>)
      modifies this
      ensures (session, fault) == CommitDone(old(session), reply)
    {
      if !session.live {
        return Some(Gone());
      }
      match reply {
        case CommitFails(f, applied) =>
          if applied {
            session := session.Committed();
          }
          session := session.After(f);
          return Some(f);
        case CommitOk =>
          session := session.Committed();
          return None;
      }
    }

    method Rollback(reply: Reply)
      modifies this
      ensures session == RolledBack(old(session), reply)
    {
      if session.live {
        match reply {
          case Fails(f) => session := session.After(f);
          case Ok => session := session.(overlay := []);
        }
      }
    }

    /** Execute a statement and store its result sets. */
    method Execute(stmt: Statement, data: QueryData, reply: StatementReply) returns (fault: Option<Fault>)
      modifies this, data
      ensures (session, data.View(), fault) == Executed(old(session), stmt, old(data.View()), reply)
    {
      if !session.live {
        return Some(Gone());
      }
      data.StoreSets(reply.sets);
      session := session.WithEffects(Ran(stmt, reply.end));
      match reply.end {
        case Done =>
          return None;
        case Broken(f, _, half) =>
          if half.Some? {
            data.insertIds := data.insertIds + [half.value.insertId];
            data.affectedRows := data.affectedRows + [half.value.affectedRows];
          }
          session := session.After(f);
          return Some(f);
      }
    }

    method Reconnect()
      modifies this
      ensures session == old(session).Reconnected()
    {
      session := Session(session.committed, true, true, []);
    }
  }

  // ---------------------------------------------------------------------------------------------------------
  // The same on values
  // ---------------------------------------------------------------------------------------------------------

  /** Turning autocommit on commits what is open. */
  function Autocommitted(s: Session, on: bool, reply: Reply): (Session, Option<Fault>) {
    if !s.live then (s, Some(Gone()))
    else
      match reply
      case Fails(f) => (s.After(f), Some(f))
      case Ok => ((if on then s.Committed() else s).(autocommit := on), None)
  }

  function CommitDone(s: Session, reply: CommitReply): (Session, Option<Fault>) {
    if !s.live then (s, Some(Gone()))
    else
      match reply
      case CommitFails(f, applied) => ((if applied then s.Committed() else s).After(f), Some(f))
      case CommitOk => (s.Committed(), None)
  }

  function RolledBack(s: Session, reply: Reply): Session {
    if !s.live then s
    else
      match reply
      case Fails(f) => s.After(f)
      case Ok => s.(overlay := [])
  }

  function Executed(s: Session, stmt: Statement, d: DataView, reply: StatementReply)
    : (Session, DataView, Option<Fault>)
  {
    if !s.live then (s, d, Some(Gone()))
    else
      var ran := s.WithEffects(Ran(stmt, reply.end));
      var d' := StatementData(d, reply);
      match reply.end
      case Done => (ran, d', None)
      case Broken(f, _, _) => (ran.After(f), d', Some(f))
  }

  // ---------------------------------------------------------------------------------------------------------
  // What the answers mean
  // ---------------------------------------------------------------------------------------------------------

  /** On a session that is gone every call reports that, nothing reaches the server, and nothing is stored. */
  lemma GoneAnswersNothing(s: Session, stmt: Statement, d: DataView, on: bool, reply: Reply, commit: CommitReply,
                           answer: StatementReply)
    requires !s.live
    ensures var error := Some(Fault(2006, Gone().text, true));
      && Autocommitted(s, on, reply) == (s, error) && CommitDone(s, commit) == (s, error)
      && RolledBack(s, reply) == s && Executed(s, stmt, d, answer) == (s, d, error)
  {
  }

  /** A statement has all its effects if it is done, and as many of the first as it got to if it breaks; in autocommit
      they are committed at once, otherwise they wait. An error that loses the session loses what waits. */
  lemma ExecutedEffects(s: Session, stmt: Statement, d: DataView, answer: StatementReply)
    requires s.live
    ensures var (r, _, error) := Executed(s, stmt, d, answer);
      var n := if answer.end.Done? || answer.end.ran > |stmt.effects| then |stmt.effects| else answer.end.ran;
      && (s.autocommit ==> r.committed == s.committed + stmt.effects[..n])
      && (!s.autocommit ==> r.committed == s.committed)
      && r.autocommit == s.autocommit
      && (if error.Some? && error.value.drops then !r.live && r.overlay == []
          else r.live && r.overlay == if s.autocommit then s.overlay else s.overlay + stmt.effects[..n])
      && error == (if answer.end.Done? then None else Some(answer.end.fault))
  {
    assert stmt.effects[..|stmt.effects|] == stmt.effects;
  }
}
