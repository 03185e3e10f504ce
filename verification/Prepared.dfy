/** How a prepared query sends its parameter sets and stores what comes back. */
module PreparedExecution {
  import opened QueryTypes
  import opened Results
  import opened Servers
  import opened Parameters

  // ---------------------------------------------------------------------------------------------------------
  // Binds
  // ---------------------------------------------------------------------------------------------------------

  datatype BindType = Decimal | Double | Long | Chars | Nothing

  /** A `MYSQL_BIND`; a decimal type is what a zero-initialised one has. */
  datatype Bind = Bind(kind: BindType, buffer: Value, length: nat, isNull: bool)

  const ZERO_BIND := Bind(Decimal, Null, 0, false)

  const UNSIGNED_RANGE := 0x1_0000_0000

  /** What the server receives for a bind. */
  datatype Wire = WireNull | WireDouble(number: real) | WireLong(long: int) | WireChars(text: string) | Undefined

  function Sent(b: Bind): Wire {
    if b.isNull then WireNull
    else
      match b.kind
      case Double => if b.buffer.Number? then WireDouble(b.buffer.number) else Undefined
      case Long => if b.buffer.Boolean? then WireLong(if b.buffer.bit then 1 else 0) else Undefined
      case Chars =>
        if b.buffer.Text? && b.length <= |b.buffer.text| then WireChars(b.buffer.text[..b.length]) else Undefined
      case Nothing => WireNull
      case Decimal => Undefined
  }

  /** Pointing a bind at a field. Only some members of the bind are written. */
  function Pointed(b: Bind, v: Value): Bind {
    match v
    case Number(_) => b.(kind := Double, buffer := v)
    case Boolean(_) => b.(kind := Long, buffer := v)
    case Text(t) => b.(kind := Chars, buffer := v, length := |t|)
    case Null => b.(kind := Nothing, isNull := true)
  }

  /** What the bind loop has done after some iterations; `ok` is false when it found an invalid index. */
  datatype Filling = Filling(binds: seq<Bind>, ok: bool)

  /** The position a field's own index points to, computed without sign. */
  function Position(f: Field): nat {
    (f.index - 1) % UNSIGNED_RANGE
  }

  /** One iteration. */
  function FilledOne(binds: seq<Bind>, fields: ParameterSet, count: nat, i: nat): (r: Filling)
    requires 1 <= i <= count == |binds|
    ensures |r.binds| == count
  {
    var zeroed := binds[i - 1 := ZERO_BIND];
    if i !in fields then Filling(zeroed[i - 1 := ZERO_BIND.(kind := Nothing, isNull := true)], true)
    else
      var at := Position(fields[i]);
      if at >= count then Filling(zeroed, false)
      else Filling(zeroed[at := Pointed(zeroed[at], fields[i].value)], true)
  }

  function Filled(binds: seq<Bind>, fields: ParameterSet, count: nat, n: nat): (r: Filling)
    requires n <= count == |binds|
    ensures |r.binds| == count
  {
    if n == 0 then Filling(binds, true)
    else
      var r := Filled(binds, fields, count, n - 1);
      if r.ok then FilledOne(r.binds, fields, count, n) else r
  }

  method GenerateMysqlBinds(binds: array<Bind>, fields: ParameterSet, parameterCount: nat) returns (ok: bool)
    requires binds.Length == parameterCount
    modifies binds
    ensures Filling(binds[..], ok) == Filled(old(binds[..]), fields, parameterCount, parameterCount)
  {
    ghost var before := binds[..];
    var i := 1;
    while i <= parameterCount
      invariant 1 <= i <= parameterCount + 1
      invariant Filling(binds[..], true) == Filled(before, fields, parameterCount, i - 1)
    {
      binds[i - 1] := ZERO_BIND;
      if i !in fields {
        binds[i - 1] := binds[i - 1].(kind := Nothing, isNull := true);
      } else {
        var index := (fields[i].index - 1) % UNSIGNED_RANGE;
        if index >= parameterCount {
          StopsAt(before, fields, parameterCount, i, parameterCount);
          return false;
        }
        binds[index] := Pointed(binds[index], fields[i].value);
      }
      i := i + 1;
    }
    return true;
  }

  /** Nothing is bound after an invalid index. */
  lemma {:induction false} StopsAt(binds: seq<Bind>, fields: ParameterSet, count: nat, m: nat, n: nat)
    requires m <= n <= count == |binds| && !Filled(binds, fields, count, m).ok
    ensures Filled(binds, fields, count, n) == Filled(binds, fields, count, m)
    decreases n - m
  {
    if m < n {
      StopsAt(binds, fields, count, m, n - 1);
    }
  }

  /** The value of parameter `i`, or null when none is set. */
  function Parameter(fields: ParameterSet, i: int): Wire {
    match Lookup(fields, i)
    case None => WireNull
    case Some(Null) => WireNull
    case Some(Number(x)) => WireDouble(x)
    case Some(Boolean(b)) => WireLong(if b then 1 else 0)
    case Some(Text(t)) => WireChars(t)
  }

  function Values(fields: ParameterSet, count: nat): seq<Wire> {
    seq(count, i => Parameter(fields, i + 1))
  }

  /** Indices fit into 32 bits. */
  predicate Small(count: nat) {
    count < UNSIGNED_RANGE
  }

  lemma {:induction false} BindsAfter(binds: seq<Bind>, fields: ParameterSet, count: nat, n: nat, i: nat)
    requires n <= count == |binds| && Small(count) && IndexedByKey(fields) && 1 <= i <= n
    ensures var r := Filled(binds, fields, count, n); r.ok && Sent(r.binds[i - 1]) == Parameter(fields, i)
  {
    if i < n {
      BindsAfter(binds, fields, count, n - 1, i);
    } else {
      BindsFine(binds, fields, count, n - 1);
      if n in fields && fields[n].value.Text? {
        var t := fields[n].value.text;
        assert t[..|t|] == t;
      }
    }
  }

  lemma {:induction false} BindsFine(binds: seq<Bind>, fields: ParameterSet, count: nat, n: nat)
    requires n <= count == |binds| && Small(count) && IndexedByKey(fields)
    ensures Filled(binds, fields, count, n).ok
  {
    if n > 0 {
      BindsFine(binds, fields, count, n - 1);
    }
  }

  function AllSent(binds: seq<Bind>): seq<Wire> {
    seq(|binds|, i requires 0 <= i < |binds| => Sent(binds[i]))
  }

  /** The invalid-index error cannot happen for fields stored under their own index, and what is sent is the parameter
      set's values, null where none is set, whatever the binds held before. */
  lemma BindsAreParameters(binds: seq<Bind>, fields: ParameterSet, count: nat)
    requires count == |binds| && Small(count) && IndexedByKey(fields)
    ensures var r := Filled(binds, fields, count, count); r.ok && AllSent(r.binds) == Values(fields, count)
  {
    BindsFine(binds, fields, count, count);
    var r := Filled(binds, fields, count, count);
    forall i | 0 <= i < count ensures AllSent(r.binds)[i] == Values(fields, count)[i] {
      BindsAfter(binds, fields, count, count, i + 1);
    }
  }

  // ---------------------------------------------------------------------------------------------------------
  // The parameter sets one after the other
  // ---------------------------------------------------------------------------------------------------------

  /** The statement's execution so far: the data, the bind array, what was bound for each set, and how it ended. */
  datatype Execution = Execution(data: DataView, binds: seq<Bind>, bound: seq<seq<Wire>>, fault: Option<Fault>)

  function InvalidIndex(): Fault {
    Fault(0, "index", false)
  }

  function EndFault(end: StatementEnd): Option<Fault> {
    match end
    case Done => None
    case Broken(f, _, _) => Some(f)
  }

  /** One parameter set, answered by `reply`. */
  function ExecutedOne(e: Execution, fields: ParameterSet, reply: StatementReply): (r: Execution)
    ensures |r.binds| == |e.binds|
  {
    var filling := Filled(e.binds, fields, |e.binds|, |e.binds|);
    if !filling.ok then e.(binds := filling.binds, fault := Some(InvalidIndex()))
    else Execution(StatementData(e.data, reply), filling.binds, e.bound + [AllSent(filling.binds)], EndFault(reply.end))
  }

  function ExecutedSets(d: DataView, count: nat, sets: seq<ParameterSet>, replies: nat -> StatementReply, n: nat)
    : (r: Execution)
    requires n <= |sets|
    ensures |r.binds| == count
  {
    if n == 0 then Execution(d, seq(count, _ => ZERO_BIND), [], None)
    else
      var e := ExecutedSets(d, count, sets, replies, n - 1);
      if e.fault.Some? then e else ExecutedOne(e, sets[n - 1], replies(n - 1))
  }

  /** Storing what the server answers to one execution. The counters of a set are stored before its rows. */
  method StoreReply(data: QueryData, reply: StatementReply) returns (fault: Option<Fault>)
    modifies data
    ensures data.View() == StatementData(old(data.View()), reply) && fault == EndFault(reply.end)
  {
    var i := 0;
    while i < |reply.sets|
      invariant 0 <= i <= |reply.sets|
      invariant data.View() == old(data.View()).WithSets(reply.sets[..i])
    {
      assert reply.sets[..i + 1][..i] == reply.sets[..i];
      data.affectedRows := data.affectedRows + [reply.sets[i].affectedRows];
      data.insertIds := data.insertIds + [reply.sets[i].insertId];
      if reply.sets[i].rows.None? {
        data.results := data.results + [[]];
      } else {
        data.results := data.results + [reply.sets[i].rows.value];
      }
      i := i + 1;
    }
    assert reply.sets[..|reply.sets|] == reply.sets;
    match reply.end {
      case Done =>
        return None;
      case Broken(f, _, half) =>
        if half.Some? {
          data.affectedRows := data.affectedRows + [half.value.affectedRows];
          data.insertIds := data.insertIds + [half.value.insertId];
        }
        return Some(f);
    }
  }

  /** The body of the loop over the parameter sets; `sent` is what the server is handed, if anything. */
  method ExecuteSet(data: QueryData, binds: array<Bind>, fields: ParameterSet, reply: StatementReply,
                    ghost before: Execution)
    returns (fault: Option<Fault>, sent: seq<seq<Wire>>, ghost after: Execution)
    requires data.View() == before.data && binds[..] == before.binds && before.fault.None?
    modifies data, binds
    ensures after == ExecutedOne(before, fields, reply)
    ensures data.View() == after.data && binds[..] == after.binds && fault == after.fault
    ensures after.bound == before.bound + sent
  {
    after := ExecutedOne(before, fields, reply);
    var ok := GenerateMysqlBinds(binds, fields, binds.Length);
    if !ok {
      return Some(InvalidIndex()), [], after;
    }
    sent := [AllSent(binds[..])];
    fault := StoreReply(data, reply);
  }

  /** `executeStatement` past the preparation. The bind array is reused from one parameter set to the next. */
  method ExecuteSets(data: QueryData, parameterCount: nat, sets: seq<ParameterSet>, replies: nat -> StatementReply)
    returns (fault: Option<Fault>, sent: seq<seq<Wire>>)
    modifies data
    ensures var e := ExecutedSets(old(data.View()), parameterCount, sets, replies, |sets|);
      data.View() == e.data && fault == e.fault && sent == e.bound
  {
    var binds := new Bind[parameterCount](_ => ZERO_BIND);
    ghost var d, e := data.View(), ExecutedSets(data.View(), parameterCount, sets, replies, 0);
    assert binds[..] == e.binds;
    sent := [];
    var j := 0;
    while j < |sets|
      invariant 0 <= j <= |sets|
      invariant e == ExecutedSets(d, parameterCount, sets, replies, j) && e.fault.None?
      invariant data.View() == e.data && binds[..] == e.binds && sent == e.bound
    {
      var one;
      fault, one, e := ExecuteSet(data, binds, sets[j], replies(j), e);
      sent := sent + one;
      assert e == ExecutedSets(d, parameterCount, sets, replies, j + 1);
      if fault.Some? {
        SetsStopAt(d, parameterCount, sets, replies, j + 1, |sets|);
        return;
      }
      j := j + 1;
    }
    fault := None;
  }

  lemma {:induction false} SetsStopAt(d: DataView, count: nat, sets: seq<ParameterSet>, replies: nat -> StatementReply,
                                      m: nat, n: nat)
    requires m <= n <= |sets| && ExecutedSets(d, count, sets, replies, m).fault.Some?
    ensures ExecutedSets(d, count, sets, replies, n) == ExecutedSets(d, count, sets, replies, m)
    decreases n - m
  {
    if m < n {
      SetsStopAt(d, count, sets, replies, m, n - 1);
    }
  }

  /** The bind loop finds an invalid index if and only if some field points behind the parameters of the statement. */
  lemma {:induction false} FilledOkIff(binds: seq<Bind>, fields: ParameterSet, count: nat, n: nat)
    requires n <= count == |binds|
    ensures Filled(binds, fields, count, n).ok
            <==> forall i :: 1 <= i <= n && i in fields ==> Position(fields[i]) < count
  {
    if n > 0 {
      FilledOkIff(binds, fields, count, n - 1);
    }
  }

  /** A parameter set with an invalid index ends the execution with an error that is not retried; the server is sent
      nothing and nothing is stored. */
  lemma InvalidSetStops(e: Execution, fields: ParameterSet, reply: StatementReply)
    requires e.fault.None? && exists i :: 1 <= i <= |e.binds| && i in fields && Position(fields[i]) >= |e.binds|
    ensures var r := ExecutedOne(e, fields, reply);
      && r.fault.Some? && !IsRetriableError(r.fault.value.code) && !r.fault.value.drops
      && r.data == e.data && r.bound == e.bound
      && r.binds == Filled(e.binds, fields, |e.binds|, |e.binds|).binds
  {
    FilledOkIff(e.binds, fields, |e.binds|, |e.binds|);
  }

  // ---------------------------------------------------------------------------------------------------------
  // One statement with one answer
  // ---------------------------------------------------------------------------------------------------------

  /** All answers up to the first one that breaks, as the answer to a single statement. */
  function Joined(replies: nat -> StatementReply, n: nat): StatementReply {
    if n == 0 then StatementReply([], Done)
    else
      var r := Joined(replies, n - 1);
      if r.end.Broken? then r else StatementReply(r.sets + replies(n - 1).sets, replies(n - 1).end)
  }

  lemma {:induction false} StoringConcat(d: DataView, a: seq<SetReply>, b: seq<SetReply>)
    ensures d.WithSets(a + b) == d.WithSets(a).WithSets(b)
    decreases |b|
  {
    if b == [] {
      assert a + b == a;
    } else {
      StoringConcat(d, a, b[..|b| - 1]);
      assert (a + b)[..|a + b| - 1] == a + b[..|b| - 1];
    }
  }

  lemma JoinedStores(d: DataView, before: StatementReply, reply: StatementReply)
    requires before.end.Done?
    ensures StatementData(d, StatementReply(before.sets + reply.sets, reply.end))
            == StatementData(StatementData(d, before), reply)
  {
    StoringConcat(d, before.sets, reply.sets);
  }

  lemma BoundOneMore(bound: seq<seq<Wire>>, sets: seq<ParameterSet>, count: nat)
    requires |bound| < |sets| && BoundRight(bound, sets, count)
    ensures BoundRight(bound + [Values(sets[|bound|], count)], sets, count)
  {
  }

  /** The sets bound: one for each execution that was begun. */
  predicate BoundRight(bound: seq<seq<Wire>>, sets: seq<ParameterSet>, count: nat) {
    |bound| <= |sets| && forall j :: 0 <= j < |bound| ==> bound[j] == Values(sets[j], count)
  }

  /** Executing captured parameter sets one after the other stores what a single statement would that returned all
      their result sets in order, up to the first error; and every execution sends its own set's values, nothing of an
      earlier one. */
  lemma {:induction false} SetsAreOneStatement(d: DataView, count: nat, sets: seq<ParameterSet>,
                                               replies: nat -> StatementReply, n: nat)
    requires n <= |sets| && Small(count) && (forall j :: 0 <= j < |sets| ==> IndexedByKey(sets[j]))
    ensures var e := ExecutedSets(d, count, sets, replies, n);
      && e.data == StatementData(d, Joined(replies, n)) && e.fault == EndFault(Joined(replies, n).end)
      && BoundRight(e.bound, sets, count) && (e.fault.None? ==> |e.bound| == n)
  {
    if n > 0 {
      SetsAreOneStatement(d, count, sets, replies, n - 1);
      var e := ExecutedSets(d, count, sets, replies, n - 1);
      if e.fault.None? {
        BindsAreParameters(e.binds, sets[n - 1], count);
        JoinedStores(d, Joined(replies, n - 1), replies(n - 1));
        BoundOneMore(e.bound, sets, count);
      }
    }
  }

  /** Without an error, reading the data gives the result sets of all parameter sets in order. */
  lemma PreparedReadsServerOrder(d: DataView, count: nat, sets: seq<ParameterSet>, replies: nat -> StatementReply,
                                 k: nat)
    requires Small(count) && (forall j :: 0 <= j < |sets| ==> IndexedByKey(sets[j]))
    requires ExecutedSets(d.Cleared(), count, sets, replies, |sets|).fault.None?
    ensures var all := Joined(replies, |sets|).sets;
      var r := ExecutedSets(d.Cleared(), count, sets, replies, |sets|).data; var after := r.PoppedTimes(k);
      && r.Aligned() && |r.results| == |all|
      && (after.HasMore() <==> k < |all|)
      && (k < |all| ==>
            && after.results[0] == RowsOf(all[k]) && after.LastInsertId() == all[k].insertId
            && after.AffectedRows() == all[k].affectedRows)
  {
    SetsAreOneStatement(d.Cleared(), count, sets, replies, |sets|);
    ReadsServerOrder(d, Joined(replies, |sets|).sets, k);
  }

  /** The queues stay parallel if and only if no set's rows failed to arrive after its counters did. */
  lemma AlignedIff(d: DataView, count: nat, sets: seq<ParameterSet>, replies: nat -> StatementReply)
    requires Small(count) && (forall j :: 0 <= j < |sets| ==> IndexedByKey(sets[j])) && d.Aligned()
    ensures ExecutedSets(d, count, sets, replies, |sets|).data.Aligned()
            <==> var end := Joined(replies, |sets|).end; end.Broken? ==> end.half.None?
  {
    SetsAreOneStatement(d, count, sets, replies, |sets|);
    StoredSets(d, Joined(replies, |sets|).sets, 0);
  }
}
