/** The parameters of a prepared query: what scripts set, and what a start captures. */
module Parameters {
  import opened QueryTypes

  datatype Value = Number(number: real) | Text(text: string) | Boolean(bit: bool) | Null

  /** A parameter field. Fields are shared between parameter sets and never change once they are made, so that sharing
      one is the same as copying it. */
  datatype Field = Field(index: int, value: Value)

  type ParameterSet = map<int, Field>

  /** What a script does to a prepared query: the four setters, the two calls on parameter sets, and capturing the
      sets, which both `start` and adding the query to a transaction do. */
  datatype Op = Set(index: nat, value: Value) | Put | Clear | Start

  datatype State = State(parameters: seq<ParameterSet>, captured: seq<seq<ParameterSet>>)

  const INIT := State([map[]], [])

  /** There is always a set for the setters to write to, and fields know the index they are stored at. */
  predicate WellFormed(sets: seq<ParameterSet>) {
    sets != [] && forall j :: 0 <= j < |sets| ==> IndexedByKey(sets[j])
  }

  predicate IndexedByKey(fields: ParameterSet) {
    forall i :: i in fields ==> i > 0 && fields[i].index == i
  }

  /** Setting index 0 is an error that changes nothing. */
  function Next(s: State, op: Op): State
    requires s.parameters != []
  {
    var last := |s.parameters| - 1;
    match op
    case Set(i, v) =>
      if i < 1 then s else s.(parameters := s.parameters[last := s.parameters[last][i := Field(i, v)]])
    case Put => s.(parameters := s.parameters + [map[]])
    case Clear => s.(parameters := [map[]])
    case Start => State([s.parameters[last]], s.captured + [s.parameters])
  }

  function Run(ops: seq<Op>): (s: State)
    ensures WellFormed(s.parameters)
  {
    if ops == [] then INIT else Next(Run(ops[..|ops| - 1]), ops[|ops| - 1])
  }

  class PreparedQuery {
    var parameters: seq<ParameterSet>

    constructor ()
      ensures parameters == INIT.parameters
    {
      parameters := [];
      new;
      PutNewParameters();
    }

    /** The four setters; returns whether the index is valid. */
    method SetField(index: nat, value: Value) returns (ok: bool)
      requires parameters != []
      modifies this
      ensures ok == (index >= 1)
      ensures forall captured ::
                State(parameters, captured) == Next(State(old(parameters), captured), Set(index, value))
    {
      if index < 1 {
        return false;
      }
      var last := |parameters| - 1;
      parameters := parameters[last := parameters[last][index := Field(index, value)]];
      return true;
    }

    method PutNewParameters()
      modifies this
      ensures parameters == old(parameters) + [map[]]
    {
      parameters := parameters + [map[]];
    }

    method ClearParameters()
      requires parameters != []
      modifies this
      ensures forall captured :: State(parameters, captured) == Next(State(old(parameters), captured), Clear)
    {
      parameters := [];
      parameters := parameters + [map[]];
    }

    /** Copies all sets into the data and drops all but the last. */
    method BuildQueryData() returns (captured: seq<ParameterSet>)
      requires parameters != []
      modifies this
      ensures forall before ::
                State(parameters, before + [captured]) == Next(State(old(parameters), before), Start)
    {
      captured := parameters;
      while |parameters| > 1
        invariant parameters != []
        invariant parameters[|parameters| - 1] == captured[|captured| - 1]
      {
        parameters := parameters[1..];
      }
      assert parameters == [captured[|captured| - 1]];
    }
  }

  // ---------------------------------------------------------------------------------------------------------
  // What a set holds, from the history alone
  // ---------------------------------------------------------------------------------------------------------

  /** The value at index `i` of the set the setters write to: the last one set since the set was made. A start does not
      make a new set. */
  function LastSet(ops: seq<Op>, i: int): Option<Value> {
    if ops == [] then None
    else
      var rest := ops[..|ops| - 1];
      match ops[|ops| - 1]
      case Set(k, v) => if k == i && k >= 1 then Some(v) else LastSet(rest, i)
      case Put => None
      case Clear => None
      case Start => LastSet(rest, i)
  }

  /** The history before the `j`-th last set was closed by `putNewParameters`. */
  function BeforePuts(ops: seq<Op>, j: nat): seq<Op> {
    if j == 0 || ops == [] then ops
    else
      var rest := ops[..|ops| - 1];
      if ops[|ops| - 1] == Put then BeforePuts(rest, j - 1) else BeforePuts(rest, j)
  }

  /** How many sets there are. */
  function SetCount(ops: seq<Op>): (n: nat)
    ensures n >= 1
  {
    if ops == [] then 1
    else
      match ops[|ops| - 1]
      case Set(_, _) => SetCount(ops[..|ops| - 1])
      case Put => SetCount(ops[..|ops| - 1]) + 1
      case Clear => 1
      case Start => 1
  }

  function Lookup(fields: ParameterSet, i: int): Option<Value> {
    if i in fields then Some(fields[i].value) else None
  }

  /** For any history there are as many sets as it says, and the `j`-th last holds at every index the value that was
      set last before the set was closed. */
  lemma {:induction false} SetsAreHistory(ops: seq<Op>, j: nat, i: int)
    requires j < SetCount(ops)
    ensures var sets := Run(ops).parameters;
      |sets| == SetCount(ops) && Lookup(sets[|sets| - 1 - j], i) == LastSet(BeforePuts(ops, j), i)
    decreases |ops|
  {
    if ops != [] {
      var rest := ops[..|ops| - 1];
      SetsAreHistory(rest, 0, i);
      match ops[|ops| - 1] {
        case Set(k, v) => SetsAreHistory(rest, j, i);
        case Put => if j > 0 { SetsAreHistory(rest, j - 1, i); }
        case Clear =>
        case Start =>
      }
    }
  }

  /** Later operations never change what an earlier start captured. */
  lemma {:induction false} CapturesAreStable(ops: seq<Op>, more: seq<Op>)
    ensures Run(ops).captured <= Run(ops + more).captured
    decreases |more|
  {
    if more == [] {
      assert ops + more == ops;
    } else {
      var rest := more[..|more| - 1];
      CapturesAreStable(ops, rest);
      assert (ops + more)[..|ops + more| - 1] == ops + rest;
    }
  }

  /** A start captures exactly the sets the history describes, and whatever follows, the data keeps them; the next
      operations begin from the last of them alone. */
  lemma StartCapturesHistory(ops: seq<Op>, more: seq<Op>, j: nat, i: int)
    requires j < SetCount(ops)
    ensures var n := |Run(ops).captured|; var s := Run(ops + [Start] + more);
      && n < |s.captured| && |s.captured[n]| == SetCount(ops) && WellFormed(s.captured[n])
      && Lookup(s.captured[n][SetCount(ops) - 1 - j], i) == LastSet(BeforePuts(ops, j), i)
    ensures |Run(ops).parameters| == SetCount(ops)
    ensures Run(ops + [Start]).parameters == [Run(ops).parameters[SetCount(ops) - 1]]
  {
    SetsAreHistory(ops, j, i);
    assert (ops + [Start])[..|ops|] == ops;
    CapturesAreStable(ops + [Start], more);
    assert Run(ops + [Start]).captured[|Run(ops).captured|] == Run(ops).parameters;
  }
}
