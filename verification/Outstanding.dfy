/**
 The list of outstanding data of each query: over all runs it is the query's started data, in start order, without
 those that have been delivered.
 */
module Outstanding {
  import opened BlockingQueues
  import opened Lifecycle
  import opened Conservation

  /** `ds` in order, without the data in `gone`. */
  function Remaining(ds: seq<DataId>, gone: set<DataId>): seq<DataId> {
    if ds == [] then [] else (if ds[0] in gone then [] else [ds[0]]) + Remaining(ds[1..], gone)
  }

  lemma {:induction false} RemainingAppend(ds: seq<DataId>, gone: set<DataId>, d: DataId)
    ensures Remaining(ds + [d], gone) == Remaining(ds, gone) + if d in gone then [] else [d]
  {
    var tail := if d in gone then [] else [d];
    if ds == [] {
      assert ds + [d] == [d];
      assert [d][1..] == [];
    } else {
      var kept := if ds[0] in gone then [] else [ds[0]];
      RemainingAppend(ds[1..], gone, d);
      assert (ds + [d])[1..] == ds[1..] + [d];
      assert Remaining(ds + [d], gone) == kept + (Remaining(ds[1..], gone) + tail);
      assert Remaining(ds, gone) == kept + Remaining(ds[1..], gone);
    }
  }

  lemma {:induction false} RemainingSame(ds: seq<DataId>, a: set<DataId>, b: set<DataId>)
    requires forall x :: x in ds ==> (x in a <==> x in b)
    ensures Remaining(ds, a) == Remaining(ds, b)
  {
    if ds != [] {
      assert ds[0] in ds;
      RemainingSame(ds[1..], a, b);
    }
  }

  lemma {:induction false} RemainingWithout(ds: seq<DataId>, gone: set<DataId>, d: DataId)
    ensures Without(Remaining(ds, gone), d) == Remaining(ds, gone + {d})
  {
    if ds != [] {
      RemainingWithout(ds[1..], gone, d);
      WithoutConcat(if ds[0] in gone then [] else [ds[0]], Remaining(ds[1..], gone), d);
      if ds[0] !in gone {
        assert [ds[0]][1..] == [];
      }
    }
  }

  lemma {:induction false} RemainingIn(ds: seq<DataId>, gone: set<DataId>, d: DataId)
    ensures d in Remaining(ds, gone) <==> d in ds && d !in gone
    ensures Count(Remaining(ds, gone), d) <= Count(ds, d)
  {
    if ds != [] {
      RemainingIn(ds[1..], gone, d);
      CountConcat(if ds[0] in gone then [] else [ds[0]], Remaining(ds[1..], gone), d);
    }
  }

  // ---------------------------------------------------------------------------------------------------------
  // The two paths of `finishQueryData`
  // ---------------------------------------------------------------------------------------------------------

  /** The fast path pops one element where the slow path filters: they agree if and only if the finished data is not
      listed a second time. */
  lemma DroppedIsWithoutIff(ds: seq<DataId>, d: DataId)
    ensures Dropped(ds, d) == Without(ds, d) <==> (ds != [] && ds[0] == d ==> d !in ds[1..])
  {
    if ds != [] && ds[0] == d {
      assert Without(ds, d) == Without(ds[1..], d);
      if d !in ds[1..] {
        WithoutAbsent(ds[1..], d);
      } else {
        WithoutIn(ds[1..], d, d);
      }
    }
  }

  lemma DroppedIsWithout(ds: seq<DataId>, d: DataId)
    requires Count(ds, d) <= 1
    ensures Dropped(ds, d) == Without(ds, d)
  {
    if ds != [] {
      CountIn(ds[1..], d);
    }
    DroppedIsWithoutIff(ds, d);
  }

  // ---------------------------------------------------------------------------------------------------------
  // The invariant
  // ---------------------------------------------------------------------------------------------------------

  /** `log` lists each data object once, under its owner, and only made ones. */
  ghost predicate LogRight(log: map<QueryId, seq<DataId>>, info: map<DataId, Data>) {
    && (forall q: QueryId, d: DataId :: Count(Get(log, q), d) <= 1)
    && (forall q: QueryId, d: DataId :: d in Get(log, q) ==> d in info && info[d].owner == q)
  }

  ghost predicate Lists(running: map<QueryId, seq<DataId>>, log: map<QueryId, seq<DataId>>, gone: set<DataId>) {
    forall q: QueryId :: Get(running, q) == Remaining(Get(log, q), gone)
  }

  /** Every member of a transaction was made for the query it belongs to. */
  ghost predicate MembersOwned(members: seq<Member>, info: map<DataId, Data>) {
    forall i :: 0 <= i < |members| ==> members[i].data in info && info[members[i].data].owner == members[i].owner
  }

  ghost predicate OutstandingRight(s: State) {
    && LogRight(s.h.log, s.sh.info)
    && Lists(s.running, s.h.log, s.h.gone)
    && s.h.gone <= s.sh.info.Keys
    && (forall d :: d in s.sh.info ==> MembersOwned(s.sh.info[d].members, s.sh.info))
  }

  lemma PushLists(running: map<QueryId, seq<DataId>>, log: map<QueryId, seq<DataId>>, gone: set<DataId>, q: QueryId,
                  d: DataId)
    requires Lists(running, log, gone) && d !in gone
    ensures Lists(Push(running, q, d), Push(log, q, d), gone)
  {
    RemainingAppend(Get(log, q), gone, d);
    forall p: QueryId ensures Get(Push(running, q, d), p) == Remaining(Get(Push(log, q, d), p), gone) {
      assert Get(running, p) == Remaining(Get(log, p), gone);
    }
  }

  lemma {:induction false} PushAllLists(running: map<QueryId, seq<DataId>>, log: map<QueryId, seq<DataId>>,
                                        gone: set<DataId>, members: seq<Member>)
    requires Lists(running, log, gone) && (forall i :: 0 <= i < |members| ==> members[i].data !in gone)
    ensures Lists(PushAll(running, members), PushAll(log, members), gone)
    decreases |members|
  {
    if members != [] {
      var m := members[0];
      PushLists(running, log, gone, m.owner, m.data);
      PushAllLists(Push(running, m.owner, m.data), Push(log, m.owner, m.data), gone, members[1..]);
    }
  }

  /** `d` occurs in no list. */
  ghost predicate Absent(log: map<QueryId, seq<DataId>>, d: DataId) {
    forall q: QueryId :: d !in Get(log, q)
  }

  lemma PushLog(log: map<QueryId, seq<DataId>>, info: map<DataId, Data>, q: QueryId, d: DataId)
    requires LogRight(log, info) && Absent(log, d) && d in info && info[d].owner == q
    ensures LogRight(Push(log, q, d), info)
    ensures forall x :: x != d && Absent(log, x) ==> Absent(Push(log, q, d), x)
  {
    var log' := Push(log, q, d);
    forall p: QueryId, x: DataId ensures Count(Get(log', p), x) <= 1 {
      assert Count(Get(log, p), x) <= 1;
      if p == q {
        CountAppend(Get(log, q), d, x);
        assert d !in Get(log, q);
        CountIn(Get(log, q), d);
      }
    }
    forall p: QueryId, x: DataId | x in Get(log', p) ensures x in info && info[x].owner == p {
      assert x in Get(log, p) || (p == q && x == d);
    }
    forall x | x != d && Absent(log, x) ensures Absent(log', x) {
      forall p: QueryId ensures x !in Get(log', p) {
        assert x !in Get(log, p);
      }
    }
  }

  lemma {:induction false} PushAllLog(log: map<QueryId, seq<DataId>>, info: map<DataId, Data>, members: seq<Member>,
                                      d: DataId)
    requires LogRight(log, info) && MembersOwned(members, info) && Distinct(d, members)
    requires Absent(log, d) && forall i :: 0 <= i < |members| ==> Absent(log, members[i].data)
    ensures LogRight(PushAll(log, members), info) && Absent(PushAll(log, members), d)
    decreases |members|
  {
    if members != [] {
      var m := members[0];
      PushLog(log, info, m.owner, m.data);
      PushAllLog(Push(log, m.owner, m.data), info, members[1..], d);
    }
  }

  /** Dropping a data object under its owner takes it out of every list. */
  lemma DropLists(running: map<QueryId, seq<DataId>>, log: map<QueryId, seq<DataId>>, info: map<DataId, Data>,
                  gone: set<DataId>, d: DataId)
    requires LogRight(log, info) && Lists(running, log, gone) && d in info
    ensures Lists(Drop(running, info[d].owner, d), log, gone + {d})
  {
    var q := info[d].owner;
    forall p: QueryId ensures Get(Drop(running, q, d), p) == Remaining(Get(log, p), gone + {d}) {
      assert Get(running, p) == Remaining(Get(log, p), gone);
      RemainingWithout(Get(log, p), gone, d);
      RemainingIn(Get(log, p), gone, d);
      if p == q {
        assert Count(Get(log, p), d) <= 1;
        DroppedIsWithout(Get(running, p), d);
      } else {
        assert d !in Get(log, p);
        WithoutAbsent(Get(running, p), d);
      }
    }
  }

  lemma {:induction false} DropAllLists(running: map<QueryId, seq<DataId>>, log: map<QueryId, seq<DataId>>,
                                        info: map<DataId, Data>, gone: set<DataId>, members: seq<Member>)
    requires LogRight(log, info) && Lists(running, log, gone) && MembersOwned(members, info)
    ensures Lists(DropAll(running, members), log, gone + MemberData(members))
    decreases |members|
  {
    if members == [] {
      assert gone + MemberData(members) == gone;
    } else {
      var m := members[0];
      DropLists(running, log, info, gone, m.data);
      DropAllLists(Drop(running, m.owner, m.data), log, info, gone + {m.data}, members[1..]);
      assert members == [m] + members[1..];
      assert gone + MemberData(members) == gone + {m.data} + MemberData(members[1..]);
    }
  }

  // ---------------------------------------------------------------------------------------------------------
  // Steps
  // ---------------------------------------------------------------------------------------------------------

  /** Records keep their owner and members. */
  ghost predicate SameShape(before: map<DataId, Data>, after: map<DataId, Data>) {
    forall d :: d in before ==>
      d in after && after[d].owner == before[d].owner && after[d].members == before[d].members
  }

  lemma CallShape(s: State, call: LuaStep)
    requires CanCall(s, call)
    ensures SameShape(s.sh.info, Called(s, call).sh.info)
    ensures !call.StartPut? ==> Called(s, call).sh.info.Keys == s.sh.info.Keys
  {
    if !call.StartPut? {
      CallKeys(s, call);
      forall d | d in s.sh.info
        ensures var info := Called(s, call).sh.info;
          info[d].owner == s.sh.info[d].owner && info[d].members == s.sh.info[d].members
      {
        CallRecord(s, call, d);
      }
    }
  }

  lemma WorkShape(s: State, work: WorkerStep)
    requires CanWork(s, work)
    ensures SameShape(s.sh.info, Worked(s, work).sh.info) && Worked(s, work).sh.info.Keys == s.sh.info.Keys
  {
    WorkKeys(s, work);
    forall d | d in s.sh.info
      ensures var info := Worked(s, work).sh.info;
        info[d].owner == s.sh.info[d].owner && info[d].members == s.sh.info[d].members
    {
      WorkRecord(s, work, d);
    }
  }

  lemma OwnedStays(members: seq<Member>, before: map<DataId, Data>, after: map<DataId, Data>)
    requires MembersOwned(members, before) && SameShape(before, after)
    ensures MembersOwned(members, after)
  {
  }

  lemma OwnedAllStay(before: map<DataId, Data>, after: map<DataId, Data>)
    requires SameShape(before, after) && after.Keys == before.Keys
    requires forall d :: d in before ==> MembersOwned(before[d].members, before)
    ensures forall d :: d in after ==> MembersOwned(after[d].members, after)
  {
    forall d | d in after ensures MembersOwned(after[d].members, after) {
      OwnedStays(before[d].members, before, after);
    }
  }

  lemma LogStays(log: map<QueryId, seq<DataId>>, before: map<DataId, Data>, after: map<DataId, Data>)
    requires LogRight(log, before) && SameShape(before, after)
    ensures LogRight(log, after)
  {
  }

  lemma {:induction false} OwnerOfIs(members: seq<Member>, i: nat)
    requires i < |members| && forall j, k :: 0 <= j < k < |members| ==> members[j].data != members[k].data
    ensures members[i].data in MemberData(members) && OwnerOf(members, members[i].data) == members[i].owner
  {
    if i > 0 {
      OwnerOfIs(members[1..], i - 1);
    }
  }

  /** Every member's data is some member's. */
  lemma {:induction false} MemberOf(members: seq<Member>, d: DataId) returns (i: nat)
    requires d in MemberData(members)
    ensures i < |members| && members[i].data == d
  {
    if members[0].data == d {
      i := 0;
    } else {
      i := MemberOf(members[1..], d);
      i := i + 1;
    }
  }

  /** The records a start makes. */
  lemma StartRecords(s: State, call: LuaStep)
    requires call.StartPut? && CanCall(s, call)
    ensures var info := Called(s, call).sh.info;
      && call.data in info && info[call.data].owner == call.owner && info[call.data].members == call.members
      && MembersOwned(call.members, info)
      && (forall x :: x in info && x !in s.sh.info && x != call.data ==> info[x].members == [])
  {
    forall i | 0 <= i < |call.members|
      ensures call.members[i].data in Called(s, call).sh.info
      ensures Called(s, call).sh.info[call.members[i].data].owner == call.members[i].owner
    {
      OwnerOfIs(call.members, i);
    }
  }

  lemma UnmadeIsFresh(s: State, d: DataId)
    requires OutstandingRight(s) && d !in s.sh.info
    ensures Absent(s.h.log, d) && d !in s.h.gone
  {
  }

  lemma StartIsFresh(s: State, call: LuaStep)
    requires call.StartPut? && CanCall(s, call) && OutstandingRight(s)
    ensures call.data !in s.h.gone && Absent(s.h.log, call.data)
    ensures forall i :: 0 <= i < |call.members| ==>
      Absent(s.h.log, call.members[i].data) && call.members[i].data !in s.h.gone
  {
    UnmadeIsFresh(s, call.data);
    forall i | 0 <= i < |call.members|
      ensures Absent(s.h.log, call.members[i].data) && call.members[i].data !in s.h.gone
    {
      var d := call.members[i].data;
      OwnerOfIs(call.members, i);
      UnmadeIsFresh(s, d);
    }
  }

  lemma StartLists(s: State, call: LuaStep)
    requires call.StartPut? && CanCall(s, call) && OutstandingRight(s)
    ensures var s' := Called(s, call); Lists(s'.running, s'.h.log, s'.h.gone)
  {
    StartIsFresh(s, call);
    PushAllLists(s.running, s.h.log, s.h.gone, call.members);
    PushLists(PushAll(s.running, call.members), PushAll(s.h.log, call.members), s.h.gone, call.owner, call.data);
  }

  lemma StartLog(s: State, call: LuaStep)
    requires call.StartPut? && CanCall(s, call) && OutstandingRight(s)
    ensures var s' := Called(s, call); LogRight(s'.h.log, s'.sh.info)
  {
    var info := Called(s, call).sh.info;
    CallShape(s, call);
    LogStays(s.h.log, s.sh.info, info);
    StartRecords(s, call);
    StartIsFresh(s, call);
    PushAllLog(s.h.log, info, call.members, call.data);
    PushLog(PushAll(s.h.log, call.members), info, call.owner, call.data);
  }

  lemma StartOutstanding(s: State, call: LuaStep)
    requires call.StartPut? && CanCall(s, call) && OutstandingRight(s)
    ensures OutstandingRight(Called(s, call))
  {
    StartLists(s, call);
    StartLog(s, call);
    CallShape(s, call);
    StartRecords(s, call);
    var s' := Called(s, call);
    assert s'.h.gone == s.h.gone;
    forall x | x in s'.sh.info ensures MembersOwned(s'.sh.info[x].members, s'.sh.info) {
      if x in s.sh.info {
        OwnedStays(s.sh.info[x].members, s.sh.info, s'.sh.info);
      }
    }
  }

  lemma EndOutstanding(s: State)
    requires CanCall(s, EndDeliver) && OutstandingRight(s)
    ensures OutstandingRight(Called(s, EndDeliver))
  {
    var d := Top(s).current.value;
    var data := s.sh.info[d];
    var s' := Called(s, EndDeliver);
    CallShape(s, EndDeliver);
    LogStays(s.h.log, s.sh.info, s'.sh.info);
    OwnedAllStay(s.sh.info, s'.sh.info);
    DropLists(s.running, s.h.log, s.sh.info, s.h.gone, d);
    assert MembersOwned(data.members, s.sh.info);
    DropAllLists(Drop(s.running, data.owner, d), s.h.log, s.sh.info, s.h.gone + {d}, data.members);
    forall m | m in MemberData(data.members) ensures m in s.sh.info {
      var i := MemberOf(data.members, m);
      assert data.members[i].data in s.sh.info;
    }
  }

  lemma CallOutstanding(s: State, call: LuaStep)
    requires !call.StartPut? && !call.EndDeliver? && CanCall(s, call) && OutstandingRight(s)
    ensures OutstandingRight(Called(s, call))
  {
    CallShape(s, call);
    var s' := Called(s, call);
    LogStays(s.h.log, s.sh.info, s'.sh.info);
    OwnedAllStay(s.sh.info, s'.sh.info);
    assert s'.running == s.running && s'.h.log == s.h.log && s'.h.gone == s.h.gone;
  }

  lemma WorkOutstanding(s: State, work: WorkerStep)
    requires CanWork(s, work) && OutstandingRight(s)
    ensures OutstandingRight(Worked(s, work))
  {
    WorkShape(s, work);
    var s' := Worked(s, work);
    LogStays(s.h.log, s.sh.info, s'.sh.info);
    OwnedAllStay(s.sh.info, s'.sh.info);
    assert s'.running == s.running && s'.h.log == s.h.log && s'.h.gone == s.h.gone;
  }

  lemma OutstandingStep(s: State, step: Step)
    requires Enabled(s, step) && OutstandingRight(s)
    ensures OutstandingRight(Next(s, step))
  {
    match step
    case Work(work) => WorkOutstanding(s, work);
    case Lua(call) =>
      match call
      case StartPut(_, _, _, _, _, _) => StartOutstanding(s, call);
      case EndDeliver => EndOutstanding(s);
      case _ => CallOutstanding(s, call);
  }

  lemma {:induction false} OutstandingRun(s: State, steps: seq<Step>)
    requires CanRun(s, steps) && OutstandingRight(s)
    ensures OutstandingRight(Run(s, steps))
    decreases |steps|
  {
    if steps != [] {
      OutstandingStep(s, steps[0]);
      OutstandingRun(Next(s, steps[0]), steps[1..]);
    }
  }

  // ---------------------------------------------------------------------------------------------------------
  // What the history stands for
  // ---------------------------------------------------------------------------------------------------------

  /** The data a transaction lists under the query `q`, in the order of its members. */
  function MembersOf(members: seq<Member>, q: QueryId): seq<DataId> {
    if members == [] then []
    else (if members[0].owner == q then [members[0].data] else []) + MembersOf(members[1..], q)
  }

  /** The data a run starts for the query `q`, in order, the members of transactions included. */
  function StartedFor(steps: seq<Step>, q: QueryId): seq<DataId> {
    if steps == [] then [] else ListedBy(steps[0], q) + StartedFor(steps[1..], q)
  }

  function ListedBy(step: Step, q: QueryId): seq<DataId> {
    if step.Lua? && step.call.StartPut?
    then MembersOf(step.call.members, q) + if step.call.owner == q then [step.call.data] else []
    else []
  }

  lemma {:induction false} PushAllIs(m: map<QueryId, seq<DataId>>, members: seq<Member>, q: QueryId)
    ensures Get(PushAll(m, members), q) == Get(m, q) + MembersOf(members, q)
    decreases |members|
  {
    if members == [] {
      assert Get(m, q) + [] == Get(m, q);
    } else {
      PushAllIs(Push(m, members[0].owner, members[0].data), members[1..], q);
    }
  }

  lemma StartLogs(s: State, call: LuaStep, q: QueryId)
    requires call.StartPut? && CanCall(s, call)
    ensures Get(Called(s, call).h.log, q) == Get(s.h.log, q) + ListedBy(Lua(call), q)
  {
    PushAllIs(s.h.log, call.members, q);
    var listed := MembersOf(call.members, q);
    assert Get(s.h.log, q) + (listed + [call.data]) == Get(s.h.log, q) + listed + [call.data];
    assert Get(s.h.log, q) + (listed + []) == Get(s.h.log, q) + listed;
  }

  lemma CallLogs(s: State, call: LuaStep)
    requires CanCall(s, call) && !call.StartPut?
    ensures Called(s, call).h.log == s.h.log
  {
  }

  lemma WorkLogs(s: State, work: WorkerStep)
    requires CanWork(s, work)
    ensures Worked(s, work).h.log == s.h.log
  {
  }

  lemma LogStep(s: State, step: Step, q: QueryId)
    requires Enabled(s, step)
    ensures Get(Next(s, step).h.log, q) == Get(s.h.log, q) + ListedBy(step, q)
  {
    assert Get(s.h.log, q) + [] == Get(s.h.log, q);
    match step
    case Work(work) => WorkLogs(s, work);
    case Lua(call) =>
      if call.StartPut? {
        StartLogs(s, call, q);
      } else {
        CallLogs(s, call);
      }
  }

  lemma Regrouped(a: seq<DataId>, b: seq<DataId>, c: seq<DataId>)
    ensures a + b + c == a + (b + c)
  {
  }

  lemma {:induction false} LogIs(s: State, steps: seq<Step>, q: QueryId)
    requires CanRun(s, steps)
    ensures Get(Run(s, steps).h.log, q) == Get(s.h.log, q) + StartedFor(steps, q)
    decreases |steps|
  {
    if steps == [] {
      assert Get(s.h.log, q) + [] == Get(s.h.log, q);
    } else {
      LogStep(s, steps[0], q);
      LogIs(Next(s, steps[0]), steps[1..], q);
      Regrouped(Get(s.h.log, q), ListedBy(steps[0], q), StartedFor(steps[1..], q));
    }
  }

  /** `x` is over with the delivery of `d`: it is that data, or the data of a member of that transaction. */
  ghost predicate OverWith(info: map<DataId, Data>, d: DataId, x: DataId) {
    d in info && (x == d || exists i :: 0 <= i < |info[d].members| && info[d].members[i].data == x)
  }

  ghost predicate GoneRight(s: State) {
    forall x :: x in s.h.gone <==> exists d :: d in s.h.done && OverWith(s.sh.info, d, x)
  }

  lemma {:induction false} MemberDataIff(members: seq<Member>, x: DataId)
    ensures x in MemberData(members) <==> exists i :: 0 <= i < |members| && members[i].data == x
  {
    if x in MemberData(members) {
      var i := MemberOf(members, x);
    }
    if i :| 0 <= i < |members| && members[i].data == x {
      IndexIsMember(members, i);
    }
  }

  lemma {:induction false} IndexIsMember(members: seq<Member>, i: nat)
    requires i < |members|
    ensures members[i].data in MemberData(members)
  {
    if i > 0 {
      IndexIsMember(members[1..], i - 1);
    }
  }

  lemma GoneStays(s: State, t: State)
    requires GoneRight(s) && SameShape(s.sh.info, t.sh.info) && t.h.done == s.h.done && t.h.gone == s.h.gone
    requires forall d :: d in s.h.done ==> d in s.sh.info
    ensures GoneRight(t)
  {
    forall x ensures x in t.h.gone <==> exists d :: d in t.h.done && OverWith(t.sh.info, d, x) {
      if d :| d in t.h.done && OverWith(t.sh.info, d, x) {
        assert OverWith(s.sh.info, d, x);
      }
      if d :| d in s.h.done && OverWith(s.sh.info, d, x) {
        assert OverWith(t.sh.info, d, x);
      }
    }
  }

  lemma EndGone(s: State, t: State, d: DataId)
    requires GoneRight(s) && SameShape(s.sh.info, t.sh.info) && d in s.sh.info
    requires t.h.done == s.h.done + [d] && t.h.gone == s.h.gone + {d} + MemberData(s.sh.info[d].members)
    requires forall e :: e in s.h.done ==> e in s.sh.info
    ensures GoneRight(t)
  {
    assert t.h.done[|s.h.done|] == d;
    forall x ensures x in t.h.gone <==> exists e :: e in t.h.done && OverWith(t.sh.info, e, x) {
      MemberDataIff(s.sh.info[d].members, x);
      if x in s.h.gone {
        var e :| e in s.h.done && OverWith(s.sh.info, e, x);
        assert e in t.h.done && OverWith(t.sh.info, e, x);
      } else if x in t.h.gone {
        assert OverWith(t.sh.info, d, x);
      }
      if e :| e in t.h.done && OverWith(t.sh.info, e, x) {
        assert OverWith(s.sh.info, e, x);
      }
    }
  }

  lemma QuietGone(s: State, call: LuaStep)
    requires CanCall(s, call) && !call.EndDeliver?
    ensures Called(s, call).h.done == s.h.done && Called(s, call).h.gone == s.h.gone
  {
  }

  lemma GoneStep(s: State, step: Step)
    requires Inv(s) && Enabled(s, step) && GoneRight(s)
    ensures GoneRight(Next(s, step))
  {
    forall d | d in s.h.done ensures d in s.sh.info {
      assert Facts(s, d);
      CountIn(s.h.done, d);
    }
    match step
    case Lua(call) =>
      CallShape(s, call);
      if call.EndDeliver? {
        assert Called(s, call) == DoEndDeliver(s);
        EndGone(s, Called(s, call), Top(s).current.value);
      } else {
        QuietGone(s, call);
        GoneStays(s, Called(s, call));
      }
    case Work(work) =>
      WorkShape(s, work);
      assert Worked(s, work).h.done == s.h.done && Worked(s, work).h.gone == s.h.gone;
      GoneStays(s, Worked(s, work));
  }

  lemma {:induction false} GoneRun(s: State, steps: seq<Step>)
    requires Inv(s) && CanRun(s, steps) && GoneRight(s)
    ensures GoneRight(Run(s, steps))
    decreases |steps|
  {
    if steps != [] {
      GoneStep(s, steps[0]);
      StepKeeps(s, steps[0]);
      GoneRun(Next(s, steps[0]), steps[1..]);
    }
  }

  /** After every run the outstanding list of each query is the data the run has started for it, in start order, without
      the data that has been delivered and the members of delivered transactions; and it lists nothing twice. */
  lemma RunningListIsOutstanding(steps: seq<Step>, q: QueryId, d: DataId)
    requires CanRun(INIT, steps)
    ensures var s := Run(INIT, steps);
      && Get(s.running, q) == Remaining(StartedFor(steps, q), s.h.gone)
      && (d in s.h.gone <==> exists e :: e in s.h.done && OverWith(s.sh.info, e, d))
      && Count(Get(s.running, q), d) <= 1
  {
    OutstandingRun(INIT, steps);
    LogIs(INIT, steps, q);
    assert [] + StartedFor(steps, q) == StartedFor(steps, q);
    InitHolds();
    GoneRun(INIT, steps);
    var s := Run(INIT, steps);
    RemainingIn(Get(s.h.log, q), s.h.gone, d);
    assert Count(Get(s.h.log, q), d) <= 1;
  }
}
