/**
 What becomes of the result and the status the worker recorded: exactly which steps change them afterwards, and what the
 callbacks then tell.
 */
module Outcomes {
  import opened QueryTypes
  import opened BlockingQueues
  import opened Lifecycle
  import opened Conservation
  import opened Delivery
  import opened Callbacks

  /** Data that was executed is not queued, executing, or waited for at the end of the thread. */
  lemma ExecutedIs(s: State, d: DataId)
    requires Facts(s, d) && d in s.h.outcome && d in s.sh.info
    ensures s.worker != Taken(d) && s.worker != Executing(d) && Item(d) !in s.sh.queue && d !in s.h.aborted
    ensures s.worker == Closing ==> s.sh.waiting != Some(d)
  {
    CountIn(s.h.taken, d);
    CountIn(s.sh.queue, Item(d));
    CountIn(s.h.aborted, d);
  }

  lemma CallOutcome(s: State, call: LuaStep)
    requires CanCall(s, call)
    ensures Called(s, call).h.outcome == s.h.outcome
  {
  }

  lemma WorkOutcome(s: State, work: WorkerStep)
    requires CanWork(s, work)
    ensures Worked(s, work).h.outcome
            == if work.Execute? then s.h.outcome[s.worker.data := work.result] else s.h.outcome
  {
  }

  lemma StepOutcome(s: State, step: Step)
    requires Enabled(s, step)
    ensures Next(s, step).h.outcome
            == if step.Work? && step.work.Execute? then s.h.outcome[s.worker.data := step.work.result]
               else s.h.outcome
  {
    match step
    case Lua(call) => CallOutcome(s, call);
    case Work(work) => WorkOutcome(s, work);
  }

  /** The outcome of an execution stays in the history. */
  lemma OutcomeStays(s: State, step: Step, d: DataId)
    requires Facts(s, d) && Enabled(s, step) && d in s.h.outcome
    ensures d in Next(s, step).h.outcome && Next(s, step).h.outcome[d] == s.h.outcome[d]
  {
    StepOutcome(s, step);
  }

  // ---------------------------------------------------------------------------------------------------------
  // The record of executed data after a step
  // ---------------------------------------------------------------------------------------------------------

  /** A wait on `d` that fails because waiting is impossible. */
  predicate FailsWait(s: State, step: Step, d: DataId) {
    Enabled(s, step) && step == Lua(WaitEnter) && s.op.data == d && !s.sh.canWait
  }

  /** The last part of a `start` of `d`. */
  predicate MarksWaiting(s: State, step: Step, d: DataId) {
    Enabled(s, step) && step == Lua(StartStatus) && s.op.data == d
  }

  /** The success path of a transaction's delivery. */
  predicate MarksComplete(s: State, step: Step, d: DataId) {
    && Enabled(s, step) && d in s.sh.info && step.Lua? && step.call.BeginDeliver?
    && Top(s).rest[0] == d && !Top(s).aborted
    && s.sh.info[d].result == Success && s.sh.info[d].transaction && TableRef in s.sh.info[d].refs
  }

  lemma RecordAfterIs(s: State, call: LuaStep, d: DataId, data: Data)
    requires CanCall(s, call) && !call.StartPut? && d in s.sh.info && s.sh.info[d] == data
    requires Item(d) !in s.sh.queue && d !in QueueData(s.sh.queue)
    ensures var data' := RecordAfterCall(s, call, d, data);
      && data'.result == (if FailsWait(s, Lua(call), d) then Error else data.result)
      && data'.status == (if FailsWait(s, Lua(call), d) || MarksComplete(s, Lua(call), d) then Complete
                          else if MarksWaiting(s, Lua(call), d) then Waiting else data.status)
  {
  }

  lemma ExecutedRecordCall(s: State, call: LuaStep, d: DataId)
    requires Facts(s, d) && CanCall(s, call) && d in s.h.outcome && d in s.sh.info
    ensures d in Called(s, call).sh.info
    ensures var data := s.sh.info[d]; var data' := Called(s, call).sh.info[d];
      && data'.result == (if FailsWait(s, Lua(call), d) then Error else data.result)
      && data'.status == (if FailsWait(s, Lua(call), d) || MarksComplete(s, Lua(call), d) then Complete
                          else if MarksWaiting(s, Lua(call), d) then Waiting else data.status)
  {
    ExecutedIs(s, d);
    if call.StartPut? {
      StartLeaves(s, call, d);
    } else {
      CallRecord(s, call, d);
      QueueDataCounts(s.sh.queue, d);
      CountIn(QueueData(s.sh.queue), d);
      CountIn(s.sh.queue, Item(d));
      RecordAfterIs(s, call, d, s.sh.info[d]);
    }
  }

  /** A start makes new data and leaves the rest alone. */
  lemma StartLeaves(s: State, call: LuaStep, d: DataId)
    requires call.StartPut? && CanCall(s, call) && d in s.sh.info
    ensures d in Called(s, call).sh.info && Called(s, call).sh.info[d] == s.sh.info[d]
  {
  }

  lemma ExecutedRecordWork(s: State, work: WorkerStep, d: DataId)
    requires Facts(s, d) && CanWork(s, work) && d in s.h.outcome && d in s.sh.info
    ensures d in Worked(s, work).sh.info
    ensures Worked(s, work).sh.info[d].result == s.sh.info[d].result
    ensures Worked(s, work).sh.info[d].status == s.sh.info[d].status
  {
    ExecutedIs(s, d);
    WorkRecord(s, work, d);
  }

  /** After the worker has recorded a result, only three steps write the result or the status again. */
  lemma ExecutedRecord(s: State, step: Step, d: DataId)
    requires Facts(s, d) && Enabled(s, step) && d in s.h.outcome && d in s.sh.info
    ensures d in Next(s, step).sh.info
    ensures var data := s.sh.info[d]; var data' := Next(s, step).sh.info[d];
      && data'.result == (if FailsWait(s, step, d) then Error else data.result)
      && data'.status == (if FailsWait(s, step, d) || MarksComplete(s, step, d) then Complete
                          else if MarksWaiting(s, step, d) then Waiting else data.status)
  {
    match step
    case Lua(call) => ExecutedRecordCall(s, call, d);
    case Work(work) => ExecutedRecordWork(s, work, d);
  }

  // ---------------------------------------------------------------------------------------------------------
  // Results
  // ---------------------------------------------------------------------------------------------------------

  /** The step takes a success back. */
  predicate Overwrites(s: State, step: Step, d: DataId) {
    FailsWait(s, step, d) && d in s.h.outcome && d in s.sh.info && s.sh.info[d].result == Success
  }

  /** The recorded result of executed data changes exactly when a wait on it finds that waiting is impossible, and the
      result was a success. */
  lemma ResultChangesIff(s: State, step: Step, d: DataId)
    requires DeliveryInv(s) && Enabled(s, step) && d in s.h.outcome && d in s.sh.info
    ensures d in Next(s, step).sh.info
    ensures Next(s, step).sh.info[d].result != s.sh.info[d].result
            <==> step == Lua(WaitEnter) && s.op.data == d && !s.sh.canWait && s.sh.info[d].result == Success
  {
    assert Facts(s, d) && ResultRight(s, d);
    ExecutedRecord(s, step, d);
  }

  predicate SomeOverwrites(s: State, steps: seq<Step>, d: DataId)
    decreases |steps|
  {
    steps != [] && (Overwrites(s, steps[0], d) || SomeOverwrites(Next(s, steps[0]), steps[1..], d))
  }

  /** The record no longer says what the execution said. */
  predicate Overwritten(s: State, d: DataId) {
    d in s.h.outcome && d in s.sh.info && s.sh.info[d].result != s.h.outcome[d]
  }

  lemma OutcomeIsMade(s: State, d: DataId)
    requires Facts(s, d) && d in s.h.outcome
    ensures d in s.sh.info
  {
    CountIn(s.h.taken, d);
  }

  /** The step that executes `d` records what it says. */
  lemma ExecuteRecords(s: State, work: WorkerStep, d: DataId)
    requires work.Execute? && CanWork(s, work) && s.worker == Executing(d) && d in s.sh.info
    ensures d in Worked(s, work).sh.info && Worked(s, work).h.outcome == s.h.outcome[d := work.result]
    ensures Worked(s, work).sh.info[d].result == work.result && Worked(s, work).sh.info[d].status == Complete
  {
    WorkOutcome(s, work);
    WorkRecord(s, work, d);
  }

  lemma HeldIsMade(s: State, d: DataId)
    requires Facts(s, d) && Held(s.worker, d)
    ensures d in s.sh.info
  {
    CountIn(s.h.taken, d);
  }

  lemma OverwrittenStep(s: State, step: Step, d: DataId)
    requires DeliveryInv(s) && Enabled(s, step)
    ensures Overwritten(Next(s, step), d) <==> Overwritten(s, d) || Overwrites(s, step, d)
  {
    assert Facts(s, d) && ResultRight(s, d);
    if d in s.h.outcome {
      OutcomeIsMade(s, d);
      OutcomeStays(s, step, d);
      ExecutedRecord(s, step, d);
    } else {
      StepOutcome(s, step);
      if s.worker == Executing(d) && step.Work? && step.work.Execute? {
        HeldIsMade(s, d);
        ExecuteRecords(s, step.work, d);
      }
    }
  }

  lemma {:induction false} OverwrittenRun(s: State, steps: seq<Step>, d: DataId)
    requires DeliveryInv(s) && CanRun(s, steps)
    ensures Overwritten(Run(s, steps), d) <==> Overwritten(s, d) || SomeOverwrites(s, steps, d)
    decreases |steps|
  {
    if steps != [] {
      OverwrittenStep(s, steps[0], d);
      DeliveryStep(s, steps[0]);
      OverwrittenRun(Next(s, steps[0]), steps[1..], d);
    }
  }

  /** After every run the recorded result of executed data differs from what the execution gave if and only if, at some
      point of the run, a wait on it failed after its success had been recorded. */
  lemma ResultLostIff(steps: seq<Step>, d: DataId)
    requires CanRun(INIT, steps) && d in Run(INIT, steps).h.outcome
    ensures d in Run(INIT, steps).sh.info
    ensures Run(INIT, steps).sh.info[d].result != Run(INIT, steps).h.outcome[d] <==> SomeOverwrites(INIT, steps, d)
  {
    InitDelivery();
    DeliveryRun(INIT, steps);
    OverwrittenRun(INIT, steps, d);
    assert Facts(Run(INIT, steps), d);
    OutcomeIsMade(Run(INIT, steps), d);
  }

  /** A delivery of executed data runs the success callback if and only if the execution succeeded, no later wait on it
      failed, and the callback can be found; the error callback if and only if the execution failed or such a wait did,
      and that callback can be found; and otherwise none. */
  lemma CallbackKindIff(steps: seq<Step>, call: LuaStep)
    requires CanRun(INIT, steps) && call.BeginDeliver? && CanCall(Run(INIT, steps), call)
    requires Top(Run(INIT, steps)).rest[0] in Run(INIT, steps).h.outcome
    ensures var s := Run(INIT, steps); var d := Top(s).rest[0]; var data := s.sh.info[d];
      var events := Called(s, call).h.events;
      var fine := s.h.outcome[d] == Success && !SomeOverwrites(INIT, steps, d);
      && (events == s.h.events + [Event(d, SuccessCallback)] <==> fine && Found(data, SuccessCallback, call.hasField))
      && (events == s.h.events + [Event(d, ErrorCallback)] <==> !fine && Found(data, ErrorCallback, call.hasField))
      && (events != s.h.events ==>
            events == s.h.events + [Event(d, if fine then SuccessCallback else ErrorCallback)])
  {
    InitDelivery();
    DeliveryRun(INIT, steps);
    var s := Run(INIT, steps);
    var d := Top(s).rest[0];
    ResultLostIff(steps, d);
    assert Facts(s, d) && ResultRight(s, d) && FrameFits(s.h, Top(s)) && Fits(s.h, Top(s).aborted, d);
    ExecutedIs(s, d);
    OutcomeHasResult(INIT, steps, d);
    KindIff(s, call, s.h.outcome[d] == Success && !SomeOverwrites(INIT, steps, d));
  }

  /** The event of a delivery of data with a result, which is a success or not. */
  lemma KindIff(s: State, call: LuaStep, fine: bool)
    requires call.BeginDeliver? && CanCall(s, call) && !Top(s).aborted
    requires s.sh.info[Top(s).rest[0]].result == if fine then Success else Error
    ensures var d := Top(s).rest[0]; var data := s.sh.info[d]; var events := Called(s, call).h.events;
      && (events == s.h.events + [Event(d, SuccessCallback)] <==> fine && Found(data, SuccessCallback, call.hasField))
      && (events == s.h.events + [Event(d, ErrorCallback)] <==> !fine && Found(data, ErrorCallback, call.hasField))
      && (events != s.h.events ==>
            events == s.h.events + [Event(d, if fine then SuccessCallback else ErrorCallback)])
  {
    DeliveryRunsIff(s, call, SuccessCallback);
    DeliveryRunsIff(s, call, ErrorCallback);
    DeliveryRunsIff(s, call, AbortedCallback);
  }

  /** Executions end with a success or an error. */
  lemma {:induction false} OutcomeHasResult(s: State, steps: seq<Step>, d: DataId)
    requires CanRun(s, steps) && (d in s.h.outcome ==> s.h.outcome[d] != NoResult)
    ensures var h := Run(s, steps).h; d in h.outcome ==> h.outcome[d] != NoResult
    decreases |steps|
  {
    if steps != [] {
      StepOutcome(s, steps[0]);
      OutcomeHasResult(Next(s, steps[0]), steps[1..], d);
    }
  }

  // ---------------------------------------------------------------------------------------------------------
  // Statuses
  // ---------------------------------------------------------------------------------------------------------

  /** Executed data that says it is complete says it is waiting again exactly when its `start` gets to its last part.
      */
  lemma BackToWaitingIff(s: State, step: Step, d: DataId)
    requires DeliveryInv(s) && Enabled(s, step) && d in s.h.outcome && d in s.sh.info
    requires s.sh.info[d].status == Complete
    ensures d in Next(s, step).sh.info
    ensures Next(s, step).sh.info[d].status == Waiting <==> step == Lua(StartStatus) && s.op.data == d
  {
    assert Facts(s, d);
    ExecutedRecord(s, step, d);
  }

  /** Going over the run: the status says waiting after the late last part of `start`, until a failed wait or the
      success path of a transaction says complete. */
  predicate SaysWaiting(s: State, steps: seq<Step>, d: DataId, was: bool)
    decreases |steps|
  {
    if steps == [] then was
    else
      var now := if d !in s.h.outcome || d !in s.sh.info then false
                 else if MarksWaiting(s, steps[0], d) then true
                 else if FailsWait(s, steps[0], d) || MarksComplete(s, steps[0], d) then false else was;
      SaysWaiting(Next(s, steps[0]), steps[1..], d, now)
  }

  predicate WaitingAfterAll(s: State, d: DataId) {
    d in s.h.outcome && d in s.sh.info && s.sh.info[d].status == Waiting
  }

  lemma {:induction false} SaysWaitingRun(s: State, steps: seq<Step>, d: DataId)
    requires DeliveryInv(s) && CanRun(s, steps)
    ensures WaitingAfterAll(Run(s, steps), d) <==> SaysWaiting(s, steps, d, WaitingAfterAll(s, d))
    decreases |steps|
  {
    if steps != [] {
      assert Facts(s, d);
      if d in s.h.outcome {
        OutcomeIsMade(s, d);
        OutcomeStays(s, steps[0], d);
        ExecutedRecord(s, steps[0], d);
      } else {
        StepOutcome(s, steps[0]);
        if s.worker == Executing(d) && steps[0].Work? && steps[0].work.Execute? {
          HeldIsMade(s, d);
          ExecuteRecords(s, steps[0].work, d);
        }
      }
      DeliveryStep(s, steps[0]);
      SaysWaitingRun(Next(s, steps[0]), steps[1..], d);
    }
  }

  /** After every run executed data is left saying that it is waiting if and only if its `start` got to its last part
      only after the execution, and nothing has said complete since. */
  lemma LeftWaitingIff(steps: seq<Step>, d: DataId)
    requires CanRun(INIT, steps) && d in Run(INIT, steps).h.outcome
    ensures d in Run(INIT, steps).sh.info
    ensures Run(INIT, steps).sh.info[d].status == Waiting <==> SaysWaiting(INIT, steps, d, false)
  {
    InitDelivery();
    DeliveryRun(INIT, steps);
    SaysWaitingRun(INIT, steps, d);
    assert Facts(Run(INIT, steps), d);
    OutcomeIsMade(Run(INIT, steps), d);
  }

  // ---------------------------------------------------------------------------------------------------------
  // Error texts
  // ---------------------------------------------------------------------------------------------------------

  /** The error text of `d` after a step, from the one before: a failed wait and the end of the thread write their own,
      an execution that fails writes the server's. */
  function TextAfter(s: State, step: Step, d: DataId, was: ErrorText): ErrorText {
    if FailsWait(s, step, d) then WaitImpossible
    else if Enabled(s, step) && step == Work(AbortWaiting) && s.sh.waiting == Some(d) then WaitDisconnected
    else if Enabled(s, step) && step.Work? && step.work.Execute? && step.work.result == Error && s.worker.data == d
    then step.work.error
    else was
  }

  /** Going over the run. */
  function LastText(s: State, steps: seq<Step>, d: DataId, was: ErrorText): ErrorText
    decreases |steps|
  {
    if steps == [] then was else LastText(Next(s, steps[0]), steps[1..], d, TextAfter(s, steps[0], d, was))
  }

  predicate TextIs(s: State, d: DataId, text: ErrorText) {
    if d in s.sh.info then s.sh.info[d].error == text else text == NoError
  }

  lemma CallText(s: State, call: LuaStep, d: DataId, was: ErrorText)
    requires Inv(s) && CanCall(s, call) && TextIs(s, d, was)
    ensures TextIs(Called(s, call), d, TextAfter(s, Lua(call), d, was))
  {
    if !call.StartPut? {
      CallKeys(s, call);
      if d in s.sh.info {
        CallRecord(s, call, d);
      }
    }
  }

  lemma WorkText(s: State, work: WorkerStep, d: DataId, was: ErrorText)
    requires Inv(s) && CanWork(s, work) && TextIs(s, d, was)
    ensures TextIs(Worked(s, work), d, TextAfter(s, Work(work), d, was))
  {
    assert Facts(s, d);
    WorkKeys(s, work);
    CountIn(s.h.taken, d);
    if d in s.sh.info {
      WorkRecord(s, work, d);
    }
  }

  lemma {:induction false} TextRun(s: State, steps: seq<Step>, d: DataId, was: ErrorText)
    requires Inv(s) && CanRun(s, steps) && TextIs(s, d, was)
    ensures TextIs(Run(s, steps), d, LastText(s, steps, d, was))
    decreases |steps|
  {
    if steps != [] {
      match steps[0] {
        case Lua(call) => CallText(s, call, d, was);
        case Work(work) => WorkText(s, work, d, was);
      }
      StepKeeps(s, steps[0]);
      TextRun(Next(s, steps[0]), steps[1..], d, TextAfter(s, steps[0], d, was));
    }
  }

  /** After every run the error text of a data object is the one that was written last: that of a wait that found
      waiting impossible, that of the end of the thread it was waited for at, or the server's. A success writes none. */
  lemma ErrorTextIs(steps: seq<Step>, d: DataId)
    requires CanRun(INIT, steps) && d in Run(INIT, steps).sh.info
    ensures Run(INIT, steps).sh.info[d].error == LastText(INIT, steps, d, NoError)
  {
    InitHolds();
    TextRun(INIT, steps, d, NoError);
  }
}
