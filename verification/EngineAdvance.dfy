/** One whole call of `advance` in a live process, and the measure by which every call that is not refused
    brings the task nearer to a pause. */
module EngineAdvance {
  import opened Basics
  import opened EngineState
  import opened EngineSteps
  import opened EngineProof
  import opened EngineConclusion
  import opened EngineRuns

  /** What the provider, the worker or the executor answers. */
  datatype Answer = Good | Bad | Raises | Lost

  /** The outside world during one call: fresh identifiers, the clock early and late, whether the body gets as far as
      asking the model and as its receipt, and the answer. */
  datatype Outside = Outside(first: Id, second: Id, third: Id, fourth: Id, operation: Id, invocation: Id, action: Id,
                             asked: bool, responded: bool, answer: Answer, now: Time, later: Time, expires: Time)

  /** The store refuses a record whose identifier it already holds. */
  predicate Fresh(s: State, w: Outside) {
    && w.first !in s.records && w.second !in s.records && w.third !in s.records && w.fourth !in s.records
    && w.first != w.second && w.first != w.third && w.first != w.fourth
    && w.second != w.third && w.second != w.fourth && w.third != w.fourth
  }

  function Try(s: State, a: Action): (State, bool) {
    if Enabled(s, a) then (Apply(s, a), true) else (s, false)
  }

  /** The body of the current operation, on records `first` and `second`. */
  function BodyOf(s: State, w: Outside): Action
    requires s.running.Some?
    ensures IsBody(BodyOf(s, w))
  {
    match s.running.value.key.stage
    case PlanningStage => if w.answer == Good then PlanBody(w.first) else FailedBody
    case ImplementationStage => if w.answer == Good then PatchBody(w.first, w.invocation) else FailedBody
    case TestsStage => TestBody(w.first, w.answer == Good)
    case ReviewStage => ReviewBody(w.first, w.second, w.answer == Good, w.invocation)
    case ExternalStage => EffectBody(w.first, w.answer != Good, w.later)
  }

  /** The guards that each stage checks before it looks at its operation. */
  predicate Admitted(s: State, now: Time) {
    && (s.task.phase in {Implementing, Testing} ==> Approved(s, s.task, PlanKind, now))
    && (s.task.phase == ReadyForPr ==>
          && Approved(s, s.task, ActionKind, now)
          && At(s.records, s.task.actionRequest).Some?
          && At(s.records, s.task.actionRequest).value.ActionRequest?)
  }

  function OperationId(s: State, w: Outside): Id
    requires Admitted(s, w.now)
  {
    if s.task.phase == ReadyForPr then At(s.records, s.task.actionRequest).value.op else w.operation
  }

  /** The started row is committed, and the process enters the body. */
  function Entered(s: State, start: Action): State
    requires start.StartOperation? && Enabled(s, start)
    ensures InBody(Entered(s, start))
    ensures Entered(s, start).running.value.key in Entered(s, start).operations
  {
    Apply(Apply(s, start), EnterBody)
  }

  predicate IsBody(b: Action) {
    b.PlanBody? || b.PatchBody? || b.TestBody? || b.ReviewBody? || b.EffectBody? || b.FailedBody?
  }

  /** The body's result is stored, or the failure of a body that a guard refuses. */
  function Finished'(e: State, b: Action): State
    requires e.running.Some? && e.running.value.entered && e.running.value.key in e.operations && IsBody(b)
  {
    if Enabled(e, b) then Apply(Apply(e, b), FinishOperation) else Apply(e, FinishFailed)
  }

  /** The end of a body that may still be running, and the end of one that raised. */
  function Unfinished(e: State, lost: bool): State
    requires e.running.Some? && e.running.value.entered && e.running.value.key in e.operations
  {
    if lost && Enabled(e, Uncertain) then Apply(e, Uncertain) else Apply(e, FinishFailed)
  }

  /** The body asks the model and stores its receipt, as far as it gets. */
  function Consulted(e: State, w: Outside): State
    requires e.running.Some?
  {
    if !w.asked || !Consults(e.running.value.key.stage) then e
    else
      var i := Try(e, Invoke(w.invocation)).0;
      if w.responded then Try(i, Respond).0 else i
  }

  lemma ConsultedShape(e: State, w: Outside)
    requires InBody(e)
    ensures Consulted(e, w) == e.(task := e.task.(invocation := Consulted(e, w).task.invocation))
    ensures Consulted(e, w).task.invocation ==
            if !w.asked || !Consults(e.running.value.key.stage) then e.task.invocation
            else if w.responded then None else Some(w.invocation)
  {
  }

  /** A body that needs the model's answer has not got it. */
  predicate Silent(e: State, w: Outside)
    requires e.running.Some?
  {
    Consults(e.running.value.key.stage) && !(w.asked && w.responded)
  }

  /** How the body ends: an uncertain end blocks the task, a refusal is stored as a failure, a result as itself. */
  function Ended(e: State, w: Outside): State
    requires e.running.Some? && e.running.value.entered && e.running.value.key in e.operations
  {
    if w.answer == Raises || Silent(e, w) || (w.answer == Lost && Enabled(e, Uncertain)) then Unfinished(e, w.answer == Lost && !Silent(e, w))
    else Finished'(e, BodyOf(e, w))
  }

  function Asked(s: State, start: Action, w: Outside): State
    requires start.StartOperation? && Enabled(s, start)
    ensures InBody(Asked(s, start, w))
    ensures Asked(s, start, w).running.value.key in Asked(s, start, w).operations
  {
    ConsultedShape(Entered(s, start), w);
    Consulted(Entered(s, start), w)
  }

  /** A new operation, to its stored result or to the block that an uncertain end leaves. */
  function Executed(s: State, w: Outside): (State, bool)
    requires Admitted(s, w.now)
  {
    var start := StartOperation(OperationId(s, w), w.now);
    if Enabled(s, start) then (Ended(Asked(s, start, w), w), true) else (s, false)
  }

  /** `_operation`: replay a finished slot, reconcile or block an unfinished one, or execute a new one. */
  function Operated(s: State, w: Outside): (State, bool)
    requires s.running == None && CurrentKey(s.task).Some? && Admitted(s, w.now)
  {
    if CurrentKey(s.task).value !in s.operations then Executed(s, w)
    else if CurrentOp(s).result.Some? then (s, true)
    else if Enabled(s, Reconcile) then (Apply(s, Reconcile), true)
    else Try(s, BlockUnresolved)
  }

  function Advanced(s: State, w: Outside): (State, bool)
    requires s.running == None
  {
    var p := s.task.phase;
    if Paused(p) then (s, true)
    else if !Fresh(s, w) then (s, false)
    else if p == SpecReady then Try(s, BeginPlanning)
    else if p == ReadyForImplementation then Try(s, BeginAttempt(w.first, w.now))
    else if p == ChangesRequested then Try(s, SettleChanges(w.now))
    else if p == PrCreated then Try(s, Complete)
    else if CurrentKey(s.task).None? || !Admitted(s, w.now) then (s, false)
    else
      var (o, ok) := Operated(s, w);
      if !ok || o.task.phase == Blocked then (o, ok)
      else Try(o, Conclude(w.third, w.fourth, w.action, w.expires, w.later))
  }

  // ---- The measure ----

  /** How many more calls can pass before the task must pause. */
  function Rank(t: Task): nat
    requires CountsOk(t)
  {
    var r := 3 - t.attempt;
    match t.phase
    case SpecReady => 2
    case Planning => 1
    case ReadyForImplementation => 5 * r
    case Implementing => 5 * r + 4
    case Testing => 5 * r + 3
    case Reviewing => 5 * r + 2
    case ChangesRequested => 5 * r + 1
    case ReadyForPr => 2
    case PrCreated => 1
    case _ => 0
  }

  predicate Nearer(t: Task, t': Task)
    requires CountsOk(t) && CountsOk(t')
  {
    Paused(t'.phase) || Rank(t') < Rank(t)
  }

  lemma RankBounded(t: Task)
    requires CountsOk(t)
    ensures Rank(t) <= 15
    ensures Rank(t) == 0 ==> Paused(t.phase) || Drafting(t.phase)
  {
  }

  // ---- A call keeps whatever every step keeps ----

  ghost predicate Stable(P: State -> bool) {
    forall s, a :: P(s) && Enabled(s, a) ==> P(Apply(s, a))
  }

  lemma StepKept(P: State -> bool, s: State, a: Action)
    requires Stable(P) && P(s)
    ensures Enabled(s, a) ==> P(Apply(s, a))
  {
  }

  lemma FinishedKeeps(P: State -> bool, e: State, b: Action)
    requires Stable(P) && P(e) && e.running.Some? && e.running.value.entered && e.running.value.key in e.operations
    requires IsBody(b)
    ensures P(Finished'(e, b))
  {
    StepKept(P, e, b);
    StepKept(P, e, FinishFailed);
    if Enabled(e, b) { StepKept(P, Apply(e, b), FinishOperation); }
  }

  lemma UnfinishedKeeps(P: State -> bool, e: State, lost: bool)
    requires Stable(P) && P(e) && e.running.Some? && e.running.value.entered && e.running.value.key in e.operations
    ensures P(Unfinished(e, lost))
  {
    StepKept(P, e, Uncertain);
    StepKept(P, e, FinishFailed);
  }

  lemma EndedKeeps(P: State -> bool, e: State, w: Outside)
    requires Stable(P) && P(e) && e.running.Some? && e.running.value.entered && e.running.value.key in e.operations
    ensures P(Ended(e, w))
  {
    hide Enabled;
    UnfinishedKeeps(P, e, w.answer == Lost && !Silent(e, w));
    FinishedKeeps(P, e, BodyOf(e, w));
  }

  lemma ConsultedKeeps(P: State -> bool, e: State, w: Outside)
    requires Stable(P) && P(e) && e.running.Some?
    ensures P(Consulted(e, w))
  {
    StepKept(P, e, Invoke(w.invocation));
    StepKept(P, e, Respond);
    StepKept(P, Try(e, Invoke(w.invocation)).0, Respond);
  }

  lemma ExecutedKeeps(P: State -> bool, s: State, w: Outside)
    requires Stable(P) && P(s) && Admitted(s, w.now)
    ensures P(Executed(s, w).0)
  {
    var start := StartOperation(OperationId(s, w), w.now);
    if Enabled(s, start) {
      assert P(Apply(s, start)) && Enabled(Apply(s, start), EnterBody);
      ConsultedKeeps(P, Entered(s, start), w);
      EndedKeeps(P, Asked(s, start, w), w);
    }
  }

  lemma OperatedKeeps(P: State -> bool, s: State, w: Outside)
    requires Stable(P) && P(s) && s.running == None && CurrentKey(s.task).Some? && Admitted(s, w.now)
    ensures P(Operated(s, w).0)
  {
    if CurrentKey(s.task).value !in s.operations { ExecutedKeeps(P, s, w); }
  }

  lemma AdvancedKeeps(P: State -> bool, s: State, w: Outside)
    requires Stable(P) && P(s) && s.running == None
    ensures P(Advanced(s, w).0)
  {
    if CurrentKey(s.task).Some? && Admitted(s, w.now) { OperatedKeeps(P, s, w); }
  }

  lemma AdvancedKeepsInv(s: State, w: Outside)
    requires Inv(s) && s.running == None
    ensures Inv(Advanced(s, w).0)
  {
    forall s, a | Inv(s) && Enabled(s, a) ensures Inv(Apply(s, a)) { StepKeepsInv(s, a, Apply(s, a)); }
    AdvancedKeeps(s => Inv(s), s, w);
  }

  // ---- A call that is not refused brings the task nearer to a pause ----

  predicate StageEnd(p: Phase, q: Phase) {
    match p
    case Planning => q in {AwaitingPlanApproval, Failed}
    case Implementing => q in {Testing, ChangesRequested}
    case Testing => q in {Reviewing, ChangesRequested}
    case Reviewing => q in {AwaitingActionApproval, ChangesRequested}
    case _ => q in {PrCreated, Failed}
  }

  lemma ConcludingEnd(s: State, r: Result, first: Id, second: Id, op: Id, expires: Time)
    ensures StageEnd(s.task.phase, Concluding(s, r, first, second, op, expires).1)
  {
  }

  lemma StageEndNearer(t: Task, t': Task)
    requires CountsOk(t) && CountsOk(t') && StageOf(t.phase).Some? && StageEnd(t.phase, t'.phase) && t'.attempt == t.attempt
    ensures Nearer(t, t')
  {
  }

  lemma ConcludeEndsStage(s: State, a: Action)
    requires Enabled(s, a) && a.Conclude?
    ensures StageEnd(s.task.phase, Apply(s, a).task.phase)
    ensures Apply(s, a).task.attempt == s.task.attempt && Apply(s, a).running == None
  {
    ConclusionShape(s, a);
    ConcludingEnd(s, CurrentOp(s).result.value, a.first, a.second, a.op, a.expires);
  }

  lemma MoveNearer(s: State, a: Action)
    requires Enabled(s, a) && (a.BeginPlanning? || a.BeginAttempt? || a.SettleChanges? || a.Complete?)
    requires CountsOk(s.task) && CountsOk(Apply(s, a).task)
    ensures Nearer(s.task, Apply(s, a).task)
  {
  }

  /** The task is in the same stage of the same attempt: only what it names as active has changed. */
  predicate SameStage(t: Task, t': Task) {
    t' == t.(active := t'.active, invocation := t'.invocation)
  }

  lemma EnteredStays(s: State, start: Action)
    requires start.StartOperation? && Enabled(s, start)
    ensures SameStage(s.task, Entered(s, start).task)
  {
  }

  lemma BodyStays(e: State, b: Action)
    requires Enabled(e, b) && IsBody(b)
    ensures Apply(e, b).task == e.task && Apply(e, b).running.Some?
    ensures Apply(e, b).operations == e.operations
  {
  }

  lemma FinishedStays(e: State, b: Action)
    requires e.running.Some? && e.running.value.entered && e.running.value.key in e.operations && IsBody(b)
    ensures Finished'(e, b).running == None && SameStage(e.task, Finished'(e, b).task)
  {
    if Enabled(e, b) { BodyStays(e, b); }
  }

  lemma UnfinishedStays(e: State, lost: bool)
    requires e.running.Some? && e.running.value.entered && e.running.value.key in e.operations
    ensures Unfinished(e, lost).running == None
    ensures Unfinished(e, lost).task.phase == Blocked || SameStage(e.task, Unfinished(e, lost).task)
  {
  }

  lemma EndedStays(e: State, w: Outside)
    requires e.running.Some? && e.running.value.entered && e.running.value.key in e.operations
    ensures Ended(e, w).running == None
    ensures Ended(e, w).task.phase == Blocked || SameStage(e.task, Ended(e, w).task)
  {
    FinishedStays(e, BodyOf(e, w));
    UnfinishedStays(e, w.answer == Lost && !Silent(e, w));
  }

  /** Operating leaves the stage where it is, or blocks the task. */
  lemma OperatedStays(s: State, w: Outside)
    requires s.running == None && CurrentKey(s.task).Some? && Admitted(s, w.now)
    ensures var o := Operated(s, w).0;
            && o.running == None
            && (o.task.phase == Blocked || SameStage(s.task, o.task))
  {
    if CurrentKey(s.task).value !in s.operations {
      ExecutedStays(s, w);
      hide Executed, Admitted;
    } else {
      ReconcileStays(s);
      BlockedStays(s);
      hide Admitted, Executed, Enabled, Apply;
    }
  }

  lemma ReconcileStays(s: State)
    ensures Enabled(s, Reconcile) ==> Apply(s, Reconcile).running == None && SameStage(s.task, Apply(s, Reconcile).task)
  {
  }

  lemma BlockedStays(s: State)
    ensures Enabled(s, BlockUnresolved) ==> Apply(s, BlockUnresolved).running == None && Apply(s, BlockUnresolved).task.phase == Blocked
  {
  }

  lemma ExecutedStays(s: State, w: Outside)
    requires s.running == None && Admitted(s, w.now)
    ensures var o := Executed(s, w).0; o.running == None && (o.task.phase == Blocked || SameStage(s.task, o.task))
  {
    var start := StartOperation(OperationId(s, w), w.now);
    if Enabled(s, start) {
      EnteredStays(s, start);
      ConsultedShape(Entered(s, start), w);
      EndedStays(Asked(s, start, w), w);
      hide Enabled, Entered, Asked, Ended, Consulted, Admitted;
    }
  }

  lemma StageNearer(s: State, w: Outside)
    requires s.running == None && Advanced(s, w).1
    requires CountsOk(s.task) && CountsOk(Advanced(s, w).0.task)
    requires !Paused(s.task.phase) && s.task.phase !in {SpecReady, ReadyForImplementation, ChangesRequested, PrCreated}
    ensures Advanced(s, w).0.running == None
    ensures Nearer(s.task, Advanced(s, w).0.task)
  {
    OperatedStays(s, w);
    var o := Operated(s, w).0;
    if o.task.phase != Blocked {
      ConcludeEndsStage(o, Conclude(w.third, w.fourth, w.action, w.expires, w.later));
      StageEndNearer(s.task, Advanced(s, w).0.task);
    }
  }

  /** A call of `advance` that is not refused leaves no running work, and the task nearer to a pause. */
  lemma AdvanceNearer(s: State, w: Outside)
    requires Inv(s) && s.running == None && Advanced(s, w).1
    ensures Advanced(s, w).0.running == None
    ensures Inv(Advanced(s, w).0)
    ensures Nearer(s.task, Advanced(s, w).0.task)
  {
    AdvancedKeepsInv(s, w);
    var p := s.task.phase;
    if p == SpecReady {
      MoveNearer(s, BeginPlanning);
    } else if p == ReadyForImplementation {
      MoveNearer(s, BeginAttempt(w.first, w.now));
    } else if p == ChangesRequested {
      MoveNearer(s, SettleChanges(w.now));
    } else if p == PrCreated {
      MoveNearer(s, Complete);
    } else if !Paused(p) {
      StageNearer(s, w);
    }
  }
}
