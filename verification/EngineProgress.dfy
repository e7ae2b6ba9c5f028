/** Where a call of `advance` leads, by what the provider, the worker and the executor answer, and how far a run of good
    answers comes. */
module EngineProgress {
  import opened Basics
  import opened EngineState
  import opened EngineSteps
  import opened EngineProof
  import opened EngineConclusion
  import opened EngineRuns
  import opened EngineAdvance

  // ---- Where each stage leads ----

  function Forward(p: Phase): Phase {
    match p
    case Planning => AwaitingPlanApproval
    case Implementing => Testing
    case Testing => Reviewing
    case Reviewing => AwaitingActionApproval
    case _ => PrCreated
  }

  function Back(p: Phase): Phase {
    if p in {Implementing, Testing, Reviewing} then ChangesRequested else Failed
  }

  /** The body has its answer: a stage that asks a model has asked it and stored its receipt. */
  predicate Heard(p: Phase, w: Outside) {
    p in {Planning, Implementing, Reviewing} ==> w.asked && w.responded
  }

  /** The phase after a call that no guard refuses and that finds no earlier result. */
  function After(t: Task, w: Outside): Phase {
    match t.phase
    case SpecReady => Planning
    case ReadyForImplementation => Implementing
    case ChangesRequested => if t.attempt >= 3 then Failed else ReadyForImplementation
    case PrCreated => EngineState.Completed
    case _ =>
      if w.answer == Lost && Heard(t.phase, w) && t.phase in {Implementing, Testing} then Blocked
      else if w.answer == Good && Heard(t.phase, w) then Forward(t.phase)
      else Back(t.phase)
  }

  predicate UnusedOperation(s: State, id: Id) {
    forall k :: k in s.operations ==> s.operations[k].id != id
  }

  predicate NotStarted(s: State) {
    CurrentKey(s.task).Some? ==> CurrentKey(s.task).value !in s.operations
  }

  predicate Working(p: Phase) { p in {Planning, Implementing, Testing, Reviewing, ReadyForPr} }

  /** Identifiers are fresh, the approvals the stage needs outlast the call, the reviewer is not the implementer, and
      the stage's operation has not been started. */
  ghost predicate Unhindered(s: State, w: Outside) {
    && Inv(s) && s.running == None
    && Fresh(s, w) && w.now <= w.later
    && (Working(s.task.phase) && s.task.phase != ReadyForPr ==> UnusedOperation(s, w.operation))
    && NotStarted(s)
    && (s.task.phase in {ReadyForImplementation, Implementing, Testing, Reviewing, ChangesRequested} ==>
          Approved(s, s.task, PlanKind, w.later))
    && (s.task.phase == Reviewing ==> Some(w.invocation) != s.task.implementer)
    && (s.task.phase == ReadyForPr ==>
          && Approved(s, s.task, ActionKind, w.later)
          && forall r :: At(s.records, s.task.actionRequest) == Some(r) && r.ActionRequest? ==> UnusedOperation(s, r.op))
  }

  // ---- The slot is opened, and the body entered ----

  lemma AdmittedNow(s: State, w: Outside)
    requires Unhindered(s, w) && Working(s.task.phase)
    ensures CurrentKey(s.task).Some? && CurrentKey(s.task).value !in s.operations
    ensures StageOf(s.task.phase) == Some(CurrentKey(s.task).value.stage)
    ensures Admitted(s, w.now) && Enabled(s, StartOperation(OperationId(s, w), w.now))
  {
    assert Effective(s.task) == s.task.phase;
    hide ResultsOk, OpsOk, EffectsOk, InvokedOk, Binds;
  }

  /** The state in which the body does its work. */
  function Opened(s: State, w: Outside): State
    requires CurrentKey(s.task).Some? && Admitted(s, w.now) && Enabled(s, StartOperation(OperationId(s, w), w.now))
    ensures InBody(Opened(s, w)) && Opened(s, w).running.value.key in Opened(s, w).operations
  {
    Asked(s, StartOperation(OperationId(s, w), w.now), w)
  }

  lemma OpenedShape(s: State, w: Outside)
    requires CurrentKey(s.task).Some? && Admitted(s, w.now) && Enabled(s, StartOperation(OperationId(s, w), w.now))
    ensures var e, k, id := Opened(s, w), CurrentKey(s.task).value, OperationId(s, w);
            && e.task == s.task.(active := Some(id), invocation := e.task.invocation)
            && e.operations == s.operations[k := Op(id, None)]
            && e.running == Some(Running(k, id, true, None))
            && e.records == s.records && e.approvals == s.approvals && e.effects == s.effects
            && (Consults(k.stage) && w.asked && w.responded ==> e.task.invocation == None)
  {
    var start := StartOperation(OperationId(s, w), w.now);
    StartedShape(s, start);
    ConsultedShape(Entered(s, start), w);
    hide Enabled, Apply, Consulted, Admitted, Entered;
  }

  lemma StartedShape(s: State, start: Action)
    requires start.StartOperation? && Enabled(s, start)
    ensures CurrentKey(s.task).Some?
    ensures var e, k := Entered(s, start), CurrentKey(s.task).value;
            && e.task == s.task.(active := Some(start.id))
            && e.operations == s.operations[k := Op(start.id, None)]
            && e.running == Some(Running(k, start.id, true, None))
            && e.records == s.records && e.approvals == s.approvals && e.effects == s.effects
  {
    hide Approved;
  }

  // ---- What a good answer leaves in the store ----

  function GoodResult(p: Phase, w: Outside): Result {
    match p
    case Planning => PlanMade(w.first)
    case Implementing => Patched(w.first, w.invocation)
    case Testing => Tested(w.first, false)
    case Reviewing => Reviewed(w.second)
    case _ => Acted(w.first, false)
  }

  function GoodRecords(s: State, w: Outside, id: Id): Records {
    var t := s.task;
    match t.phase
    case Planning => s.records[w.first := Plan(t.spec)]
    case Implementing => s.records[w.first := Patch(t.workOrder)]
    case Testing => s.records[w.first := Test(t.patch, true)]
    case Reviewing =>
      s.records[w.first := ReviewRequest(t.spec, t.plan, t.patch, t.test, t.implementer, w.invocation)][w.second := Review(w.first, true)]
    case _ => s.records[w.first := Receipt(id, t.actionRequest, t.approval, true)]
  }

  /** The body is entered on slot `k`, as `OpenedShape` says. */
  predicate OpenAt(s: State, e: State, k: Key, id: Id) {
    && e.task == s.task.(active := Some(id), invocation := e.task.invocation)
    && e.running == Some(Running(k, id, true, None))
    && e.records == s.records && e.approvals == s.approvals && e.effects == s.effects
    && StageOf(s.task.phase) == Some(k.stage)
  }

  predicate OpenFor(s: State, e: State, k: Key, id: Id) {
    OpenAt(s, e, k, id) && (Consults(k.stage) ==> e.task.invocation == None)
  }

  lemma ModelBody(s: State, w: Outside, e: State, k: Key, id: Id)
    requires OpenFor(s, e, k, id) && w.answer == Good
    requires w.first !in s.records && w.second !in s.records && w.first != w.second
    requires s.task.phase in {Planning, Implementing, Testing, Reviewing}
    requires s.task.phase == Reviewing ==> Some(w.invocation) != s.task.implementer
    ensures Enabled(e, BodyOf(e, w))
    ensures Apply(e, BodyOf(e, w)) == e.(running := Some(Running(k, id, true, Some(GoodResult(s.task.phase, w)))), records := GoodRecords(s, w, id))
  {
    assert BodyOf(e, w) ==
      match s.task.phase
      case Planning => PlanBody(w.first)
      case Implementing => PatchBody(w.first, w.invocation)
      case Testing => TestBody(w.first, true)
      case _ => ReviewBody(w.first, w.second, true, w.invocation);
    hide BodyOf;
  }

  lemma EffectBodyDone(s: State, w: Outside, e: State, k: Key, id: Id)
    requires OpenFor(s, e, k, id) && w.answer == Good
    requires w.first !in s.records && s.task.phase == ReadyForPr
    requires id !in s.effects && Approved(e, e.task, ActionKind, w.later)
    ensures Enabled(e, BodyOf(e, w))
    ensures Apply(e, BodyOf(e, w)) ==
            e.(running := Some(Running(k, id, true, Some(GoodResult(s.task.phase, w)))), records := GoodRecords(s, w, id),
               effects := s.effects[id := w.first])
  {
    assert BodyOf(e, w) == EffectBody(w.first, false, w.later);
    hide BodyOf, Approved;
  }

  lemma EffectIsFirst(s: State, w: Outside, e: State, k: Key, id: Id)
    requires Unhindered(s, w) && s.task.phase == ReadyForPr && OpenFor(s, e, k, id)
    requires CurrentKey(s.task) == Some(k) && Admitted(s, w.now) && id == OperationId(s, w)
    ensures id !in s.effects && Approved(e, e.task, ActionKind, w.later)
  {
    BindsFrame(s.records, s.approvals, s.task, s.records, s.approvals, e.task, ActionKind);
    hide EvidenceOk, OpsOk, ResultsOk, InvokedOk;
  }

  // ---- How the body ends ----

  /** The operation in slot `k` is done with result `r`; what the task names as active is all that changed of it. */
  predicate DoneWith(s: State, o: State, k: Key, r: Result) {
    && o.running == None
    && o.operations.Keys == s.operations.Keys + {k}
    && k in o.operations && o.operations[k].result == Some(r)
    && (forall j :: j in s.operations && j != k ==> o.operations[j] == s.operations[j])
    && SameStage(s.task, o.task)
    && o.approvals == s.approvals
  }

  lemma FinishDone(e: State)
    requires e.running.Some? && e.running.value.result.Some? && e.running.value.key in e.operations
    ensures Enabled(e, FinishOperation) && Apply(e, FinishOperation) == Finished(e, e.running.value.result.value)
  {
  }

  /** A good answer: its records are stored, and the slot is done with its result. */
  lemma GoodEnds(s: State, w: Outside, e: State, k: Key, id: Id)
    requires OpenFor(s, e, k, id) && w.answer == Good && Heard(s.task.phase, w)
    requires e.operations == s.operations[k := Op(id, None)]
    requires w.first !in s.records && w.second !in s.records && w.first != w.second && Working(s.task.phase)
    requires s.task.phase == Reviewing ==> Some(w.invocation) != s.task.implementer
    requires s.task.phase == ReadyForPr ==> id !in s.effects && Approved(e, e.task, ActionKind, w.later)
    ensures var o := Ended(e, w);
            DoneWith(s, o, k, GoodResult(s.task.phase, w)) && o.records == GoodRecords(s, w, id) && o.operations[k].id == id
  {
    if s.task.phase == ReadyForPr { EffectBodyDone(s, w, e, k, id); } else { ModelBody(s, w, e, k, id); }
    var b := BodyOf(e, w);
    assert !Silent(e, w);
    hide Enabled, Apply, GoodRecords, BodyOf, OpenFor, OpenAt, Approved;
    FinishDone(Apply(e, b));
  }

  /** Whether a result is what the stage hoped for. */
  predicate Favours(p: Phase, records: Records, r: Result) {
    match p
    case Planning => r.PlanMade?
    case Implementing => r.Patched?
    case Testing => r.Tested? && !r.failed
    case Reviewing => r.Reviewed? && At(records, Some(r.review)).Some? && At(records, Some(r.review)).value.Review? && At(records, Some(r.review)).value.accept
    case _ => r.Acted? && !r.failed
  }

  lemma FailureDisfavours(p: Phase, records: Records)
    ensures !Favours(p, records, Failure)
  {
  }

  lemma FailureEnds(e: State, lost: bool)
    requires e.running.Some? && e.running.value.entered && e.running.value.key in e.operations
    ensures lost && Enabled(e, Uncertain) ==> Unfinished(e, lost).task.phase == Blocked
    ensures !(lost && Enabled(e, Uncertain)) ==> Unfinished(e, lost) == Finished(e, Failure)
  {
  }

  lemma UncertainIff(e: State)
    ensures Enabled(e, Uncertain) <==> InBody(e) && e.running.value.key.stage in {ImplementationStage, TestsStage}
  {
  }

  /** What a body `b` that ran on a bad answer leaves: no result that the stage hoped for. */
  ghost predicate RanBadly(e: State, w: Outside, p: Phase, b: Action)
    requires Enabled(e, b) && e.running.Some?
  {
    var d := Apply(e, b);
    && d.running.Some? && d.running.value == e.running.value.(result := d.running.value.result) && d.running.value.result.Some?
    && d.operations == e.operations && d.task == e.task && d.approvals == e.approvals
    && Grows(e.records, d.records) && d.records.Keys <= e.records.Keys + {w.first, w.second}
    && !Favours(p, d.records, d.running.value.result.value)
  }

  lemma RunsFailed(e: State, w: Outside, p: Phase)
    requires InBody(e)
    ensures Enabled(e, FailedBody) && RanBadly(e, w, p, FailedBody)
  {
  }

  lemma RunsTestBadly(e: State, w: Outside)
    requires InBody(e) && Enabled(e, TestBody(w.first, false))
    ensures RanBadly(e, w, Testing, TestBody(w.first, false))
  {
  }

  lemma RunsReviewBadly(e: State, w: Outside)
    requires InBody(e) && Enabled(e, ReviewBody(w.first, w.second, false, w.invocation))
    ensures RanBadly(e, w, Reviewing, ReviewBody(w.first, w.second, false, w.invocation))
  {
  }

  lemma RunsEffectBadly(e: State, w: Outside)
    requires InBody(e) && Enabled(e, EffectBody(w.first, true, w.later))
    ensures RanBadly(e, w, ReadyForPr, EffectBody(w.first, true, w.later))
  {
    hide Approved;
  }

  lemma BadBody(e: State, w: Outside, p: Phase)
    requires InBody(e) && w.answer != Good && w.first != w.second
    requires StageOf(p) == Some(e.running.value.key.stage)
    ensures Enabled(e, BodyOf(e, w)) ==> RanBadly(e, w, p, BodyOf(e, w))
  {
    hide Enabled, Apply, RanBadly;
    match p {
      case Testing => if Enabled(e, TestBody(w.first, false)) { RunsTestBadly(e, w); }
      case Reviewing => if Enabled(e, ReviewBody(w.first, w.second, false, w.invocation)) { RunsReviewBadly(e, w); }
      case ReadyForPr => if Enabled(e, EffectBody(w.first, true, w.later)) { RunsEffectBadly(e, w); }
      case _ => RunsFailed(e, w, p);
    }
  }

  /** The slot is done without what the stage hoped for, and only the body's own records are new. */
  ghost predicate Disfavoured(s: State, w: Outside, o: State, k: Key) {
    && (exists r :: DoneWith(s, o, k, r) && !Favours(s.task.phase, o.records, r))
    && Grows(s.records, o.records) && o.records.Keys <= s.records.Keys + {w.first, w.second}
  }

  lemma FinishedOther(s: State, w: Outside, e: State, k: Key, id: Id)
    requires OpenAt(s, e, k, id) && e.operations == s.operations[k := Op(id, None)]
    requires w.answer != Good && !Silent(e, w) && w.first != w.second
    ensures Disfavoured(s, w, Finished'(e, BodyOf(e, w)), k)
  {
    BadBody(e, w, s.task.phase);
    FailureEnds(e, false);
    var b := BodyOf(e, w);
    hide BodyOf, Favours, Enabled, Apply;
    if Enabled(e, b) {
      FinishDone(Apply(e, b));
      assert DoneWith(s, Finished'(e, b), k, Apply(e, b).running.value.result.value);
    } else {
      FailureDisfavours(s.task.phase, e.records);
      assert DoneWith(s, Finished'(e, b), k, Failure);
    }
  }

  lemma FailedOther(s: State, w: Outside, e: State, k: Key, id: Id)
    requires OpenAt(s, e, k, id) && e.operations == s.operations[k := Op(id, None)]
    ensures Disfavoured(s, w, Finished(e, Failure), k)
  {
    FailureDisfavours(s.task.phase, e.records);
    hide Favours;
    assert DoneWith(s, Finished(e, Failure), k, Failure);
  }

  /** Any other answer: the task is blocked if a worker may still be running, and else the slot is done without what
      the stage hoped for. */
  lemma OtherEnds(s: State, w: Outside, e: State, k: Key, id: Id)
    requires OpenAt(s, e, k, id) && !(w.answer == Good && Heard(s.task.phase, w))
    requires e.operations == s.operations[k := Op(id, None)]
    requires w.first != w.second && Working(s.task.phase)
    ensures var o := Ended(e, w);
            if w.answer == Lost && Heard(s.task.phase, w) && s.task.phase in {Implementing, Testing} then o.task.phase == Blocked
            else Disfavoured(s, w, o, k)
  {
    assert Silent(e, w) <==> !Heard(s.task.phase, w);
    UncertainIff(e);
    FailureEnds(e, w.answer == Lost && !Silent(e, w));
    FailedOther(s, w, e, k, id);
    if w.answer != Good && !Silent(e, w) { FinishedOther(s, w, e, k, id); }
    hide Enabled, Apply, BodyOf, Favours, Disfavoured, Finished', Unfinished, Finished;
  }

  // ---- The conclusion ----

  lemma StaysLive(s: State, o: State, t: Task, now: Time)
    requires Approved(s, s.task, PlanKind, now) && Grows(s.records, o.records) && o.approvals == s.approvals
    requires t.spec == s.task.spec && t.plan == s.task.plan && t.planRequest == s.task.planRequest && t.planApproval == s.task.planApproval
    ensures Approved(o, t, PlanKind, now)
  {
    BindsFrame(s.records, s.approvals, s.task, o.records, o.approvals, t, PlanKind);
  }

  /** What a conclusion leaves, whichever way it leads. */
  ghost predicate Concludes(o: State, a: Action, s': State)
    requires a.Conclude?
  {
    && s'.running == None && s'.operations == o.operations && s'.approvals == o.approvals
    && Grows(o.records, s'.records) && s'.records.Keys <= o.records.Keys + {a.first, a.second}
    && s'.task.attempt == o.task.attempt && s'.task.spec == o.task.spec
    && (o.task.phase != Planning ==>
          && s'.task.plan == o.task.plan && s'.task.planRequest == o.task.planRequest && s'.task.planApproval == o.task.planApproval)
  }

  lemma BackShape(o: State, r: Result, first: Id, second: Id, op: Id, expires: Time)
    requires Working(o.task.phase) && !Favours(o.task.phase, o.records, r)
    ensures var (m, p) := Concluding(o, r, first, second, op, expires);
            && p == Back(o.task.phase)
            && m == o.(task := o.task.(test := m.task.test, review := m.task.review, external := m.task.external))
  {
  }

  lemma MovesBack(m: State, now: Time)
    requires Working(m.task.phase)
    ensures CanMove(m, m.task, Back(m.task.phase), now)
  {
    hide Approved, PassingTest, AcceptingReview, SucceededReceipt;
  }

  /** A result the stage did not hope for can always be concluded. */
  lemma BackConcludes(o: State, a: Action)
    requires a.Conclude? && Current(o) && CurrentOp(o).result.Some? && Working(o.task.phase)
    requires a.first !in o.records && a.second !in o.records && a.first != a.second
    requires !Favours(o.task.phase, o.records, CurrentOp(o).result.value)
    ensures Enabled(o, a) && Apply(o, a).task.phase == Back(o.task.phase) && Concludes(o, a, Apply(o, a))
  {
    var r := CurrentOp(o).result.value;
    BackShape(o, r, a.first, a.second, a.op, a.expires);
    MovesBack(Concluding(o, r, a.first, a.second, a.op, a.expires).0, a.now);
    hide CanMove, Concluding, Favours, Back;
  }

  lemma PlanConcludes(o: State, a: Action, plan: Id)
    requires a.Conclude? && Current(o) && o.task.phase == Planning && CurrentOp(o).result == Some(PlanMade(plan))
    requires a.first !in o.records && a.second !in o.records && a.first != a.second
    ensures Enabled(o, a) && Apply(o, a).task.phase == AwaitingPlanApproval && Concludes(o, a, Apply(o, a))
    ensures Apply(o, a).task.plan == Some(plan) && Apply(o, a).task.pending == Some(a.first)
  {
  }

  lemma PatchConcludes(o: State, a: Action, patch: Id, implementer: Id)
    requires a.Conclude? && Current(o) && o.task.phase == Implementing && CurrentOp(o).result == Some(Patched(patch, implementer))
    requires a.first !in o.records && a.second !in o.records && a.first != a.second
    requires At(o.records, Some(patch)).Some? && At(o.records, Some(patch)).value.Patch? && Approved(o, o.task, PlanKind, a.now)
    ensures Enabled(o, a) && Apply(o, a).task.phase == Testing && Concludes(o, a, Apply(o, a))
    ensures Apply(o, a).task.patch == Some(patch) && Apply(o, a).task.implementer == Some(implementer)
  {
    StaysLive(o, o, o.task.(patch := Some(patch), implementer := Some(implementer)), a.now);
    hide Binds;
  }

  lemma TestConcludes(o: State, a: Action, test: Id)
    requires a.Conclude? && Current(o) && o.task.phase == Testing && CurrentOp(o).result == Some(Tested(test, false))
    requires a.first !in o.records && a.second !in o.records && a.first != a.second
    requires At(o.records, Some(test)) == Some(Test(o.task.patch, true)) && Approved(o, o.task, PlanKind, a.now)
    ensures Enabled(o, a) && Apply(o, a).task.phase == Reviewing && Concludes(o, a, Apply(o, a))
    ensures Apply(o, a).task.test == Some(test) && Apply(o, a).task.patch == o.task.patch && Apply(o, a).task.implementer == o.task.implementer
  {
    StaysLive(o, o, o.task.(test := Some(test)), a.now);
    hide Binds;
  }

  lemma ReviewConcludes(o: State, a: Action, review: Id, request: Id)
    requires a.Conclude? && Current(o) && o.task.phase == Reviewing && CurrentOp(o).result == Some(Reviewed(review))
    requires a.first !in o.records && a.second !in o.records && a.first != a.second
    requires At(o.records, Some(review)) == Some(Review(request, true))
    requires At(o.records, Some(request)).Some? && At(o.records, Some(request)).value.ReviewRequest?
    requires At(o.records, Some(request)).value.patch == o.task.patch && At(o.records, Some(request)).value.test == o.task.test
    requires PassingTest(o.records, o.task) && Approved(o, o.task, PlanKind, a.now)
    ensures Enabled(o, a) && Apply(o, a).task.phase == AwaitingActionApproval && Concludes(o, a, Apply(o, a))
    ensures Apply(o, a).task.review == Some(review) && Apply(o, a).task.actionRequest == Some(a.first) && Apply(o, a).task.pending == Some(a.second)
  {
    var m := Accepting(o, review, a.first, a.second, a.op, a.expires);
    assert Concluding(o, Reviewed(review), a.first, a.second, a.op, a.expires) == (m, AwaitingActionApproval);
    AcceptingFields(o, review, a.first, a.second, a.op, a.expires);
    AcceptingLeaves(o, review, a.first, a.second, a.op, a.expires);
    StaysLive(o, m, m.task, a.now);
    AcceptedHere(o, m, review, request);
    hide Concluding, Accepting, Binds, Approved, PassingTest, AcceptingReview;
    assert CanMove(m, m.task, AwaitingActionApproval, a.now);
    hide CanMove, Concludes;
    ConcludedIs(o, a, m, AwaitingActionApproval);
    ConcludesOver(o, a, m, AwaitingActionApproval);
  }

  lemma ConcludedIs(o: State, a: Action, m: State, p: Phase)
    requires a.Conclude? && Current(o) && CurrentOp(o).result.Some?
    requires a.first !in o.records && a.second !in o.records && a.first != a.second
    requires Concluding(o, CurrentOp(o).result.value, a.first, a.second, a.op, a.expires) == (m, p) && CanMove(m, m.task, p, a.now)
    ensures Enabled(o, a) && Apply(o, a) == m.(task := Moved(m.task, p))
  {
    hide Concluding, CanMove;
  }

  lemma ConcludesOver(o: State, a: Action, m: State, p: Phase)
    requires a.Conclude? && o.running == None && m.running == None && m.operations == o.operations && m.approvals == o.approvals
    requires Grows(o.records, m.records) && m.records.Keys <= o.records.Keys + {a.first, a.second}
    requires m.task.attempt == o.task.attempt && m.task.spec == o.task.spec && m.task.plan == o.task.plan
    requires m.task.planRequest == o.task.planRequest && m.task.planApproval == o.task.planApproval
    ensures Concludes(o, a, m.(task := Moved(m.task, p)))
  {
  }

  lemma AcceptedHere(o: State, m: State, review: Id, request: Id)
    requires Grows(o.records, m.records) && SameWork(o.task, m.task) && m.task.review == Some(review)
    requires At(o.records, Some(review)) == Some(Review(request, true))
    requires At(o.records, Some(request)).Some? && At(o.records, Some(request)).value.ReviewRequest?
    requires At(o.records, Some(request)).value.patch == o.task.patch && At(o.records, Some(request)).value.test == o.task.test
    requires PassingTest(o.records, o.task)
    ensures PassingTest(m.records, m.task) && AcceptingReview(m.records, m.task)
  {
  }

  lemma AcceptingLeaves(o: State, review: Id, first: Id, second: Id, op: Id, expires: Time)
    ensures var m := Accepting(o, review, first, second, op, expires);
            && m.running == o.running && m.operations == o.operations && m.records.Keys == o.records.Keys + {first, second}
            && m.task.planRequest == o.task.planRequest && m.task.planApproval == o.task.planApproval
            && m.task.phase == o.task.phase && m.task.resume == o.task.resume
            && m.task.actionRequest == Some(first) && m.task.pending == Some(second)
  {
  }

  lemma ActionConcludes(o: State, a: Action, receipt: Id)
    requires a.Conclude? && Current(o) && o.task.phase == ReadyForPr && CurrentOp(o).result == Some(Acted(receipt, false))
    requires a.first !in o.records && a.second !in o.records && a.first != a.second
    requires SucceededReceipt(o.records, Some(receipt)) && PassingTest(o.records, o.task) && AcceptingReview(o.records, o.task)
    requires Approved(o, o.task, ActionKind, a.now)
    ensures Enabled(o, a) && Apply(o, a).task.phase == PrCreated && Concludes(o, a, Apply(o, a))
    ensures Apply(o, a).task.external == Some(receipt)
  {
    var m := o.(task := o.task.(external := Some(receipt)));
    ActionMoves(o, m, a.now);
    assert Concluding(o, Acted(receipt, false), a.first, a.second, a.op, a.expires) == (m, PrCreated);
    hide CanMove, Concluding, Concludes, Approved;
    ConcludedIs(o, a, m, PrCreated);
    ConcludesOver(o, a, m, PrCreated);
  }

  lemma ActionMoves(o: State, m: State, now: Time)
    requires o.task.phase == ReadyForPr && m == o.(task := o.task.(external := m.task.external))
    requires SucceededReceipt(o.records, m.task.external) && PassingTest(o.records, o.task) && AcceptingReview(o.records, o.task)
    requires Approved(o, o.task, ActionKind, now)
    ensures CanMove(m, m.task, PrCreated, now)
  {
    BindsFrame(o.records, o.approvals, o.task, o.records, o.approvals, m.task, ActionKind);
    hide Binds, SucceededReceipt;
  }

  // ---- The conclusion of a good answer ----

  function ConcludeOf(w: Outside): Action { Conclude(w.third, w.fourth, w.action, w.expires, w.later) }

  lemma FoundDone(s: State, o: State, k: Key, r: Result)
    requires CurrentKey(s.task) == Some(k) && DoneWith(s, o, k, r)
    ensures Current(o) && CurrentOp(o).result == Some(r)
  {
  }

  /** The evidence that the conclusion of each stage asks for. */
  lemma EvidenceHere(s: State)
    requires Inv(s) && Working(s.task.phase)
    ensures s.task.phase == Reviewing || s.task.phase == ReadyForPr ==> PassingTest(s.records, s.task)
    ensures s.task.phase == ReadyForPr ==> AcceptingReview(s.records, s.task)
  {
    assert Effective(s.task) == s.task.phase;
    hide Binds, BoundReview, BoundAction;
  }

  lemma EvidenceLater(s: State, o: State)
    requires Grows(s.records, o.records) && SameStage(s.task, o.task)
    ensures PassingTest(s.records, s.task) ==> PassingTest(o.records, o.task)
    ensures AcceptingReview(s.records, s.task) ==> AcceptingReview(o.records, o.task)
  {
  }

  lemma GoodGrows(s: State, w: Outside, id: Id)
    requires w.first !in s.records && w.second !in s.records && w.first != w.second
    ensures Grows(s.records, GoodRecords(s, w, id)) && GoodRecords(s, w, id).Keys <= s.records.Keys + {w.first, w.second}
  {
  }

  /** The stage's operation is done with a good result. */
  predicate GoodDone(s: State, w: Outside, o: State, k: Key, id: Id) {
    && CurrentKey(s.task) == Some(k) && Fresh(s, w)
    && DoneWith(s, o, k, GoodResult(s.task.phase, w)) && o.records == GoodRecords(s, w, id)
  }

  lemma GoodWork(s: State, w: Outside, o: State, k: Key, id: Id)
    requires GoodDone(s, w, o, k, id) && s.task.phase in {Planning, Implementing, Testing}
    requires s.task.phase != Planning ==> Approved(s, s.task, PlanKind, w.later)
    ensures Enabled(o, ConcludeOf(w)) && Apply(o, ConcludeOf(w)).task.phase == Forward(s.task.phase)
    ensures Concludes(o, ConcludeOf(w), Apply(o, ConcludeOf(w)))
    ensures s.task.phase == Implementing ==> Apply(o, ConcludeOf(w)).task.implementer == Some(w.invocation)
    ensures s.task.phase == Testing ==> Apply(o, ConcludeOf(w)).task.implementer == s.task.implementer
  {
    FoundDone(s, o, k, GoodResult(s.task.phase, w));
    GoodGrows(s, w, id);
    hide Enabled, Apply, Concludes, Current, CurrentOp, Approved;
    if s.task.phase == Planning {
      PlanConcludes(o, ConcludeOf(w), w.first);
    } else {
      StaysLive(s, o, o.task, w.later);
      if s.task.phase == Implementing {
        PatchConcludes(o, ConcludeOf(w), w.first, w.invocation);
      } else {
        TestConcludes(o, ConcludeOf(w), w.first);
      }
    }
  }

  lemma GoodReview(s: State, w: Outside, o: State, k: Key, id: Id)
    requires GoodDone(s, w, o, k, id) && s.task.phase == Reviewing
    requires Approved(s, s.task, PlanKind, w.later) && PassingTest(s.records, s.task)
    ensures Enabled(o, ConcludeOf(w)) && Apply(o, ConcludeOf(w)).task.phase == AwaitingActionApproval
    ensures Concludes(o, ConcludeOf(w), Apply(o, ConcludeOf(w)))
  {
    FoundDone(s, o, k, GoodResult(s.task.phase, w));
    GoodGrows(s, w, id);
    EvidenceLater(s, o);
    StaysLive(s, o, o.task, w.later);
    hide Enabled, Apply, Concludes, Current, CurrentOp, Approved, PassingTest;
    ReviewConcludes(o, ConcludeOf(w), w.second, w.first);
  }

  lemma GoodAction(s: State, w: Outside, o: State, k: Key, id: Id)
    requires GoodDone(s, w, o, k, id) && s.task.phase == ReadyForPr
    requires Approved(s, s.task, ActionKind, w.later) && PassingTest(s.records, s.task) && AcceptingReview(s.records, s.task)
    ensures Enabled(o, ConcludeOf(w)) && Apply(o, ConcludeOf(w)).task.phase == PrCreated
    ensures Concludes(o, ConcludeOf(w), Apply(o, ConcludeOf(w)))
  {
    FoundDone(s, o, k, GoodResult(s.task.phase, w));
    GoodGrows(s, w, id);
    EvidenceLater(s, o);
    BindsFrame(s.records, s.approvals, s.task, o.records, o.approvals, o.task, ActionKind);
    assert Approved(o, o.task, ActionKind, w.later);
    hide Enabled, Apply, Concludes, Current, CurrentOp, Approved, PassingTest, AcceptingReview;
    ActionConcludes(o, ConcludeOf(w), w.first);
  }

  // ---- A whole call ----

  function Ids(w: Outside): set<Id> { {w.first, w.second, w.third, w.fourth} }

  /** What the next call finds beside the phase. */
  ghost predicate Carries(s: State, w: Outside, s': State) {
    && s'.running == None && s'.approvals == s.approvals
    && Grows(s.records, s'.records) && s'.records.Keys <= s.records.Keys + Ids(w)
    && (forall k :: k in s'.operations && k !in s.operations ==>
          CurrentKey(s.task) == Some(k) && (s.task.phase != ReadyForPr ==> s'.operations[k].id == w.operation))
    && (forall k :: k in s.operations ==> k in s'.operations && s'.operations[k] == s.operations[k])
    && (s.task.phase !in {Planning, ReadyForPr} ==>
          && s'.task.spec == s.task.spec && s'.task.plan == s.task.plan
          && s'.task.planRequest == s.task.planRequest && s'.task.planApproval == s.task.planApproval)
  }

  lemma CallIs(s: State, w: Outside)
    requires Unhindered(s, w) && Working(s.task.phase)
    requires CurrentKey(s.task).Some? && CurrentKey(s.task).value !in s.operations
    requires Admitted(s, w.now) && Enabled(s, StartOperation(OperationId(s, w), w.now))
    ensures var o := Ended(Opened(s, w), w);
            Advanced(s, w) == if o.task.phase == Blocked then (o, true) else Try(o, ConcludeOf(w))
  {
    hide Enabled, Apply, Inv, Admitted, Asked, Ended, CurrentKey;
  }

  lemma CarriesOn(s: State, w: Outside, o: State, k: Key, id: Id, r: Result, s': State)
    requires CurrentKey(s.task) == Some(k) && k !in s.operations && DoneWith(s, o, k, r)
    requires s.task.phase != ReadyForPr ==> o.operations[k].id == w.operation
    requires Grows(s.records, o.records) && o.records.Keys <= s.records.Keys + {w.first, w.second}
    requires Concludes(o, ConcludeOf(w), s')
    ensures Carries(s, w, s')
  {
  }

  lemma GoodOperation(s: State, w: Outside)
    requires Unhindered(s, w) && Working(s.task.phase) && w.answer == Good && Heard(s.task.phase, w)
    requires CurrentKey(s.task).Some? && CurrentKey(s.task).value !in s.operations
    requires StageOf(s.task.phase) == Some(CurrentKey(s.task).value.stage)
    requires Admitted(s, w.now) && Enabled(s, StartOperation(OperationId(s, w), w.now))
    ensures var k, id, o := CurrentKey(s.task).value, OperationId(s, w), Ended(Opened(s, w), w);
            GoodDone(s, w, o, k, id) && o.operations[k].id == id
  {
    OpenedShape(s, w);
    var k, id, e := CurrentKey(s.task).value, OperationId(s, w), Opened(s, w);
    assert OpenFor(s, e, k, id);
    if s.task.phase == ReadyForPr { EffectIsFirst(s, w, e, k, id); }
    hide Enabled, Apply, Opened, Admitted, Inv, CurrentKey, OperationId, OpenFor, OpenAt, GoodRecords, Ended, Approved, DoneWith;
    GoodEnds(s, w, e, k, id);
  }

  lemma GoodConcludes(s: State, w: Outside, o: State, k: Key, id: Id)
    requires Unhindered(s, w) && Working(s.task.phase) && GoodDone(s, w, o, k, id)
    ensures Enabled(o, ConcludeOf(w)) && Apply(o, ConcludeOf(w)).task.phase == Forward(s.task.phase)
    ensures Concludes(o, ConcludeOf(w), Apply(o, ConcludeOf(w)))
    ensures s.task.phase == Implementing ==> Apply(o, ConcludeOf(w)).task.implementer == Some(w.invocation)
    ensures s.task.phase == Testing ==> Apply(o, ConcludeOf(w)).task.implementer == s.task.implementer
  {
    EvidenceHere(s);
    hide Enabled, Apply, Inv, PassingTest, AcceptingReview, Approved, GoodDone, Concludes;
    if s.task.phase == Reviewing { GoodReview(s, w, o, k, id); }
    else if s.task.phase == ReadyForPr { GoodAction(s, w, o, k, id); }
    else { GoodWork(s, w, o, k, id); }
  }

  /** A good answer moves the task on. */
  lemma GoodCall(s: State, w: Outside)
    requires Unhindered(s, w) && Working(s.task.phase) && w.answer == Good && Heard(s.task.phase, w)
    ensures Advanced(s, w).1 && Advanced(s, w).0.task.phase == Forward(s.task.phase)
    ensures Carries(s, w, Advanced(s, w).0) && Advanced(s, w).0.task.attempt == s.task.attempt
    ensures s.task.phase == Implementing ==> Advanced(s, w).0.task.implementer == Some(w.invocation)
    ensures s.task.phase == Testing ==> Advanced(s, w).0.task.implementer == s.task.implementer
  {
    AdmittedNow(s, w);
    CallIs(s, w);
    var k, id := CurrentKey(s.task).value, OperationId(s, w);
    assert s.task.phase != ReadyForPr ==> id == w.operation;
    GoodOperation(s, w);
    var o := Ended(Opened(s, w), w);
    hide Enabled, Apply, Advanced, Opened, Admitted, Inv, CurrentKey, OperationId, GoodRecords, Ended, Approved, Unhindered;
    GoodConcludes(s, w, o, k, id);
    GoodGrows(s, w, id);
    CarriesOn(s, w, o, k, id, GoodResult(s.task.phase, w), Apply(o, ConcludeOf(w)));
  }

  /** Any other answer sends it back, or blocks it while a worker may still be running. */
  lemma OtherCall(s: State, w: Outside)
    requires Unhindered(s, w) && Working(s.task.phase) && !(w.answer == Good && Heard(s.task.phase, w))
    ensures Advanced(s, w).1 && Advanced(s, w).0.task.phase == After(s.task, w)
  {
    AdmittedNow(s, w);
    OpenedShape(s, w);
    CallIs(s, w);
    var k, id, e := CurrentKey(s.task).value, OperationId(s, w), Opened(s, w);
    hide Enabled, Apply, Advanced, Opened, Admitted, Inv, CurrentKey, OperationId, Ended, Favours;
    OtherEnds(s, w, e, k, id);
    var o := Ended(e, w);
    if o.task.phase != Blocked {
      var r :| DoneWith(s, o, k, r) && !Favours(s.task.phase, o.records, r);
      FoundDone(s, o, k, r);
      BackConcludes(o, ConcludeOf(w));
    }
  }

  lemma PlainMove(s: State, w: Outside)
    requires s.running == None && s.task.phase in {SpecReady, ChangesRequested, PrCreated}
    requires s.task.phase == ChangesRequested ==> Approved(s, s.task, PlanKind, w.now)
    requires s.task.phase == PrCreated ==> SucceededReceipt(s.records, s.task.external)
    ensures var a := if s.task.phase == SpecReady then BeginPlanning else if s.task.phase == PrCreated then EngineSteps.Complete else SettleChanges(w.now);
            Enabled(s, a) && Apply(s, a) == s.(task := Moved(s.task, After(s.task, w)))
  {
    hide Approved, SucceededReceipt;
  }

  lemma BeginMove(s: State, w: Outside)
    requires s.running == None && s.task.phase == ReadyForImplementation && w.first !in s.records && Approved(s, s.task, PlanKind, w.now)
    ensures var a := BeginAttempt(w.first, w.now);
            && Enabled(s, a)
            && Apply(s, a) == s.(task := BegunAttempt(s.task, w.first),
                                 records := s.records[w.first := WorkOrder(s.task.spec, s.task.plan, s.task.attempt + 1)])
  {
    hide Approved;
  }

  lemma ReceiptHere(s: State)
    requires EffectsOk(s) && s.task.phase == PrCreated
    ensures SucceededReceipt(s.records, s.task.external)
  {
  }

  function MoveOf(s: State, w: Outside): Action {
    match s.task.phase
    case SpecReady => BeginPlanning
    case PrCreated => EngineSteps.Complete
    case ReadyForImplementation => BeginAttempt(w.first, w.now)
    case _ => SettleChanges(w.now)
  }

  predicate Moves(p: Phase) { p in {SpecReady, ReadyForImplementation, ChangesRequested, PrCreated} }

  lemma MoveIs(s: State, w: Outside)
    requires s.running == None && Fresh(s, w) && Moves(s.task.phase) && Enabled(s, MoveOf(s, w))
    ensures Advanced(s, w) == (Apply(s, MoveOf(s, w)), true)
  {
    hide Enabled, Apply, Operated, Admitted;
  }

  lemma MoveNow(s: State, w: Outside)
    requires Unhindered(s, w) && Moves(s.task.phase)
    ensures s.task.phase in {ReadyForImplementation, ChangesRequested} ==> Approved(s, s.task, PlanKind, w.now)
    ensures s.task.phase == PrCreated ==> SucceededReceipt(s.records, s.task.external)
    ensures s.running == None && Fresh(s, w)
  {
    if s.task.phase == PrCreated { ReceiptHere(s); }
    hide EvidenceOk, OpsOk, ResultsOk, RunningOk, InvokedOk, EffectsOk, SucceededReceipt, Binds;
  }

  /** The calls that run nothing. */
  lemma MoveCall(s: State, w: Outside)
    requires Unhindered(s, w) && Moves(s.task.phase)
    ensures Advanced(s, w).1 && Advanced(s, w).0.task.phase == After(s.task, w)
    ensures Carries(s, w, Advanced(s, w).0) && Advanced(s, w).0.operations == s.operations
    ensures Advanced(s, w).0.task.attempt == if s.task.phase == ReadyForImplementation then s.task.attempt + 1 else s.task.attempt
  {
    MoveNow(s, w);
    hide *;
    MoveLeads(s, w);
    MoveIs(s, w);
  }

  lemma MoveLeads(s: State, w: Outside)
    requires s.running == None && Fresh(s, w) && Moves(s.task.phase)
    requires s.task.phase in {ReadyForImplementation, ChangesRequested} ==> Approved(s, s.task, PlanKind, w.now)
    requires s.task.phase == PrCreated ==> SucceededReceipt(s.records, s.task.external)
    ensures Enabled(s, MoveOf(s, w))
    ensures var s' := Apply(s, MoveOf(s, w));
            && s'.task.phase == After(s.task, w) && Carries(s, w, s') && s'.operations == s.operations
            && s'.task.attempt == if s.task.phase == ReadyForImplementation then s.task.attempt + 1 else s.task.attempt
  {
    hide Approved, SucceededReceipt, Enabled, Apply, Carries;
    if s.task.phase == ReadyForImplementation { BeginMove(s, w); } else { PlainMove(s, w); }
    CarriesMove(s, w, Apply(s, MoveOf(s, w)), WorkOrder(s.task.spec, s.task.plan, s.task.attempt + 1));
  }

  lemma CarriesMove(s: State, w: Outside, s': State, r: Record)
    requires s.running == None && w.first !in s.records && s' == s.(task := s'.task, records := s'.records)
    requires s'.records == s.records || s'.records == s.records[w.first := r]
    requires s'.task.spec == s.task.spec && s'.task.plan == s.task.plan
    requires s'.task.planRequest == s.task.planRequest && s'.task.planApproval == s.task.planApproval
    ensures Carries(s, w, s')
  {
  }

  /** Where a call leads: the phase is determined by the answer. */
  lemma CallGoes(s: State, w: Outside)
    requires Unhindered(s, w) && !Paused(s.task.phase) && !Drafting(s.task.phase)
    ensures Advanced(s, w).1 && Advanced(s, w).0.task.phase == After(s.task, w)
  {
    if Moves(s.task.phase) {
      MoveCall(s, w);
    } else if w.answer == Good && Heard(s.task.phase, w) {
      GoodCall(s, w);
    } else {
      OtherCall(s, w);
    }
  }

  // ---- A call that finds its operation done ----

  /** The slot of the stage is done, and its result has been taken up: what the stage hoped for moves the task on and is
      its new evidence, and anything else sends it back. */
  predicate TakenUp(s: State, s': State) {
    && CurrentKey(s.task).Some? && CurrentKey(s.task).value in s'.operations
    && s'.operations[CurrentKey(s.task).value].result.Some?
    && var r := s'.operations[CurrentKey(s.task).value].result.value;
       if Favours(s.task.phase, s'.records, r) then s'.task.phase == Forward(s.task.phase) && Holds(s.task.phase, s'.task, r)
       else s'.task.phase == Back(s.task.phase)
  }

  predicate Holds(p: Phase, t: Task, r: Result) {
    match p
    case Planning => r.PlanMade? && t.plan == Some(r.plan)
    case Implementing => r.Patched? && t.patch == Some(r.patch) && t.implementer == Some(r.implementer)
    case Testing => r.Tested? && t.test == Some(r.test)
    case Reviewing => r.Reviewed? && t.review == Some(r.review)
    case _ => r.Acted? && t.external == Some(r.receipt)
  }

  lemma ForwardShape(o: State, r: Result, first: Id, second: Id, op: Id, expires: Time)
    requires Working(o.task.phase) && Favours(o.task.phase, o.records, r) && first !in o.records && second !in o.records
    ensures var (m, p) := Concluding(o, r, first, second, op, expires);
            p == Forward(o.task.phase) && Holds(o.task.phase, m.task, r) && m.operations == o.operations && Grows(o.records, m.records)
  {
  }

  lemma ConclusionTakesUp(o: State, a: Action)
    requires a.Conclude? && Working(o.task.phase) && Enabled(o, a)
    ensures TakenUp(o, Apply(o, a))
  {
    var r := CurrentOp(o).result.value;
    var (m, p) := Concluding(o, r, a.first, a.second, a.op, a.expires);
    assert Apply(o, a) == m.(task := Moved(m.task, p));
    hide CanMove, Concluding, Apply;
    if Favours(o.task.phase, o.records, r) {
      ForwardShape(o, r, a.first, a.second, a.op, a.expires);
    } else {
      BackShape(o, r, a.first, a.second, a.op, a.expires);
    }
  }

  /** Every call that is not refused and blocks nothing takes up the result of its stage's operation, whether that was
      executed now or by an earlier call. */
  lemma CallTakesUp(s: State, w: Outside)
    requires s.running == None && Working(s.task.phase) && Advanced(s, w).1 && Advanced(s, w).0.task.phase != Blocked
    ensures TakenUp(s, Advanced(s, w).0)
  {
    StageCall(s, w);
    var o := Operated(s, w).0;
    OperatedStays(s, w);
    SameSlot(s, o);
    hide *;
    ConclusionTakesUp(o, ConcludeOf(w));
    TakenUpAt(s, o, Advanced(s, w).0);
  }

  lemma SameSlot(s: State, o: State)
    requires SameStage(s.task, o.task)
    ensures CurrentKey(o.task) == CurrentKey(s.task) && o.task.phase == s.task.phase
  {
  }

  lemma StageCall(s: State, w: Outside)
    requires s.running == None && Working(s.task.phase) && Advanced(s, w).1 && Advanced(s, w).0.task.phase != Blocked
    ensures CurrentKey(s.task).Some? && Admitted(s, w.now)
    ensures var o := Operated(s, w).0;
            o.task.phase != Blocked && Enabled(o, ConcludeOf(w)) && Advanced(s, w).0 == Apply(o, ConcludeOf(w))
  {
    hide Operated, Enabled, Apply, Admitted, Fresh, CurrentKey;
  }

  lemma TakenUpAt(s: State, o: State, s': State)
    requires TakenUp(o, s') && CurrentKey(o.task) == CurrentKey(s.task) && o.task.phase == s.task.phase
    ensures TakenUp(s, s')
  {
  }

  /** What a call makes of a slot that an earlier one left: a finished result is taken up as it is, an unfinished
      external action is finished from its committed effect, and any other unfinished operation blocks the task. */
  predicate Resumes(s: State, s': State) {
    && CurrentKey(s.task).Some? && CurrentKey(s.task).value in s.operations && CurrentKey(s.task).value in s'.operations
    && var k := CurrentKey(s.task).value;
       var was, id := s.operations[k].result, s.operations[k].id;
       if was.Some? then s'.task.phase != Blocked && s'.operations == s.operations
       else if s.task.phase == ReadyForPr && id in s.effects then
         s'.task.phase != Blocked
         && s'.operations[k].result == Some(Acted(s.effects[id], !SucceededReceipt(s.records, Some(s.effects[id]))))
       else s'.task.phase == Blocked && s'.operations == s.operations && s'.records == s.records
  }

  lemma ReconcileShape(s: State)
    requires Enabled(s, Reconcile) && CurrentKey(s.task).Some?
    ensures var k, o := CurrentKey(s.task).value, Apply(s, Reconcile);
            && k in s.operations && s.operations[k].result == None && s.task.phase == ReadyForPr && s.operations[k].id in s.effects
            && var e := s.effects[s.operations[k].id];
               o == s.(operations := s.operations[k := s.operations[k].(result := Some(Acted(e, !SucceededReceipt(s.records, Some(e)))))],
                       task := s.task.(active := None))
  {
  }

  lemma BlockShape(s: State)
    requires Enabled(s, BlockUnresolved) && CurrentKey(s.task).Some?
    ensures var k := CurrentKey(s.task).value;
            && k in s.operations && s.operations[k].result == None && (s.task.phase == ReadyForPr ==> s.operations[k].id !in s.effects)
            && Apply(s, BlockUnresolved) == s.(task := Moved(s.task, Blocked))
  {
  }

  /** What `_operation` does with a slot that is there. */
  lemma FoundOperated(s: State, w: Outside)
    requires s.running == None && CurrentKey(s.task).Some? && CurrentKey(s.task).value in s.operations && Admitted(s, w.now) && Operated(s, w).1
    ensures var o := Operated(s, w).0;
            && o.records == s.records
            && (s.operations[CurrentKey(s.task).value].result.Some? ==> o == s)
            && (s.operations[CurrentKey(s.task).value].result.None? ==>
                  (Enabled(s, Reconcile) && o == Apply(s, Reconcile)) || (Enabled(s, BlockUnresolved) && o == Apply(s, BlockUnresolved)))
  {
    if Enabled(s, Reconcile) { ReconcileShape(s); }
    if Enabled(s, BlockUnresolved) { BlockShape(s); }
    hide Admitted, Enabled, Apply;
  }

  lemma StageFound(s: State, w: Outside)
    requires s.running == None && Working(s.task.phase) && Advanced(s, w).1
    ensures CurrentKey(s.task).Some? && Admitted(s, w.now) && Operated(s, w).1
    ensures var o := Operated(s, w).0;
            Advanced(s, w).0 == if o.task.phase == Blocked then o else Apply'(o, w)
    ensures Operated(s, w).0.task.phase != Blocked ==> Enabled(Operated(s, w).0, ConcludeOf(w))
  {
    hide Operated, Enabled, Apply, Admitted, Fresh, CurrentKey;
  }

  function Apply'(o: State, w: Outside): State { Try(o, ConcludeOf(w)).0 }

  /** The conclusion of a stage neither blocks the task nor touches its operations. */
  lemma ConclusionLeaves(o: State, w: Outside)
    requires Enabled(o, ConcludeOf(w)) && Working(o.task.phase)
    ensures Apply'(o, w).task.phase != Blocked && Apply'(o, w).operations == o.operations
  {
    ConclusionTakesUp(o, ConcludeOf(w));
    ConclusionShape(o, ConcludeOf(w));
    hide Enabled, Apply;
  }

  lemma CallResumes(s: State, w: Outside)
    requires s.running == None && Working(s.task.phase) && Advanced(s, w).1
    requires CurrentKey(s.task).Some? && CurrentKey(s.task).value in s.operations
    ensures Resumes(s, Advanced(s, w).0)
  {
    StageFound(s, w);
    FoundOperated(s, w);
    var o := Operated(s, w).0;
    if Enabled(s, Reconcile) { ReconcileShape(s); }
    if Enabled(s, BlockUnresolved) { BlockShape(s); }
    hide Operated, Enabled, Apply, Admitted, Apply', Advanced, CurrentKey;
    if o.task.phase != Blocked { ConclusionLeaves(o, w); }
  }

  // ---- A run of good answers ----

  /** The state after `n` unrefused calls. */
  function Iterated(s: State, ws: nat -> Outside, n: nat): State {
    if n == 0 then s
    else
      var before := Iterated(s, ws, n - 1);
      if before.running.Some? then before else Advanced(before, ws(n - 1)).0
  }

  /** From call `i` to before call `n`, identifiers are fresh and the clock runs forward. */
  ghost predicate Supplied(s: State, ws: nat -> Outside, i: nat, n: nat) {
    && (forall j :: i <= j < n ==> Fresh(s, ws(j)) && ws(j).now <= ws(j).later && UnusedOperation(s, ws(j).operation))
    && (forall j, m :: i <= j < m < n ==>
          Ids(ws(j)) !! Ids(ws(m)) && ws(j).operation != ws(m).operation && ws(j).invocation != ws(m).invocation)
  }

  predicate AllGood(ws: nat -> Outside, n: nat) {
    forall j :: 0 <= j < n ==> ws(j).answer == Good && ws(j).asked && ws(j).responded
  }

  ghost predicate PlanOutlasts(s: State, ws: nat -> Outside, i: nat, n: nat) {
    forall j :: i <= j < n ==> Approved(s, s.task, PlanKind, ws(j).later)
  }

  lemma StillSupplied(s: State, ws: nat -> Outside, i: nat, n: nat, s': State)
    requires i < n && Supplied(s, ws, i, n) && Carries(s, ws(i), s') && s.task.phase != ReadyForPr
    ensures Supplied(s', ws, i + 1, n)
  {
    forall j | i + 1 <= j < n ensures Fresh(s', ws(j)) && UnusedOperation(s', ws(j).operation) {
      assert Fresh(s, ws(j)) && Ids(ws(i)) !! Ids(ws(j)) && UnusedOperation(s, ws(j).operation);
      assert {ws(j).first, ws(j).second, ws(j).third, ws(j).fourth} !! s'.records.Keys;
    }
  }

  lemma StillOutlasts(s: State, ws: nat -> Outside, i: nat, n: nat, s': State)
    requires i < n && PlanOutlasts(s, ws, i, n) && Carries(s, ws(i), s') && s.task.phase !in {Planning, ReadyForPr}
    ensures PlanOutlasts(s', ws, i + 1, n)
  {
    forall j | i + 1 <= j < n ensures Approved(s', s'.task, PlanKind, ws(j).later) {
      StaysLive(s, s', s'.task, ws(j).later);
    }
    hide Carries;
  }

  const WORK_ROUTE: seq<Phase> := [ReadyForImplementation, Implementing, Testing, Reviewing, AwaitingActionApproval]

  /** Where a run of good answers stands before call `j`: `first` is the implementation's invocation. */
  ghost predicate OnRoute(s: State, ws: nat -> Outside, j: nat) {
    && j <= 4 && s.task.phase == WORK_ROUTE[j] && ws(1).invocation != ws(3).invocation
    && Inv(s) && s.running == None && NotStarted(s)
    && Supplied(s, ws, j, 4) && PlanOutlasts(s, ws, j, 4)
    && (2 <= j < 4 ==> s.task.implementer == Some(ws(1).invocation))
  }

  lemma NextSlotBegun(s: State, w: Outside, s': State)
    requires OpsOk(s) && Carries(s, w, s') && s.task.phase == ReadyForImplementation && s'.task.phase == Implementing
    requires s'.operations == s.operations && s'.task.attempt == s.task.attempt + 1
    ensures NotStarted(s')
  {
    assert forall k :: k in s.operations ==> OpPlaced(s, k);
  }

  lemma NextSlotFollows(s: State, w: Outside, s': State)
    requires OpsOk(s) && Carries(s, w, s') && s'.task.attempt == s.task.attempt
    requires (s.task.phase == Implementing && s'.task.phase == Testing) || (s.task.phase == Testing && s'.task.phase == Reviewing)
    ensures NotStarted(s')
  {
    assert forall k :: k in s.operations ==> OpPlaced(s, k);
  }

  lemma RouteIsFree(s: State, ws: nat -> Outside, j: nat)
    requires OnRoute(s, ws, j) && j < 4
    ensures Unhindered(s, ws(j))
  {
    hide Inv, Fresh, Approved, UnusedOperation;
  }

  lemma RouteStep(s: State, ws: nat -> Outside, j: nat)
    requires OnRoute(s, ws, j) && j < 4 && AllGood(ws, 4)
    ensures Advanced(s, ws(j)).1 && OnRoute(Advanced(s, ws(j)).0, ws, j + 1)
  {
    var w, s' := ws(j), Advanced(s, ws(j)).0;
    RouteIsFree(s, ws, j);
    AdvancedKeepsInv(s, w);
    RouteMoves(s, ws, j);
    hide Inv, Unhindered, Advanced, Carries, Supplied, PlanOutlasts, OpsOk;
    StillSupplied(s, ws, j, 4, s');
    StillOutlasts(s, ws, j, 4, s');
  }

  /** The facts of the next state that its phase alone does not give. */
  ghost predicate RouteLeads(s: State, ws: nat -> Outside, j: nat, s': State) {
    && j < 4 && s'.running == None && s'.task.phase == WORK_ROUTE[j + 1] && Carries(s, ws(j), s') && NotStarted(s')
    && (2 <= j + 1 < 4 ==> s'.task.implementer == Some(ws(1).invocation))
  }

  lemma RouteBegins(s: State, ws: nat -> Outside)
    requires s.running == None && OpsOk(s) && s.task.phase == ReadyForImplementation && Unhindered(s, ws(0))
    ensures Advanced(s, ws(0)).1 && RouteLeads(s, ws, 0, Advanced(s, ws(0)).0)
  {
    hide Unhindered, Advanced, OpsOk, Carries, NotStarted;
    MoveCall(s, ws(0));
    NextSlotBegun(s, ws(0), Advanced(s, ws(0)).0);
    CarriesRuns(s, ws(0), Advanced(s, ws(0)).0);
  }

  lemma RouteForward(j: nat)
    requires 0 < j < 4
    ensures Forward(WORK_ROUTE[j]) == WORK_ROUTE[j + 1] && Working(WORK_ROUTE[j])
  {
  }

  lemma RouteWorks(s: State, ws: nat -> Outside, j: nat)
    requires 0 < j < 4 && s.running == None && OpsOk(s) && s.task.phase == WORK_ROUTE[j] && Unhindered(s, ws(j))
    requires ws(j).answer == Good && ws(j).asked && ws(j).responded
    requires j == 2 ==> s.task.implementer == Some(ws(1).invocation)
    ensures Advanced(s, ws(j)).1 && RouteLeads(s, ws, j, Advanced(s, ws(j)).0)
  {
    var s' := Advanced(s, ws(j)).0;
    RouteForward(j);
    hide Unhindered, Advanced, OpsOk, Carries, NotStarted, Forward, Working;
    GoodCall(s, ws(j));
    CarriesRuns(s, ws(j), s');
    if j < 3 { NextSlotFollows(s, ws(j), s'); } else { NoSlot(s'); }
  }

  lemma RouteMoves(s: State, ws: nat -> Outside, j: nat)
    requires OnRoute(s, ws, j) && j < 4 && AllGood(ws, 4) && Unhindered(s, ws(j))
    ensures Advanced(s, ws(j)).1 && RouteLeads(s, ws, j, Advanced(s, ws(j)).0)
  {
    hide Unhindered, Advanced, OpsOk, RouteLeads, Supplied, PlanOutlasts, NotStarted;
    if j == 0 { RouteBegins(s, ws); } else { RouteWorks(s, ws, j); }
  }

  lemma NoSlot(s: State)
    requires s.task.phase == AwaitingActionApproval
    ensures NotStarted(s)
  {
  }

  lemma CarriesRuns(s: State, w: Outside, s': State)
    requires Carries(s, w, s')
    ensures s'.running == None
  {
  }

  /** From a task ready for implementation, four calls with good answers come to the pause for the action's approval. */
  lemma {:induction false} WorkRuns(s: State, ws: nat -> Outside, n: nat)
    requires OnRoute(s, ws, 0) && AllGood(ws, 4) && n <= 4
    ensures OnRoute(Iterated(s, ws, n), ws, n)
    ensures forall j :: 0 <= j < n ==> OnRoute(Iterated(s, ws, j), ws, j) && Advanced(Iterated(s, ws, j), ws(j)).1
  {
    hide OnRoute, Advanced, AllGood;
    if n > 0 {
      WorkRuns(s, ws, n - 1);
      RouteStep(Iterated(s, ws, n - 1), ws, n - 1);
      RouteRuns(Iterated(s, ws, n - 1), ws, n - 1);
    }
  }

  lemma RouteRuns(s: State, ws: nat -> Outside, j: nat)
    requires OnRoute(s, ws, j)
    ensures s.running == None
  {
  }

  lemma StillFresh(s: State, ws: nat -> Outside, s': State)
    requires Supplied(s, ws, 0, 2) && Carries(s, ws(0), s')
    ensures Fresh(s', ws(1)) && ws(1).now <= ws(1).later
    ensures s.task.phase != ReadyForPr ==> UnusedOperation(s', ws(1).operation)
  {
    assert Fresh(s, ws(1)) && Ids(ws(0)) !! Ids(ws(1)) && UnusedOperation(s, ws(1).operation);
    assert {ws(1).first, ws(1).second, ws(1).third, ws(1).fourth} !! s'.records.Keys;
  }

  /** A specified task, and two calls with good answers. */
  ghost predicate PlansFreely(s: State, ws: nat -> Outside) {
    && Inv(s) && s.running == None && s.task.phase == SpecReady
    && Supplied(s, ws, 0, 2) && AllGood(ws, 2)
  }

  lemma PlanningBegins(s: State, ws: nat -> Outside)
    requires PlansFreely(s, ws)
    ensures var s' := Advanced(s, ws(0)).0;
            Advanced(s, ws(0)).1 && Unhindered(s', ws(1)) && s'.task.phase == Planning && s'.running == None
  {
    assert s.operations == map[];
    assert Unhindered(s, ws(0));
    AdvancedKeepsInv(s, ws(0));
    hide Inv, Advanced, Unhindered, Supplied, AllGood, Fresh;
    MoveCall(s, ws(0));
    StillFresh(s, ws, Advanced(s, ws(0)).0);
    hide Carries;
    CarriesRuns(s, ws(0), Advanced(s, ws(0)).0);
    var s' := Advanced(s, ws(0)).0;
    PlanUnhindered(s', ws(1));
  }

  lemma PlanUnhindered(s: State, w: Outside)
    requires Inv(s) && s.running == None && s.task.phase == Planning && s.operations == map[]
    requires Fresh(s, w) && w.now <= w.later && UnusedOperation(s, w.operation)
    ensures Unhindered(s, w)
  {
    hide Inv, Fresh;
  }

  /** Two calls with good answers plan a specified task, up to the pause for the plan's approval. */
  lemma PlanRuns(s: State, ws: nat -> Outside)
    requires PlansFreely(s, ws)
    ensures var s1 := Advanced(s, ws(0)).0;
            && Advanced(s, ws(0)).1 && s1.running == None && s1.task.phase == Planning
            && Advanced(s1, ws(1)).1 && Advanced(s1, ws(1)).0.task.phase == AwaitingPlanApproval
  {
    PlanningBegins(s, ws);
    hide Inv, Advanced, Unhindered;
    GoodCall(Advanced(s, ws(0)).0, ws(1));
  }

  /** A task whose action is approved for the call, and has not been tried. */
  ghost predicate ActsFreely(s: State, ws: nat -> Outside) {
    && Inv(s) && s.running == None && s.task.phase == ReadyForPr && NotStarted(s)
    && Supplied(s, ws, 0, 2) && ws(0).answer == Good
    && Approved(s, s.task, ActionKind, ws(0).later)
    && forall r :: At(s.records, s.task.actionRequest) == Some(r) && r.ActionRequest? ==> UnusedOperation(s, r.op)
  }

  lemma ActionUnhindered(s: State, ws: nat -> Outside)
    requires ActsFreely(s, ws)
    ensures Unhindered(s, ws(0))
  {
    hide Inv, Fresh, Approved, UnusedOperation;
  }

  lemma DoneUnhindered(s: State, w: Outside)
    requires Inv(s) && s.running == None && s.task.phase == PrCreated && Fresh(s, w) && w.now <= w.later
    ensures Unhindered(s, w)
  {
    hide Inv, Fresh;
  }

  /** Two calls, the first with a good answer, take an approved action to the end of the task. */
  lemma ActionRuns(s: State, ws: nat -> Outside)
    requires ActsFreely(s, ws)
    ensures var s1 := Advanced(s, ws(0)).0;
            && Advanced(s, ws(0)).1 && s1.running == None && s1.task.phase == PrCreated
            && Advanced(s1, ws(1)).1 && Advanced(s1, ws(1)).0.task.phase == EngineState.Completed
  {
    ActionDone(s, ws);
    hide *;
    DoneCall(Advanced(s, ws(0)).0, ws(1));
  }

  lemma DoneCall(s: State, w: Outside)
    requires Inv(s) && s.running == None && s.task.phase == PrCreated && Fresh(s, w) && w.now <= w.later
    ensures Advanced(s, w).1 && Advanced(s, w).0.task.phase == EngineState.Completed
  {
    hide Inv, Advanced, Unhindered;
    DoneUnhindered(s, w);
    MoveCall(s, w);
  }

  lemma ActionDone(s: State, ws: nat -> Outside)
    requires ActsFreely(s, ws)
    ensures var s1 := Advanced(s, ws(0)).0;
            && Advanced(s, ws(0)).1 && s1.running == None && s1.task.phase == PrCreated
            && Inv(s1) && Fresh(s1, ws(1)) && ws(1).now <= ws(1).later
  {
    ActionUnhindered(s, ws);
    var s1 := Advanced(s, ws(0)).0;
    hide Inv, Advanced, Unhindered, Supplied, Approved, Fresh, UnusedOperation, Carries;
    AdvancedKeepsInv(s, ws(0));
    GoodCall(s, ws(0));
    StillFresh(s, ws, s1);
    CarriesRuns(s, ws(0), s1);
  }

  // ---- A run stops at the first pause ----

  /** The calls that a run makes: until the task pauses, or the last one is refused. */
  ghost predicate Stops(s: State, ws: nat -> Outside, calls: nat, paused: bool) {
    && (forall j :: 0 <= j < calls ==> !Paused(Iterated(s, ws, j).task.phase))
    && Iterated(s, ws, calls).running == None
    && (paused <==> Paused(Iterated(s, ws, calls).task.phase))
    && (!paused ==> !Advanced(Iterated(s, ws, calls), ws(calls)).1)
  }

  lemma RouteWaits(s: State, ws: nat -> Outside, j: nat)
    requires OnRoute(s, ws, j)
    ensures Paused(s.task.phase) <==> j == 4
    ensures j == 4 ==> s.task.phase == AwaitingActionApproval
  {
    hide Inv, Supplied, PlanOutlasts;
  }

  lemma WorkRunEnds(s: State, ws: nat -> Outside, calls: nat, paused: bool)
    requires OnRoute(s, ws, 0) && AllGood(ws, 4) && Stops(s, ws, calls, paused)
    ensures paused && calls == 4 && Iterated(s, ws, calls).task.phase == AwaitingActionApproval
  {
    WorkRuns(s, ws, 4);
    RouteWaits(Iterated(s, ws, 4), ws, 4);
    if calls < 4 { RouteWaits(Iterated(s, ws, calls), ws, calls); }
    hide OnRoute, Advanced, Iterated;
  }

  lemma TwoCalls(s: State, ws: nat -> Outside)
    requires s.running == None && Advanced(s, ws(0)).0.running == None
    ensures Iterated(s, ws, 0) == s && Iterated(s, ws, 1) == Advanced(s, ws(0)).0
    ensures Iterated(s, ws, 2) == Advanced(Advanced(s, ws(0)).0, ws(1)).0
  {
    hide Advanced;
  }

  lemma PlanRunEnds(s: State, ws: nat -> Outside, calls: nat, paused: bool)
    requires PlansFreely(s, ws) && Stops(s, ws, calls, paused)
    ensures paused && calls == 2 && Iterated(s, ws, calls).task.phase == AwaitingPlanApproval
  {
    PlanRuns(s, ws);
    hide Inv, Advanced;
    TwoCalls(s, ws);
  }

  lemma ActionRunEnds(s: State, ws: nat -> Outside, calls: nat, paused: bool)
    requires ActsFreely(s, ws) && Stops(s, ws, calls, paused)
    ensures paused && calls == 2 && Iterated(s, ws, calls).task.phase == EngineState.Completed
  {
    ActionRuns(s, ws);
    hide Inv, Advanced, Approved;
    TwoCalls(s, ws);
  }
}
