/** What every reachable state of a workflow task satisfies, whatever crashes between its commits. */
module EngineProof {
  import opened Basics
  import opened EngineState
  import opened EngineSteps

  /** The phase a task is in, or was in when it was blocked. */
  function Effective(t: Task): Phase {
    if t.phase == Blocked && t.resume.Some? then t.resume.value else t.phase
  }

  predicate Drafting(p: Phase) { p in {DraftSpec, AwaitingClarification} }

  predicate BeforeWork(p: Phase) { p in {SpecReady, Planning, AwaitingPlanApproval} }

  predicate HasPlan(p: Phase) { p == AwaitingPlanApproval || p == ReadyForImplementation || HasWork(p) }

  predicate HasWork(p: Phase) { p in {Implementing, ChangesRequested} || HasPatch(p) }

  predicate HasPatch(p: Phase) { p == Testing || HasTest(p) }

  predicate HasTest(p: Phase) { p == Reviewing || Accepted(p) }

  predicate Accepted(p: Phase) { p == AwaitingActionApproval || Authorized(p) }

  predicate Authorized(p: Phase) { p == ReadyForPr || ActionDone(p) }

  predicate ActionDone(p: Phase) { p in {PrCreated, Completed} }

  /** An accepting review of exactly the current spec, plan, patch and test, by someone else than the implementer. */
  predicate BoundReview(records: Records, t: Task, review: Ref) {
    && var r := At(records, review);
       && r.Some? && r.value.Review?
       && var q := At(records, Some(r.value.request));
          && q.Some? && q.value.ReviewRequest?
          && q.value == ReviewRequest(t.spec, t.plan, t.patch, t.test, t.implementer, q.value.reviewer)
          && Some(q.value.reviewer) != t.implementer
  }

  predicate BoundAction(records: Records, t: Task) {
    && var q := At(records, t.actionRequest);
       && q.Some? && q.value.ActionRequest?
       && q.value == ActionRequest(q.value.op, t.patch, t.test, t.review)
  }

  /** What the current phase says of the task's evidence. */
  predicate EvidenceOk(records: Records, approvals: map<Id, Id>, t: Task) {
    var p := Effective(t);
    && ((!Drafting(p) && !Terminal(p)) || p == Completed ==> At(records, t.spec) == Some(Spec(true)))
    && (HasPlan(p) ==> At(records, t.plan) == Some(Plan(t.spec)))
    && (HasWork(p) ==> At(records, t.workOrder) == Some(WorkOrder(t.spec, t.plan, t.attempt)))
    && (HasPatch(p) ==> At(records, t.patch) == Some(Patch(t.workOrder)))
    && (HasTest(p) ==> PassingTest(records, t))
    && (Accepted(p) ==>
          && AcceptingReview(records, t)
          && BoundReview(records, t, t.review)
          && BoundAction(records, t)
          && Binds(records, approvals, t, PlanKind))
    && (Authorized(p) ==> Binds(records, approvals, t, ActionKind))
  }

  predicate CountsOk(t: Task) {
    var p := Effective(t);
    && t.attempt <= 3
    && (HasWork(p) ==> 1 <= t.attempt)
    && (Drafting(p) || BeforeWork(p) ==> t.attempt == 0)
    && (p == ReadyForImplementation ==> t.attempt <= 2)
    && (t.resume.Some? ==> t.phase == Blocked)
    && (t.phase == Blocked ==> t.resume.Some? && StageOf(t.resume.value).Some?)
  }

  predicate OpPlaced(s: State, k: Key) {
    var t, p := s.task, Effective(s.task);
    match k.stage
    case PlanningStage => k.slot <= t.planningAttempt
    case ImplementationStage => 1 <= k.slot <= t.attempt
    case TestsStage => 1 <= k.slot <= t.attempt && (k.slot == t.attempt ==> p != Implementing)
    case ReviewStage => 1 <= k.slot <= t.attempt && (k.slot == t.attempt ==> p != Implementing && p != Testing)
    case ExternalStage =>
      && (Authorized(p) || p == Failed || p == Cancelled)
      && t.actionRequest == Some(k.slot)
      && At(s.records, Some(k.slot)).Some?
      && At(s.records, Some(k.slot)).value.ActionRequest?
      && k in s.operations
      && At(s.records, Some(k.slot)).value.op == s.operations[k].id
  }

  ghost predicate OpsOk(s: State) {
    && (forall k :: k in s.operations ==> OpPlaced(s, k))
    && (Drafting(Effective(s.task)) || Effective(s.task) == SpecReady ==> s.operations == map[])
  }

  predicate ResultOk(s: State, k: Key, id: Id, r: Result) {
    match r
    case Failure => true
    case PlanMade(p) => k.stage == PlanningStage && At(s.records, Some(p)) == Some(Plan(s.task.spec))
    case Patched(p, implementer) =>
      k.stage == ImplementationStage && (k.slot == s.task.attempt ==> At(s.records, Some(p)) == Some(Patch(s.task.workOrder)))
    case Tested(i, failed) => k.stage == TestsStage
    case Reviewed(i) => k.stage == ReviewStage && (k.slot == s.task.attempt ==> BoundReview(s.records, s.task, Some(i)))
    case Acted(i, failed) =>
      && k.stage == ExternalStage
      && id in s.effects && s.effects[id] == i
      && At(s.records, Some(i)).Some? && At(s.records, Some(i)).value.Receipt?
      && failed == !At(s.records, Some(i)).value.succeeded
  }

  ghost predicate ResultsOk(s: State) {
    && (forall k :: k in s.operations && s.operations[k].result.Some? ==>
          ResultOk(s, k, s.operations[k].id, s.operations[k].result.value))
    && (s.running.Some? && s.running.value.result.Some? ==>
          ResultOk(s, s.running.value.key, s.running.value.id, s.running.value.result.value))
  }

  predicate RunningOk(s: State) {
    s.running.Some? ==>
      && CurrentKey(s.task) == Some(s.running.value.key)
      && s.running.value.key in s.operations
      && s.operations[s.running.value.key] == Op(s.running.value.id, None)
      && (s.running.value.result.Some? ==> s.running.value.entered)
      && (!s.running.value.entered ==> s.running.value.key !in s.invoked)
  }

  ghost predicate InvokedOk(s: State) {
    forall k :: k in s.invoked ==> k in s.operations && s.invoked[k] <= 1
  }

  ghost predicate EffectsOk(s: State) {
    && (forall o :: o in s.effects ==>
          && s.task.actionRequest.Some?
          && Key(ExternalStage, s.task.actionRequest.value) in s.operations
          && s.operations[Key(ExternalStage, s.task.actionRequest.value)].id == o
          && At(s.records, Some(s.effects[o])).Some?
          && At(s.records, Some(s.effects[o])).value.Receipt?)
    && (forall i :: i in s.records && s.records[i].Receipt? ==> i in s.effects.Values)
    && (ActionDone(s.task.phase) ==>
          && s.task.external.Some?
          && s.task.external.value in s.effects.Values
          && SucceededReceipt(s.records, s.task.external))
    && (s.task.phase == Cancelled ==> forall i :: i in s.records ==> !SucceededReceipt(s.records, Some(i)))
  }

  ghost predicate Inv(s: State) {
    && EvidenceOk(s.records, s.approvals, s.task)
    && CountsOk(s.task)
    && OpsOk(s)
    && ResultsOk(s)
    && RunningOk(s)
    && InvokedOk(s)
    && EffectsOk(s)
  }

  lemma StartInv()
    ensures Inv(Start())
  {
  }

  // ---- Frames: what a step keeps of the parts it does not touch ----

  ghost predicate Grows(r: Records, r': Records) {
    forall i :: i in r ==> i in r' && r'[i] == r[i]
  }

  ghost predicate MapGrows(m: map<Id, Id>, m': map<Id, Id>) {
    forall i :: i in m ==> i in m' && m'[i] == m[i]
  }

  /** The fields that results are bound to. */
  predicate SameWork(t: Task, t': Task) {
    && t'.spec == t.spec
    && t'.plan == t.plan
    && t'.workOrder == t.workOrder
    && t'.patch == t.patch
    && t'.implementer == t.implementer
    && t'.test == t.test
    && t'.attempt == t.attempt
  }

  predicate SameApprovals(t: Task, t': Task) {
    && SameWork(t, t')
    && t'.review == t.review
    && t'.actionRequest == t.actionRequest
    && t'.planRequest == t.planRequest
    && t'.planApproval == t.planApproval
    && t'.approvalRequest == t.approvalRequest
    && t'.approval == t.approval
  }

  lemma BindsFrame(r: Records, a: map<Id, Id>, t: Task, r': Records, a': map<Id, Id>, t': Task, kind: Kind)
    requires Grows(r, r') && MapGrows(a, a') && Binds(r, a, t, kind)
    requires Expected(t', kind) == Expected(t, kind) && Subject(t', kind) == Subject(t, kind)
    requires RequestOf(t', kind) == RequestOf(t, kind) && DecisionOf(t', kind) == DecisionOf(t, kind)
    ensures Binds(r', a', t', kind)
  {
    var q := r[RequestOf(t, kind).value];
    forall i | 0 <= i < |q.evidence| ensures At(r', q.evidence[i]).Some? { assert At(r, q.evidence[i]).Some?; }
  }

  lemma ReviewFrame(r: Records, t: Task, r': Records, t': Task, review: Ref)
    requires Grows(r, r') && SameWork(t, t') && BoundReview(r, t, review)
    ensures BoundReview(r', t', review)
  {
  }

  /** Phase `q` asks for no more evidence than phase `p`, up to the authorization of the action. */
  predicate AsksLess(q: Phase, p: Phase) {
    && ((!Drafting(q) && !Terminal(q)) || q == Completed ==> (!Drafting(p) && !Terminal(p)) || p == Completed)
    && (HasPlan(q) ==> HasPlan(p))
    && (HasWork(q) ==> HasWork(p))
    && (HasPatch(q) ==> HasPatch(p))
    && (HasTest(q) ==> HasTest(p))
    && (Accepted(q) ==> Accepted(p))
  }

  lemma EvidenceFrame(r: Records, a: map<Id, Id>, t: Task, r': Records, a': map<Id, Id>, t': Task)
    requires Grows(r, r') && MapGrows(a, a') && SameWork(t, t') && EvidenceOk(r, a, t)
    requires AsksLess(Effective(t'), Effective(t))
    requires Accepted(Effective(t')) ==>
               && t'.review == t.review && t'.actionRequest == t.actionRequest
               && t'.planRequest == t.planRequest && t'.planApproval == t.planApproval
    requires Authorized(Effective(t')) ==> Binds(r', a', t', ActionKind)
    ensures EvidenceOk(r', a', t')
  {
    assert HasTest(Effective(t')) ==> PassingTest(r', t');
    if Accepted(Effective(t')) {
      ReviewFrame(r, t, r', t', t.review);
      BindsFrame(r, a, t, r', a', t', PlanKind);
    }
  }

  /** The same at an unchanged phase and unchanged approvals. */
  lemma EvidenceStays(r: Records, a: map<Id, Id>, t: Task, r': Records, t': Task)
    requires Grows(r, r') && SameApprovals(t, t') && EvidenceOk(r, a, t) && Effective(t') == Effective(t)
    ensures EvidenceOk(r', a, t')
  {
    if Authorized(Effective(t)) { BindsFrame(r, a, t, r', a, t', ActionKind); }
    EvidenceFrame(r, a, t, r', a, t');
  }

  lemma ResultFrame(s: State, s': State, k: Key, id: Id, x: Result)
    requires Grows(s.records, s'.records) && MapGrows(s.effects, s'.effects) && SameWork(s.task, s'.task)
    requires ResultOk(s, k, id, x)
    ensures ResultOk(s', k, id, x)
  {
    if x.Reviewed? && k.slot == s.task.attempt { ReviewFrame(s.records, s.task, s'.records, s'.task, Some(x.review)); }
  }

  /** Results stay bound while the work they were bound to stays; `extra` is a result this step stores. */
  lemma ResultsFrame(s: State, s': State)
    requires ResultsOk(s)
    requires Grows(s.records, s'.records) && MapGrows(s.effects, s'.effects) && SameWork(s.task, s'.task)
    requires forall k :: k in s'.operations && s'.operations[k].result.Some? ==>
               (k in s.operations && s'.operations[k] == s.operations[k])
               || ResultOk(s', k, s'.operations[k].id, s'.operations[k].result.value)
    requires s'.running == s.running || s'.running == None
             || (s'.running.value.result.Some? ==>
                   ResultOk(s', s'.running.value.key, s'.running.value.id, s'.running.value.result.value))
    ensures ResultsOk(s')
  {
    forall k | k in s'.operations && s'.operations[k].result.Some?
      ensures ResultOk(s', k, s'.operations[k].id, s'.operations[k].result.value)
    {
      if k in s.operations && s'.operations[k] == s.operations[k] {
        ResultFrame(s, s', k, s.operations[k].id, s.operations[k].result.value);
      }
    }
    if s'.running == s.running && s.running.Some? && s.running.value.result.Some? {
      ResultFrame(s, s', s.running.value.key, s.running.value.id, s.running.value.result.value);
    }
  }

  predicate ForwardPhase(p: Phase, p': Phase) {
    && (p' == Implementing ==> p == Implementing)
    && (p' == Testing ==> p == Implementing || p == Testing)
    && (Authorized(p) || p == Failed || p == Cancelled ==> Authorized(p') || p' == Failed || p' == Cancelled)
  }

  lemma OpsFrame(s: State, s': State)
    requires OpsOk(s) && s'.operations.Keys == s.operations.Keys
    requires forall k :: k in s.operations ==> s'.operations[k].id == s.operations[k].id
    requires Grows(s.records, s'.records)
    requires s'.task.attempt == s.task.attempt && s'.task.planningAttempt >= s.task.planningAttempt
    requires ForwardPhase(Effective(s.task), Effective(s'.task))
    requires s'.task.actionRequest == s.task.actionRequest || !(Authorized(Effective(s.task)) || Effective(s.task) in {Failed, Cancelled})
    requires Drafting(Effective(s'.task)) || Effective(s'.task) == SpecReady ==> s.operations == map[]
    ensures OpsOk(s')
  {
    forall k | k in s'.operations ensures OpPlaced(s', k) { assert OpPlaced(s, k); }
    if s.operations == map[] { assert s'.operations.Keys == {}; }
  }

  lemma EffectsFrame(s: State, s': State)
    requires EffectsOk(s) && s'.effects == s.effects && Grows(s.records, s'.records)
    requires forall i :: i in s'.records && s'.records[i].Receipt? ==> i in s.records
    requires s'.operations.Keys >= s.operations.Keys
    requires forall k :: k in s.operations ==> s'.operations[k].id == s.operations[k].id
    requires s'.task.actionRequest == s.task.actionRequest || s.effects == map[]
    requires ActionDone(s'.task.phase) ==> ActionDone(s.task.phase) && s'.task.external == s.task.external
    requires s'.task.phase == Cancelled ==> forall i :: i in s'.records ==> !SucceededReceipt(s'.records, Some(i))
    ensures EffectsOk(s')
  {
    forall i | i in s'.records && s'.records[i].Receipt? ensures i in s'.effects.Values {
      assert s.records[i].Receipt?;
    }
  }

  /** Before the action is authorized there is no effect, and no receipt of one. */
  lemma NoEffectYet(s: State)
    requires OpsOk(s) && EffectsOk(s)
    requires !Authorized(Effective(s.task)) && Effective(s.task) != Failed && Effective(s.task) != Cancelled
    ensures s.effects == map[]
    ensures forall i :: i in s.records ==> !s.records[i].Receipt?
  {
    assert forall k :: k in s.operations ==> OpPlaced(s, k) && k.stage != ExternalStage;
    assert forall o :: o !in s.effects;
  }
}
