/** Each committed step of the engine keeps the invariant of `EngineProof`. */
module EngineKeeps {
  import opened Basics
  import opened EngineState
  import opened EngineSteps
  import opened EngineProof

  // ---- Steps of the task alone: no operation, effect or running work changes ----

  ghost predicate TaskOnly(s: State, s': State) {
    && s.running == None && s'.running == None
    && s'.operations == s.operations
    && s'.effects == s.effects
    && s'.invoked == s.invoked
    && Grows(s.records, s'.records)
    && MapGrows(s.approvals, s'.approvals)
    && (forall i :: i in s'.records && s'.records[i].Receipt? ==> i in s.records)
  }

  lemma TaskStep(s: State, s': State)
    requires OpsOk(s) && InvokedOk(s) && EffectsOk(s) && TaskOnly(s, s')
    requires s'.task.attempt == s.task.attempt && s'.task.planningAttempt >= s.task.planningAttempt
    requires ForwardPhase(Effective(s.task), Effective(s'.task))
    requires s'.task.actionRequest == s.task.actionRequest || !(Authorized(Effective(s.task)) || Effective(s.task) in {Failed, Cancelled})
    requires Drafting(Effective(s'.task)) || Effective(s'.task) == SpecReady ==> s.operations == map[]
    requires ActionDone(s'.task.phase) ==> ActionDone(s.task.phase) && s'.task.external == s.task.external
    requires s'.task.phase == Cancelled ==> forall i :: i in s'.records ==> !SucceededReceipt(s'.records, Some(i))
    ensures OpsOk(s') && RunningOk(s') && InvokedOk(s') && EffectsOk(s')
  {
    OpsFrame(s, s');
    if s'.task.actionRequest != s.task.actionRequest { NoEffectYet(s); }
    EffectsFrame(s, s');
  }

  lemma DraftingEvidence(s: State, a: Action)
    requires EvidenceOk(s.records, s.approvals, s.task) && CountsOk(s.task)
    requires Enabled(s, a) && (a.Draft? || a.Ask? || a.Answer? || a.Confirm?)
    ensures EvidenceOk(Apply(s, a).records, Apply(s, a).approvals, Apply(s, a).task) && CountsOk(Apply(s, a).task)
  {
    assert Effective(s.task) == s.task.phase;
  }

  lemma DraftingStep(s: State, a: Action)
    requires Inv(s) && Enabled(s, a) && (a.Draft? || a.Ask? || a.Answer? || a.Confirm?)
    ensures Inv(Apply(s, a))
  {
    DraftingEvidence(s, a);
    assert s.operations == map[] && s.running == None;
    TaskStep(s, Apply(s, a));
  }

  lemma ApproveEvidence(s: State, d: Id, approve: bool, now: Time)
    requires EvidenceOk(s.records, s.approvals, s.task) && CountsOk(s.task)
    requires CanApprove(s, d, approve, s.task.revision, now)
    ensures var s' := Decided(s, d, approve);
            EvidenceOk(s'.records, s'.approvals, Moved(s'.task, DecisionTarget(Pending(s).kind, approve)))
  {
    var s' := Decided(s, d, approve);
    var k := Pending(s).kind;
    var t' := Moved(s'.task, DecisionTarget(k, approve));
    assert Effective(s.task) == s.task.phase && Effective(t') == t'.phase;
    if k == ActionKind && approve {
      BindsFrame(s'.records, s'.approvals, s'.task, s'.records, s'.approvals, t', ActionKind);
    }
    EvidenceFrame(s.records, s.approvals, s.task, s'.records, s'.approvals, t');
  }

  lemma ApproveTask(s: State, a: Action)
    requires OpsOk(s) && InvokedOk(s) && EffectsOk(s) && CountsOk(s.task) && Enabled(s, a) && a.Approve?
    ensures var s' := Apply(s, a); CountsOk(s'.task) && OpsOk(s') && RunningOk(s') && InvokedOk(s') && EffectsOk(s')
  {
    var s' := Apply(s, a);
    ApproveShape(s, a);
    hide Enabled, Apply, CanMove;
    TaskStep(s, s');
  }

  lemma ApproveShape(s: State, a: Action)
    requires CountsOk(s.task) && Enabled(s, a) && a.Approve?
    ensures var s' := Apply(s, a);
            && TaskOnly(s, s') && CountsOk(s'.task)
            && s'.task.attempt == s.task.attempt && s'.task.planningAttempt >= s.task.planningAttempt
            && s'.task.actionRequest == s.task.actionRequest
            && Effective(s.task) == s.task.phase && Effective(s'.task) == s'.task.phase
            && s.task.phase in {AwaitingPlanApproval, AwaitingActionApproval}
            && s'.task.phase in {ReadyForImplementation, Planning, ReadyForPr, ChangesRequested}
            && ForwardPhase(s.task.phase, s'.task.phase)
  {
    hide CanMove;
  }

  lemma ApproveStep(s: State, a: Action)
    requires Inv(s) && Enabled(s, a) && a.Approve?
    ensures Inv(Apply(s, a))
  {
    ApproveEvidence(s, a.decision, a.approve, a.now);
    ApproveTask(s, a);
    ResultsFrame(s, Apply(s, a));
  }

  lemma RenewEvidence(s: State, a: Action)
    requires EvidenceOk(s.records, s.approvals, s.task) && CountsOk(s.task) && Enabled(s, a) && a.Renew?
    ensures var s' := Apply(s, a); EvidenceOk(s'.records, s'.approvals, s'.task) && CountsOk(s'.task)
  {
    var s' := Apply(s, a);
    assert Effective(s.task) == s.task.phase && Effective(s'.task) == s'.task.phase;
    EvidenceFrame(s.records, s.approvals, s.task, s'.records, s'.approvals, s'.task);
  }

  lemma RenewTask(s: State, a: Action)
    requires OpsOk(s) && InvokedOk(s) && EffectsOk(s) && CountsOk(s.task) && Enabled(s, a) && a.Renew?
    ensures var s' := Apply(s, a); OpsOk(s') && RunningOk(s') && InvokedOk(s') && EffectsOk(s')
  {
    TaskStep(s, Apply(s, a));
  }

  lemma RenewStep(s: State, a: Action)
    requires Inv(s) && Enabled(s, a) && a.Renew?
    ensures Inv(Apply(s, a))
  {
    RenewEvidence(s, a);
    RenewTask(s, a);
    ResultsFrame(s, Apply(s, a));
  }

  lemma CancelStep(s: State, a: Action)
    requires Inv(s) && Enabled(s, a) && a.Cancel?
    ensures Inv(Apply(s, a))
  {
    var s' := Apply(s, a);
    CancelShape(s, a);
    hide Enabled, Apply, EvidenceOk, CountsOk, OpsOk, ResultsOk, EffectsOk, InvokedOk;
    CancelEvidence(s, s');
    TaskStep(s, s');
    ResultsFrame(s, s');
  }

  lemma CancelShape(s: State, a: Action)
    requires CountsOk(s.task) && Enabled(s, a) && a.Cancel?
    ensures var s' := Apply(s, a);
            && s' == Cancelled'(s, s'.memory) && s.running == None
            && (forall i :: i in s.records ==> !SucceededReceipt(s.records, Some(i)))
            && Effective(s'.task) == EngineState.Cancelled && !Drafting(Effective(s'.task))
            && ForwardPhase(Effective(s.task), Effective(s'.task))
  {
  }

  lemma CancelEvidence(s: State, s': State)
    requires EvidenceOk(s.records, s.approvals, s.task) && CountsOk(s.task) && s' == Cancelled'(s, s'.memory)
    ensures EvidenceOk(s'.records, s'.approvals, s'.task) && CountsOk(s'.task)
  {
    EvidenceFrame(s.records, s.approvals, s.task, s'.records, s'.approvals, s'.task);
  }

  /** The plain moves of `advance`, and the move that blocks the task. */
  lemma MoveEvidence(s: State, p: Phase)
    requires EvidenceOk(s.records, s.approvals, s.task) && CountsOk(s.task) && s.task.phase != Blocked
    requires p == Planning ==> s.task.phase == SpecReady
    requires p == ReadyForImplementation ==> s.task.phase == ChangesRequested && s.task.attempt < 3
    requires p == Completed ==> s.task.phase == PrCreated
    requires p == Blocked ==> StageOf(s.task.phase).Some?
    requires p in {Planning, ReadyForImplementation, Completed, Blocked, Failed}
    ensures EvidenceOk(s.records, s.approvals, Moved(s.task, p)) && CountsOk(Moved(s.task, p))
  {
    var t' := Moved(s.task, p);
    if Authorized(Effective(t')) {
      BindsFrame(s.records, s.approvals, s.task, s.records, s.approvals, t', ActionKind);
    }
    EvidenceFrame(s.records, s.approvals, s.task, s.records, s.approvals, t');
  }

  lemma MoveTask(s: State, p: Phase)
    requires OpsOk(s) && InvokedOk(s) && EffectsOk(s) && CountsOk(s.task) && s.running == None && s.task.phase != Blocked
    requires p == Planning ==> s.task.phase == SpecReady
    requires p == ReadyForImplementation ==> s.task.phase == ChangesRequested
    requires p == Completed ==> s.task.phase == PrCreated
    requires p in {Planning, ReadyForImplementation, Completed, Blocked, Failed}
    ensures var s' := s.(task := Moved(s.task, p)); OpsOk(s') && RunningOk(s') && InvokedOk(s') && EffectsOk(s')
  {
    TaskStep(s, s.(task := Moved(s.task, p)));
  }

  lemma MovesAre(s: State, a: Action)
    requires RunningOk(s) && CountsOk(s.task)
    requires Enabled(s, a) && (a.BeginPlanning? || a.SettleChanges? || a.Complete? || a.BlockUnresolved?)
    ensures var p := Apply(s, a).task.phase;
            && Apply(s, a) == s.(task := Moved(s.task, p))
            && s.running == None && s.task.phase != Blocked
            && (p == Planning ==> s.task.phase == SpecReady)
            && (p == ReadyForImplementation ==> s.task.phase == ChangesRequested && s.task.attempt < 3)
            && (p == Completed ==> s.task.phase == PrCreated)
            && (p == Blocked ==> StageOf(s.task.phase).Some?)
            && p in {Planning, ReadyForImplementation, Completed, Blocked, Failed}
  {
    hide CanMove;
  }

  lemma MoveStep(s: State, a: Action)
    requires Inv(s) && Enabled(s, a) && (a.BeginPlanning? || a.SettleChanges? || a.Complete? || a.BlockUnresolved?)
    ensures Inv(Apply(s, a))
  {
    var p := Apply(s, a).task.phase;
    MovesAre(s, a);
    hide EvidenceOk, CountsOk, OpsOk, ResultsOk, RunningOk, InvokedOk, EffectsOk, Enabled, Apply;
    MoveEvidence(s, p);
    MoveTask(s, p);
    ResultsFrame(s, s.(task := Moved(s.task, p)));
  }

  lemma UncertainStep(s: State, a: Action)
    requires Inv(s) && Enabled(s, a) && a.Uncertain?
    ensures Inv(Apply(s, a))
  {
    var s' := Apply(s, a);
    MoveEvidence(s, Blocked);
    OpsFrame(s, s');
    EffectsFrame(s, s');
    ResultsFrame(s, s');
  }

  // ---- Recovery of a blocked operation ----

  lemma RecoverEvidence(s: State, k: Key, m: Memory, now: Time)
    requires EvidenceOk(s.records, s.approvals, s.task) && CountsOk(s.task)
    requires CanRecover(s, s.task.revision, now) && k in s.operations
    ensures var s' := Recovered(s, k, m); EvidenceOk(s'.records, s'.approvals, s'.task) && CountsOk(s'.task)
  {
    var s' := Recovered(s, k, m);
    EvidenceFrame(s.records, s.approvals, s.task, s'.records, s'.approvals, s'.task);
  }

  lemma RecoverOps(s: State, k: Key, m: Memory, now: Time)
    requires OpsOk(s) && EffectsOk(s) && CountsOk(s.task) && CanRecover(s, s.task.revision, now) && k in s.operations
    ensures var s' := Recovered(s, k, m); OpsOk(s') && EffectsOk(s')
  {
    OpsFrame(s, Recovered(s, k, m));
    EffectsFrame(s, Recovered(s, k, m));
  }

  lemma RecoverStep(s: State, a: Action)
    requires Inv(s) && Enabled(s, a) && a.Recover?
    ensures Inv(Apply(s, a))
  {
    var s' := Apply(s, a);
    assert CanRecover(s, s.task.revision, a.now);
    var k :| k in s.operations && Recoverable(s, k) && s' == Recovered(s, k, s'.memory);
    RecoverEvidence(s, k, s'.memory, a.now);
    RecoverOps(s, k, s'.memory, a.now);
    ResultsFrame(s, s');
  }

  // ---- A new attempt: everything bound to the previous one is stale ----

  lemma AttemptEvidence(s: State, w: Id)
    requires EvidenceOk(s.records, s.approvals, s.task) && CountsOk(s.task)
    requires s.task.phase == ReadyForImplementation && w !in s.records
    ensures var t' := BegunAttempt(s.task, w);
            && EvidenceOk(s.records[w := WorkOrder(s.task.spec, s.task.plan, s.task.attempt + 1)], s.approvals, t')
            && CountsOk(t')
  {
  }

  lemma AttemptOps(s: State, a: Action)
    requires OpsOk(s) && CountsOk(s.task) && Enabled(s, a) && a.BeginAttempt?
    ensures OpsOk(Apply(s, a))
  {
    var s' := Apply(s, a);
    forall k | k in s'.operations ensures OpPlaced(s', k) { assert OpPlaced(s, k); }
  }

  lemma AttemptResult(s: State, s': State, k: Key, id: Id, r: Result)
    requires Grows(s.records, s'.records) && s'.effects == s.effects && s'.task.spec == s.task.spec
    requires k.stage in {ImplementationStage, ReviewStage} ==> k.slot != s'.task.attempt
    requires ResultOk(s, k, id, r)
    ensures ResultOk(s', k, id, r)
  {
  }

  lemma AttemptResults(s: State, a: Action)
    requires OpsOk(s) && ResultsOk(s) && Enabled(s, a) && a.BeginAttempt?
    ensures ResultsOk(Apply(s, a))
  {
    var s' := Apply(s, a);
    forall k | k in s'.operations && s'.operations[k].result.Some?
      ensures ResultOk(s', k, s'.operations[k].id, s'.operations[k].result.value)
    {
      assert OpPlaced(s, k);
      AttemptResult(s, s', k, s.operations[k].id, s.operations[k].result.value);
    }
  }

  lemma AttemptRest(s: State, a: Action)
    requires InvokedOk(s) && EffectsOk(s) && Enabled(s, a) && a.BeginAttempt?
    ensures RunningOk(Apply(s, a)) && InvokedOk(Apply(s, a)) && EffectsOk(Apply(s, a))
  {
    EffectsFrame(s, Apply(s, a));
  }

  lemma AttemptStep(s: State, a: Action)
    requires Inv(s) && Enabled(s, a) && a.BeginAttempt?
    ensures Inv(Apply(s, a))
  {
    hide EvidenceOk, CountsOk, OpsOk, ResultsOk, RunningOk, InvokedOk, EffectsOk;
    AttemptEvidence(s, a.workOrder);
    AttemptOps(s, a);
    AttemptResults(s, a);
    AttemptRest(s, a);
  }
}
