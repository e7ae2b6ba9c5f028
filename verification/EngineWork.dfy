/** The steps of an operation, from its started row to the move that concludes its stage, keep the invariant. */
module EngineWork {
  import opened Basics
  import opened EngineState
  import opened EngineSteps
  import opened EngineProof

  /** Only what the task names as active changes. */
  predicate SameTask(t: Task, t': Task) {
    t' == t.(active := t'.active, invocation := t'.invocation)
  }

  lemma SameTaskEvidence(s: State, s': State)
    requires EvidenceOk(s.records, s.approvals, s.task) && CountsOk(s.task)
    requires SameTask(s.task, s'.task) && Grows(s.records, s'.records) && s'.approvals == s.approvals
    ensures EvidenceOk(s'.records, s'.approvals, s'.task) && CountsOk(s'.task)
  {
    EvidenceStays(s.records, s.approvals, s.task, s'.records, s'.task);
  }

  // ---- Starting an operation ----

  lemma StartOps(s: State, a: Action)
    requires OpsOk(s) && CountsOk(s.task) && Enabled(s, a) && a.StartOperation?
    ensures OpsOk(Apply(s, a))
  {
    var s' := Apply(s, a);
    var k := CurrentKey(s.task).value;
    assert Effective(s.task) == s.task.phase && Effective(s'.task) == s.task.phase;
    forall k' | k' in s'.operations ensures OpPlaced(s', k') { if k' != k { assert OpPlaced(s, k'); } }
  }

  lemma StartRest(s: State, a: Action)
    requires InvokedOk(s) && EffectsOk(s) && Enabled(s, a) && a.StartOperation?
    ensures RunningOk(Apply(s, a)) && InvokedOk(Apply(s, a)) && EffectsOk(Apply(s, a))
  {
    EffectsFrame(s, Apply(s, a));
  }

  lemma StartResults(s: State, a: Action)
    requires ResultsOk(s) && Enabled(s, a) && a.StartOperation?
    ensures ResultsOk(Apply(s, a))
  {
    ResultsFrame(s, Apply(s, a));
  }

  lemma StartStep(s: State, a: Action)
    requires Inv(s) && Enabled(s, a) && a.StartOperation?
    ensures Inv(Apply(s, a))
  {
    SameTaskEvidence(s, Apply(s, a));
    StartOps(s, a);
    StartResults(s, a);
    StartRest(s, a);
  }

  // ---- Running it ----

  /** A step of the running process: the store keeps its operations, and gains no effect. */
  ghost predicate Inside(s: State, s': State) {
    && s'.task == s.task
    && s'.operations == s.operations
    && s'.approvals == s.approvals
    && s'.effects == s.effects
    && Grows(s.records, s'.records)
    && (forall i :: i in s'.records && s'.records[i].Receipt? ==> i in s.records)
  }

  lemma InsideStep(s: State, s': State)
    requires Inside(s, s') && EvidenceOk(s.records, s.approvals, s.task) && CountsOk(s.task) && OpsOk(s) && EffectsOk(s)
    requires s.task.phase == Cancelled ==> s'.records == s.records
    ensures EvidenceOk(s'.records, s'.approvals, s'.task) && CountsOk(s'.task) && OpsOk(s') && EffectsOk(s')
  {
    SameTaskEvidence(s, s');
    OpsFrame(s, s');
    EffectsFrame(s, s');
  }

  lemma VolatileStep(s: State, a: Action)
    requires Inv(s) && Enabled(s, a) && (a.EnterBody? || a.Crash? || a.FailedBody?)
    ensures Inv(Apply(s, a))
  {
    InsideStep(s, Apply(s, a));
    ResultsFrame(s, Apply(s, a));
  }

  /** What a model is asked, and its receipt, change no evidence of the task. */
  lemma InvocationStep(s: State, a: Action)
    requires Inv(s) && Enabled(s, a) && (a.Invoke? || a.Respond?)
    ensures Inv(Apply(s, a))
  {
    var s' := Apply(s, a);
    InvocationShape(s, a);
    hide Enabled, Apply, EvidenceOk, CountsOk, OpsOk, ResultsOk, EffectsOk;
    SameTaskEvidence(s, s');
    OpsFrame(s, s');
    EffectsFrame(s, s');
    ResultsFrame(s, s');
  }

  lemma InvocationShape(s: State, a: Action)
    requires RunningOk(s) && Enabled(s, a) && (a.Invoke? || a.Respond?)
    ensures var s' := Apply(s, a);
            && s' == s.(task := s.task.(invocation := s'.task.invocation))
            && CurrentKey(s'.task) == CurrentKey(s.task) && Effective(s'.task) == Effective(s.task)
            && s.task.phase == Effective(s.task) && !Drafting(s.task.phase) && s.task.phase != SpecReady
            && s'.task.phase != Cancelled
  {
  }

  /** The body of an operation made records and a result bound to the current work. */
  lemma BodyDone(s: State, s': State)
    requires Inv(s) && s.running.Some? && Inside(s, s') && s'.invoked == s.invoked
    requires s'.running.Some? && s'.running.value == s.running.value.(result := s'.running.value.result)
    requires s.running.value.entered
    requires s'.running.value.result.Some?
    requires ResultOk(s', s.running.value.key, s.running.value.id, s'.running.value.result.value)
    ensures Inv(s')
  {
    InsideStep(s, s');
    ResultsFrame(s, s');
  }

  lemma PlanStep(s: State, a: Action)
    requires Inv(s) && Enabled(s, a) && (a.PlanBody? || a.PatchBody? || a.TestBody?)
    ensures Inv(Apply(s, a))
  {
    PlanResult(s, a);
    hide Inv, Enabled, Apply, ResultOk;
    BodyDone(s, Apply(s, a));
  }

  lemma PlanResult(s: State, a: Action)
    requires RunningOk(s) && Enabled(s, a) && (a.PlanBody? || a.PatchBody? || a.TestBody?)
    ensures var s' := Apply(s, a);
            && s.running.Some? && s.running.value.entered && Inside(s, s') && s'.invoked == s.invoked
            && s'.running.Some? && s'.running.value == s.running.value.(result := s'.running.value.result)
            && s'.running.value.result.Some?
            && ResultOk(s', s.running.value.key, s.running.value.id, s'.running.value.result.value)
  {
  }

  lemma ReviewBound(s: State, a: Action)
    requires Enabled(s, a) && a.ReviewBody?
    ensures BoundReview(Apply(s, a).records, s.task, Some(a.review))
  {
  }

  lemma ReviewStep(s: State, a: Action)
    requires Inv(s) && Enabled(s, a) && a.ReviewBody?
    ensures Inv(Apply(s, a))
  {
    ReviewBound(s, a);
    BodyDone(s, Apply(s, a));
  }

  /** The simulated effect is the first of the task: its operation is the one of the action request. */
  lemma EffectRecorded(s: State, a: Action)
    requires EffectsOk(s) && RunningOk(s) && Enabled(s, a) && a.EffectBody?
    ensures s.effects == map[]
    ensures EffectsOk(Apply(s, a))
  {
    var s' := Apply(s, a);
    assert s.task.phase == ReadyForPr;
    assert forall o :: o !in s.effects;
    assert s'.effects[s.running.value.id] == a.receipt;
    forall i | i in s'.records && s'.records[i].Receipt? ensures i in s'.effects.Values {
      assert i in s.records && s.records[i].Receipt? ==> i in s.effects.Values;
    }
  }

  lemma EffectRest(s: State, a: Action)
    requires OpsOk(s) && ResultsOk(s) && RunningOk(s) && InvokedOk(s) && Enabled(s, a) && a.EffectBody? && s.effects == map[]
    ensures var s' := Apply(s, a); OpsOk(s') && ResultsOk(s') && RunningOk(s') && InvokedOk(s')
  {
    OpsFrame(s, Apply(s, a));
    ResultsFrame(s, Apply(s, a));
  }

  lemma EffectStep(s: State, a: Action)
    requires Inv(s) && Enabled(s, a) && a.EffectBody?
    ensures Inv(Apply(s, a))
  {
    SameTaskEvidence(s, Apply(s, a));
    EffectRecorded(s, a);
    EffectRest(s, a);
  }

  // ---- Storing its result ----

  /** The result `r` of the operation in slot `k` is stored. */
  function Stored(s: State, k: Key, r: Result): State
    requires k in s.operations
  {
    s.(operations := s.operations[k := s.operations[k].(result := Some(r))],
       running := None,
       task := s.task.(active := None))
  }

  lemma StoredRest(s: State, k: Key, r: Result)
    requires EvidenceOk(s.records, s.approvals, s.task) && CountsOk(s.task) && OpsOk(s) && EffectsOk(s) && InvokedOk(s)
    requires k in s.operations
    ensures var s' := Stored(s, k, r);
            && EvidenceOk(s'.records, s'.approvals, s'.task)
            && CountsOk(s'.task) && OpsOk(s') && EffectsOk(s') && InvokedOk(s') && RunningOk(s')
  {
    var s' := Stored(s, k, r);
    SameTaskEvidence(s, s');
    OpsFrame(s, s');
    EffectsFrame(s, s');
  }

  lemma StoredStep(s: State, k: Key, r: Result)
    requires Inv(s) && k in s.operations && ResultOk(s, k, s.operations[k].id, r)
    ensures Inv(Stored(s, k, r))
  {
    StoredRest(s, k, r);
    ResultFrame(s, Stored(s, k, r), k, s.operations[k].id, r);
    ResultsFrame(s, Stored(s, k, r));
  }

  lemma FinishStep(s: State, a: Action)
    requires Inv(s) && Enabled(s, a) && (a.FinishOperation? || a.FinishFailed?)
    ensures Inv(Apply(s, a))
  {
    var r := if a.FinishOperation? then s.running.value.result.value else Failure;
    StoredStep(s, s.running.value.key, r);
    assert Apply(s, a) == Stored(s, s.running.value.key, r);
  }

  lemma ReconcileStep(s: State, a: Action)
    requires Inv(s) && Enabled(s, a) && a.Reconcile?
    ensures Inv(Apply(s, a))
  {
    var k := CurrentKey(s.task).value;
    var receipt := s.effects[CurrentOp(s).id];
    var r := Result.Acted(receipt, !s.records[receipt].succeeded);
    StoredStep(s, k, r);
    assert Apply(s, a) == Stored(s, k, r);
  }
}
