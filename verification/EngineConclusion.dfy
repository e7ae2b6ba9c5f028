/** The move that concludes a stage keeps the invariant: the result it consumes is bound to the current work. */
module EngineConclusion {
  import opened Basics
  import opened EngineState
  import opened EngineSteps
  import opened EngineProof

  /** The state a conclusion commits. */
  function Concluded(s: State, c: (State, Phase)): State {
    c.0.(task := Moved(c.0.task, c.1))
  }

  predicate CurrentResult(s: State) {
    && Current(s)
    && CurrentOp(s).result.Some?
    && ResultOk(s, CurrentKey(s.task).value, CurrentOp(s).id, CurrentOp(s).result.value)
  }

  lemma ResultOfCurrent(s: State)
    requires ResultsOk(s) && Current(s) && CurrentOp(s).result.Some?
    ensures CurrentResult(s)
  {
  }

  // ---- Evidence, phase by phase ----

  lemma PlanningEvidence(s: State, a: Action)
    requires EvidenceOk(s.records, s.approvals, s.task) && CountsOk(s.task) && CurrentResult(s)
    requires Enabled(s, a) && a.Conclude? && s.task.phase == Planning
    ensures var s' := Apply(s, a); EvidenceOk(s'.records, s'.approvals, s'.task) && CountsOk(s'.task)
  {
    hide CanMove, Binds;
  }

  lemma PatchEvidence(s: State, patch: Id, implementer: Id)
    requires EvidenceOk(s.records, s.approvals, s.task) && CountsOk(s.task) && s.task.phase == Implementing
    requires At(s.records, Some(patch)) == Some(Patch(s.task.workOrder))
    ensures var t' := Moved(s.task.(patch := Some(patch), implementer := Some(implementer)), Testing);
            EvidenceOk(s.records, s.approvals, t') && CountsOk(t')
  {
  }

  lemma TestEvidence(s: State, test: Ref, p: Phase)
    requires EvidenceOk(s.records, s.approvals, s.task) && CountsOk(s.task) && s.task.phase == Testing
    requires p in {Reviewing, ChangesRequested}
    requires p == Reviewing ==> PassingTest(s.records, s.task.(test := test))
    ensures var t' := Moved(s.task.(test := test), p); EvidenceOk(s.records, s.approvals, t') && CountsOk(t')
  {
  }

  lemma BackEvidence(s: State, p: Phase)
    requires EvidenceOk(s.records, s.approvals, s.task) && CountsOk(s.task)
    requires s.task.phase in {Implementing, Testing, Reviewing, ReadyForPr}
    requires p == Failed || (p == ChangesRequested && s.task.phase != ReadyForPr)
    ensures EvidenceOk(s.records, s.approvals, Moved(s.task, p)) && CountsOk(Moved(s.task, p))
  {
    EvidenceFrame(s.records, s.approvals, s.task, s.records, s.approvals, Moved(s.task, p));
  }

  lemma WorkEvidence(s: State, a: Action)
    requires EvidenceOk(s.records, s.approvals, s.task) && CountsOk(s.task) && CurrentResult(s)
    requires Enabled(s, a) && a.Conclude? && s.task.phase in {Implementing, Testing}
    ensures var s' := Apply(s, a); EvidenceOk(s'.records, s'.approvals, s'.task) && CountsOk(s'.task)
  {
    var r := CurrentOp(s).result.value;
    if r.Patched? {
      PatchEvidence(s, r.patch, r.implementer);
    } else if r.Tested? {
      TestEvidence(s, Some(r.test), if r.failed then ChangesRequested else Reviewing);
    } else {
      BackEvidence(s, ChangesRequested);
    }
  }

  /** An accepted review, with its action request `first` and approval request `second`. */
  function Accepting(s: State, review: Id, first: Id, second: Id, op: Id, expires: Time): State {
    var t := s.task.(review := Some(review), actionRequest := Some(first));
    s.(task := WithRequest(t, ActionKind, second),
       records := s.records[first := ActionRequest(op, t.patch, t.test, t.review)][second := NewRequest(t, ActionKind, expires)])
  }

  /** The evidence of a reviewed task, completed by what its acceptance adds. */
  lemma AcceptedEvidence(s: State, s': State)
    requires EvidenceOk(s.records, s.approvals, s.task) && s.task.phase == Reviewing
    requires Grows(s.records, s'.records) && SameWork(s.task, s'.task) && s'.task.phase == AwaitingActionApproval
    requires PassingTest(s'.records, s'.task) && AcceptingReview(s'.records, s'.task)
    requires BoundReview(s'.records, s'.task, s'.task.review) && BoundAction(s'.records, s'.task)
    requires Binds(s'.records, s'.approvals, s'.task, PlanKind)
    ensures EvidenceOk(s'.records, s'.approvals, s'.task)
  {
    hide PassingTest, AcceptingReview, BoundReview, BoundAction, Binds;
  }

  /** Moving on changes none of what the guards of the move looked at. */
  lemma MovedBinds(m: State, p: Phase)
    requires PassingTest(m.records, m.task) && AcceptingReview(m.records, m.task) && Binds(m.records, m.approvals, m.task, PlanKind)
    ensures var t := Moved(m.task, p);
            PassingTest(m.records, t) && AcceptingReview(m.records, t) && Binds(m.records, m.approvals, t, PlanKind)
  {
    BindsFrame(m.records, m.approvals, m.task, m.records, m.approvals, Moved(m.task, p), PlanKind);
  }

  lemma AcceptingFields(s: State, review: Id, first: Id, second: Id, op: Id, expires: Time)
    requires first !in s.records && second !in s.records && first != second
    ensures var m := Accepting(s, review, first, second, op, expires);
            && Grows(s.records, m.records) && SameWork(s.task, m.task) && m.approvals == s.approvals
            && m.task.review == Some(review) && BoundAction(m.records, m.task)
  {
    var t := s.task.(review := Some(review), actionRequest := Some(first));
    RequestFields(t, ActionKind, second);
  }

  lemma RequestFields(t: Task, kind: Kind, q: Id)
    ensures var t' := WithRequest(t, kind, q);
            && SameWork(t, t') && t'.planningAttempt == t.planningAttempt && t'.actionRequest == t.actionRequest
            && t'.phase == t.phase && t'.review == t.review
  {
  }

  lemma AcceptingEvidence(s: State, review: Id, first: Id, second: Id, op: Id, expires: Time, now: Time)
    requires EvidenceOk(s.records, s.approvals, s.task) && s.task.phase == Reviewing
    requires BoundReview(s.records, s.task, Some(review))
    requires first !in s.records && second !in s.records && first != second
    requires CanMove(Accepting(s, review, first, second, op, expires), Accepting(s, review, first, second, op, expires).task,
                     AwaitingActionApproval, now)
    ensures var s' := Concluded(s, (Accepting(s, review, first, second, op, expires), AwaitingActionApproval));
            EvidenceOk(s'.records, s'.approvals, s'.task)
  {
    var m := Accepting(s, review, first, second, op, expires);
    AcceptingFields(s, review, first, second, op, expires);
    hide Accepting, EvidenceOk, BoundReview, PassingTest, AcceptingReview, Binds;
    MovedBinds(m, AwaitingActionApproval);
    var s' := Concluded(s, (m, AwaitingActionApproval));
    ReviewFrame(s.records, s.task, s'.records, s'.task, Some(review));
    AcceptedEvidence(s, s');
  }

  lemma ReviewingEvidence(s: State, a: Action)
    requires EvidenceOk(s.records, s.approvals, s.task) && CountsOk(s.task) && CurrentResult(s)
    requires Enabled(s, a) && a.Conclude? && s.task.phase == Reviewing
    ensures var s' := Apply(s, a); EvidenceOk(s'.records, s'.approvals, s'.task) && CountsOk(s'.task)
  {
    hide Binds, PassingTest, AcceptingReview, BoundReview, BoundAction, EvidenceOk;
    var r := CurrentOp(s).result.value;
    var s' := Apply(s, a);
    if s'.task.phase == AwaitingActionApproval {
      AcceptingEvidence(s, r.review, a.first, a.second, a.op, a.expires, a.now);
      assert s' == Concluded(s, (Accepting(s, r.review, a.first, a.second, a.op, a.expires), AwaitingActionApproval));
    } else {
      RefusedEvidence(s, s'.task.review);
      assert s' == s.(task := Moved(s.task.(review := s'.task.review), ChangesRequested));
    }
  }

  lemma RefusedEvidence(s: State, review: Ref)
    requires EvidenceOk(s.records, s.approvals, s.task) && CountsOk(s.task) && s.task.phase == Reviewing
    ensures var t := Moved(s.task.(review := review), ChangesRequested);
            EvidenceOk(s.records, s.approvals, t) && CountsOk(t)
  {
    EvidenceFrame(s.records, s.approvals, s.task, s.records, s.approvals, Moved(s.task.(review := review), ChangesRequested));
  }

  lemma PullRequestEvidence(s: State, receipt: Id)
    requires EvidenceOk(s.records, s.approvals, s.task) && CountsOk(s.task) && s.task.phase == ReadyForPr
    ensures var t' := Moved(s.task.(external := Some(receipt)), PrCreated);
            EvidenceOk(s.records, s.approvals, t') && CountsOk(t')
  {
    var t' := Moved(s.task.(external := Some(receipt)), PrCreated);
    BindsFrame(s.records, s.approvals, s.task, s.records, s.approvals, t', ActionKind);
    EvidenceFrame(s.records, s.approvals, s.task, s.records, s.approvals, t');
  }

  lemma ActionEvidence(s: State, a: Action)
    requires EvidenceOk(s.records, s.approvals, s.task) && CountsOk(s.task) && CurrentResult(s)
    requires Enabled(s, a) && a.Conclude? && s.task.phase == ReadyForPr
    ensures var s' := Apply(s, a); EvidenceOk(s'.records, s'.approvals, s'.task) && CountsOk(s'.task)
  {
    var r := CurrentOp(s).result.value;
    var acted := r.Acted? && !r.failed;
    if acted { PullRequestEvidence(s, r.receipt); } else { BackEvidence(s, Failed); }
    ActionShape(s, a);
    hide EvidenceOk, CountsOk, Enabled, Apply, CurrentResult;
    if r.Acted? && r.failed { ExternalIsNoEvidence(s, Moved(s.task, Failed), Some(r.receipt)); }
  }

  lemma ActionShape(s: State, a: Action)
    requires Enabled(s, a) && a.Conclude? && s.task.phase == ReadyForPr
    ensures Current(s) && CurrentOp(s).result.Some?
    ensures var s', r := Apply(s, a), CurrentOp(s).result.value;
            && s'.records == s.records && s'.approvals == s.approvals
            && s'.task == Moved(if r.Acted? then s.task.(external := Some(r.receipt)) else s.task,
                                if r.Acted? && !r.failed then PrCreated else Failed)
  {
    hide CanMove;
  }

  lemma ExternalIsNoEvidence(s: State, t: Task, external: Ref)
    requires EvidenceOk(s.records, s.approvals, t) && CountsOk(t) && Effective(t) == Failed
    ensures EvidenceOk(s.records, s.approvals, t.(external := external)) && CountsOk(t.(external := external))
  {
  }

  // ---- Operations and results ----

  /** What every conclusion leaves alone. */
  ghost predicate Kept(s: State, s': State) {
    && s'.operations == s.operations
    && s'.effects == s.effects
    && s'.approvals == s.approvals
    && s'.invoked == s.invoked
    && s'.running == None && s.running == None
    && Grows(s.records, s'.records)
    && (forall i :: i in s'.records && s'.records[i].Receipt? ==> i in s.records)
    && s'.task.spec == s.task.spec
    && s'.task.workOrder == s.task.workOrder
    && s'.task.attempt == s.task.attempt
    && s'.task.planningAttempt == s.task.planningAttempt
  }

  /** The stage's own fields change only when no result of a later stage depends on them. */
  predicate ChangesOwn(s: State, s': State) {
    && (s.task.phase in {Reviewing, ReadyForPr} ==>
          s'.task.plan == s.task.plan && s'.task.patch == s.task.patch && s'.task.implementer == s.task.implementer
          && s'.task.test == s.task.test)
    && (s'.task.actionRequest != s.task.actionRequest ==> s.task.phase == Reviewing)
    && ForwardPhase(s.task.phase, s'.task.phase)
    && !Drafting(s'.task.phase) && s'.task.phase !in {SpecReady, Blocked, Cancelled, Completed}
  }

  /** A conclusion that makes no record. */
  lemma PlainShape(s: State, t: Task, p: Phase)
    requires s.running == None && CurrentKey(s.task).Some? && s.task.phase != Planning
    requires t == s.task.(patch := t.patch, implementer := t.implementer, test := t.test, review := t.review,
                          external := t.external)
    requires s.task.phase in {Reviewing, ReadyForPr} ==>
               t.patch == s.task.patch && t.implementer == s.task.implementer && t.test == s.task.test
    requires ForwardPhase(s.task.phase, p) && p in {Testing, Reviewing, ChangesRequested, PrCreated, Failed}
    ensures Kept(s, Concluded(s, (s.(task := t), p))) && ChangesOwn(s, Concluded(s, (s.(task := t), p)))
  {
  }

  lemma RequestGrows(s: State, first: Id, x: Record, second: Id, y: Record)
    requires first !in s.records && second !in s.records && first != second && !x.Receipt? && !y.Receipt?
    ensures Grows(s.records, s.records[first := x]) && Grows(s.records, s.records[first := x][second := y])
    ensures forall i :: i in s.records[first := x] && s.records[first := x][i].Receipt? ==> i in s.records
    ensures forall i :: i in s.records[first := x][second := y] && s.records[first := x][second := y][i].Receipt? ==> i in s.records
  {
  }

  lemma PlanningShape(s: State, r: Result, first: Id, second: Id, op: Id, expires: Time)
    requires s.running == None && first !in s.records && s.task.phase == Planning
    ensures var s' := Concluded(s, Concluding(s, r, first, second, op, expires)); Kept(s, s') && ChangesOwn(s, s')
  {
    if r.PlanMade? { RequestFields(s.task.(plan := Some(r.plan)), PlanKind, first); }
  }

  lemma AcceptingShape(s: State, review: Id, first: Id, second: Id, op: Id, expires: Time)
    requires s.running == None && first !in s.records && second !in s.records && first != second
    requires s.task.phase == Reviewing
    ensures var s' := Concluded(s, (Accepting(s, review, first, second, op, expires), AwaitingActionApproval));
            Kept(s, s') && ChangesOwn(s, s')
  {
    var t := s.task.(review := Some(review), actionRequest := Some(first));
    RequestFields(t, ActionKind, second);
    RequestGrows(s, first, ActionRequest(op, t.patch, t.test, t.review), second, NewRequest(t, ActionKind, expires));
  }

  lemma ConcludingShape(s: State, r: Result, first: Id, second: Id, op: Id, expires: Time)
    requires s.running == None && first !in s.records && second !in s.records && first != second
    requires CurrentKey(s.task).Some?
    ensures var s' := Concluded(s, Concluding(s, r, first, second, op, expires)); Kept(s, s') && ChangesOwn(s, s')
  {
    var (m, p) := Concluding(s, r, first, second, op, expires);
    if s.task.phase == Planning {
      PlanningShape(s, r, first, second, op, expires);
    } else if p == AwaitingActionApproval {
      assert m == Accepting(s, r.review, first, second, op, expires);
      AcceptingShape(s, r.review, first, second, op, expires);
    } else {
      assert m == s.(task := m.task);
      PlainShape(s, m.task, p);
    }
  }

  lemma ConclusionShape(s: State, a: Action)
    requires Enabled(s, a) && a.Conclude?
    ensures Kept(s, Apply(s, a)) && ChangesOwn(s, Apply(s, a))
  {
    var r := CurrentOp(s).result.value;
    ConcludingShape(s, r, a.first, a.second, a.op, a.expires);
    assert Apply(s, a) == Concluded(s, Concluding(s, r, a.first, a.second, a.op, a.expires));
  }

  lemma OneResult(s: State, s': State, k: Key, id: Id, r: Result)
    requires Kept(s, s') && ChangesOwn(s, s') && CountsOk(s.task) && OpPlaced(s, k) && CurrentKey(s.task).Some?
    requires ResultOk(s, k, id, r)
    ensures ResultOk(s', k, id, r)
  {
    if r.Reviewed? && k.slot == s.task.attempt {
      assert Effective(s.task) == s.task.phase && s.task.phase in {Reviewing, ReadyForPr};
      ReviewFrame(s.records, s.task, s'.records, s'.task, Some(r.review));
    }
  }

  lemma ConclusionResults(s: State, s': State)
    requires Kept(s, s') && ChangesOwn(s, s') && CountsOk(s.task) && CurrentKey(s.task).Some? && OpsOk(s) && ResultsOk(s)
    ensures ResultsOk(s')
  {
    forall k | k in s'.operations && s'.operations[k].result.Some?
      ensures ResultOk(s', k, s'.operations[k].id, s'.operations[k].result.value)
    {
      OneResult(s, s', k, s.operations[k].id, s.operations[k].result.value);
    }
  }

  lemma ConclusionOps(s: State, s': State)
    requires Kept(s, s') && ChangesOwn(s, s') && CountsOk(s.task) && CurrentKey(s.task).Some? && OpsOk(s)
    requires CountsOk(s'.task)
    ensures OpsOk(s')
  {
    assert Effective(s.task) == s.task.phase && Effective(s'.task) == s'.task.phase;
    OpsFrame(s, s');
  }

  lemma ConclusionEffects(s: State, a: Action)
    requires Enabled(s, a) && a.Conclude? && CurrentResult(s) && CountsOk(s.task) && OpsOk(s) && EffectsOk(s)
    ensures EffectsOk(Apply(s, a))
  {
    var s' := Apply(s, a);
    ConclusionShape(s, a);
    assert Effective(s.task) == s.task.phase;
    if s.task.phase == Reviewing { NoEffectYet(s); }
    if s'.task.phase == PrCreated {
      PullRequestEffects(s, a);
    } else {
      EffectsFrame(s, s');
    }
  }

  lemma PullRequestEffects(s: State, a: Action)
    requires Enabled(s, a) && a.Conclude? && CurrentResult(s) && EffectsOk(s) && s.task.phase == ReadyForPr
    requires Apply(s, a).task.phase == PrCreated
    ensures EffectsOk(Apply(s, a))
  {
    var s' := Apply(s, a);
    var r := CurrentOp(s).result.value;
    assert s.effects[CurrentOp(s).id] == r.receipt;
    assert s'.records == s.records;
    assert SucceededReceipt(s.records, s'.task.external);
  }

  lemma ConcludeStep(s: State, a: Action)
    requires Inv(s) && Enabled(s, a) && a.Conclude?
    ensures Inv(Apply(s, a))
  {
    var s' := Apply(s, a);
    ResultOfCurrent(s);
    match s.task.phase {
      case Planning => PlanningEvidence(s, a);
      case Implementing => WorkEvidence(s, a);
      case Testing => WorkEvidence(s, a);
      case Reviewing => ReviewingEvidence(s, a);
      case _ => ActionEvidence(s, a);
    }
    ConclusionShape(s, a);
    ConclusionResults(s, s');
    ConclusionOps(s, s');
    ConclusionEffects(s, a);
  }
}
