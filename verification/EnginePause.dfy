/** A pause is never a dead end: a pending request can be decided until it expires and renewed after, and a
    blocked worker operation can be recovered exactly while its plan approval is live. */
module EnginePause {
  import opened Basics
  import opened EngineState
  import opened EngineSteps
  import opened EngineProof
  import opened EngineConclusion
  import opened EngineRuns

  predicate Awaiting(p: Phase) { p in {AwaitingPlanApproval, AwaitingActionApproval} }

  function AwaitedKind(p: Phase): Kind { if p == AwaitingPlanApproval then PlanKind else ActionKind }

  /** The pending request is the current one of its kind, over the current subject and evidence, at this revision. */
  predicate PendingOk(s: State) {
    Awaiting(s.task.phase) ==>
      var t, k := s.task, AwaitedKind(s.task.phase);
      && t.pending.Some?
      && t.pending == RequestOf(t, k)
      && t.pending.value !in s.approvals
      && PendingRequest(s)
      && Pending(s) == ApprovalRequest(k, Subject(t, k), Expected(t, k), t.revision,
                                       Scope(Subject(t, k), Expected(t, k), t.revision), Pending(s).expires)
  }

  ghost predicate ApprovalsOk(s: State) {
    forall q :: q in s.approvals ==> q in s.records
  }

  /** The operation slot of the stage the task is in, or was blocked in. */
  function StageKey(t: Task): Option<Key> {
    CurrentKey(t.(phase := Effective(t)))
  }

  /** Only the current slot can be unfinished, and then the task names its operation as active. */
  ghost predicate QuietOk(s: State) {
    && (forall k :: k in s.operations && s.operations[k].result == None ==>
          StageKey(s.task) == Some(k) && s.task.active == Some(s.operations[k].id))
    && (s.task.active.Some? ==>
          && StageKey(s.task).Some? && StageKey(s.task).value in s.operations
          && s.operations[StageKey(s.task).value].result == None)
    && (s.task.phase == Blocked ==> s.task.active.Some?)
  }

  /** A result that only a model's answer can give. */
  predicate FromModel(r: Result) { r.PlanMade? || r.Patched? || r.Reviewed? }

  /** An invocation still recorded as active has given the current stage no result, and no request waits on it. */
  ghost predicate InvocationOk(s: State) {
    s.task.invocation.Some? ==>
      && !Awaiting(s.task.phase)
      && (s.running.Some? && s.running.value.result.Some? ==> !FromModel(s.running.value.result.value))
      && (CurrentKey(s.task).Some? && CurrentKey(s.task).value in s.operations ==>
            var r := s.operations[CurrentKey(s.task).value].result; r.Some? ==> !FromModel(r.value))
  }

  ghost predicate PauseInv(s: State) {
    PendingOk(s) && ApprovalsOk(s) && QuietOk(s) && InvocationOk(s)
  }

  lemma StartPause()
    ensures PauseInv(Start())
  {
  }

  // ---- Pending requests ----

  lemma RequestIsPending(t: Task, kind: Kind, q: Id)
    ensures var t' := WithRequest(t, kind, q);
            && t'.pending == Some(q) && RequestOf(t', kind) == Some(q) && DecisionOf(t', kind) == None
            && Subject(t', kind) == Subject(t, kind) && Expected(t', kind) == Expected(t, kind)
            && t'.revision == t.revision && t'.phase == t.phase
  {
  }

  /** A request made at the revision that the next move will reach is current once it is reached. */
  lemma RequestedPending(s: State, t: Task, kind: Kind, q: Id, expires: Time, s': State)
    requires ApprovalsOk(s) && q !in s.records && s'.approvals == s.approvals
    requires q in s'.records && s'.records[q] == NewRequest(t, kind, expires)
    requires var w := WithRequest(t, kind, q);
             s'.task == w.(phase := s'.task.phase, revision := w.revision + 1, resume := s'.task.resume, confirmed := s'.task.confirmed)
    requires s'.task.phase == Required(kind)
    ensures PendingOk(s')
  {
    RequestIsPending(t, kind, q);
  }

  lemma RenewPending(s: State, a: Action)
    requires ApprovalsOk(s) && Enabled(s, a) && a.Renew?
    ensures PendingOk(Apply(s, a))
    ensures DecisionOf(Apply(s, a).task, Pending(s).kind) == None
  {
    RequestIsPending(s.task, Pending(s).kind, a.request);
    RequestedPending(s, s.task, Pending(s).kind, a.request, a.expires, Apply(s, a));
  }

  lemma ConcludePending(s: State, a: Action)
    requires ApprovalsOk(s) && Enabled(s, a) && a.Conclude?
    ensures PendingOk(Apply(s, a))
  {
    var r := CurrentOp(s).result.value;
    var s' := Apply(s, a);
    ConcludingRequests(s, r, a.first, a.second, a.op, a.expires);
    assert s' == Concluded(s, Concluding(s, r, a.first, a.second, a.op, a.expires));
    hide Enabled, Apply, Concluding;
    if s'.task.phase == AwaitingPlanApproval {
      RequestedPending(s, s.task.(plan := Some(r.plan)), PlanKind, a.first, a.expires, s');
    } else if s'.task.phase == AwaitingActionApproval {
      RequestedPending(s, s.task.(review := Some(r.review), actionRequest := Some(a.first)), ActionKind, a.second, a.expires, s');
    }
  }

  /** The two conclusions that ask for a decision. */
  lemma ConcludingRequests(s: State, r: Result, first: Id, second: Id, op: Id, expires: Time)
    requires CurrentKey(s.task).Some? && first != second
    ensures var (m, p) := Concluding(s, r, first, second, op, expires);
            && m.approvals == s.approvals
            && (p == AwaitingPlanApproval ==>
                  && r.PlanMade?
                  && var t := s.task.(plan := Some(r.plan));
                     m.task == WithRequest(t, PlanKind, first) && first in m.records && m.records[first] == NewRequest(t, PlanKind, expires))
            && (p == AwaitingActionApproval ==>
                  && r.Reviewed?
                  && var t := s.task.(review := Some(r.review), actionRequest := Some(first));
                     m.task == WithRequest(t, ActionKind, second) && second in m.records && m.records[second] == NewRequest(t, ActionKind, expires))
  {
    hide WithRequest, NewRequest;
  }

  /** Outside the two, no step pauses the task for a decision, and only a crash leaves it there. */
  lemma OthersDoNotAwait(s: State, a: Action)
    requires RunningOk(s) && Enabled(s, a) && !a.Renew? && !a.Conclude?
    ensures Awaiting(Apply(s, a).task.phase) ==> a.Crash?
  {
    hide CanMove, Approved, Recoverable;
    if a.Approve? { ApprovalLeaves(s, a); }
  }

  lemma ApprovalLeaves(s: State, a: Action)
    requires Enabled(s, a) && a.Approve?
    ensures !Awaiting(Apply(s, a).task.phase)
  {
    hide CanMove;
  }

  lemma PendingStep(s: State, a: Action)
    requires RunningOk(s) && PendingOk(s) && ApprovalsOk(s) && Enabled(s, a)
    ensures PendingOk(Apply(s, a))
  {
    if a.Renew? { RenewPending(s, a); }
    else if a.Conclude? { ConcludePending(s, a); }
    else {
      OthersDoNotAwait(s, a);
      if a.Crash? { assert PendingOk(s.(running := None)); }
      hide Enabled;
      if !a.Crash? { hide Apply; }
    }
  }

  // ---- Invocations ----

  /** Between stages: the next slot, if there is one, has not been started. */
  lemma FreshSlot(s: State, s': State)
    requires InvocationOk(s) && s'.task.invocation == s.task.invocation && s'.running == None
    requires s.task.invocation.Some? ==> !Awaiting(s'.task.phase)
    requires CurrentKey(s'.task).Some? ==> CurrentKey(s'.task).value !in s'.operations
    ensures InvocationOk(s')
  {
  }

  lemma BodyInvocation(s: State, a: Action)
    requires InvocationOk(s) && RunningOk(s) && Enabled(s, a) && (Runs(a) || a.StartOperation? || a.FinishOperation? || a.FinishFailed? || a.Reconcile?)
    ensures InvocationOk(Apply(s, a))
  {
    if Runs(a) { AnswersInvocation(s, a); } else { StoresInvocation(s, a); }
    hide InvocationOk, RunningOk, Enabled, Apply;
  }

  lemma AnswersInvocation(s: State, a: Action)
    requires InvocationOk(s) && RunningOk(s) && Enabled(s, a) && Runs(a)
    ensures InvocationOk(Apply(s, a))
  {
    hide Approved;
  }

  lemma StoresInvocation(s: State, a: Action)
    requires InvocationOk(s) && RunningOk(s) && Enabled(s, a)
    requires a.StartOperation? || a.FinishOperation? || a.FinishFailed? || a.Reconcile?
    ensures InvocationOk(Apply(s, a))
  {
    hide Approved;
  }

  lemma DecidesInvocation(s: State, a: Action)
    requires InvocationOk(s) && RunningOk(s) && OpsOk(s) && CountsOk(s.task) && Enabled(s, a) && Decides(a)
    ensures InvocationOk(Apply(s, a))
  {
    DecidesFreely(s, a);
    hide Enabled, Apply, OpsOk, RunningOk;
    if s.task.invocation.Some? { FreshSlot(s, Apply(s, a)); }
  }

  lemma DecidesFreely(s: State, a: Action)
    requires InvocationOk(s) && RunningOk(s) && OpsOk(s) && CountsOk(s.task) && Enabled(s, a) && Decides(a)
    ensures var s' := Apply(s, a);
            && s'.task.invocation == s.task.invocation
            && (s.task.invocation.Some? ==>
                  && s'.running == None && !Awaiting(s'.task.phase)
                  && (CurrentKey(s'.task).Some? ==> CurrentKey(s'.task).value !in s'.operations))
  {
    hide CanMove, Approved;
    assert forall k :: k in s.operations ==> OpPlaced(s, k);
  }

  lemma ConcludesInvocation(s: State, a: Action)
    requires InvocationOk(s) && OpsOk(s) && Enabled(s, a) && a.Conclude?
    ensures InvocationOk(Apply(s, a))
  {
    ConclusionShape(s, a);
    ConcludingInvocation(s, CurrentOp(s).result.value, a.first, a.second, a.op, a.expires);
    var s' := Apply(s, a);
    assert s' == Concluded(s, Concluding(s, CurrentOp(s).result.value, a.first, a.second, a.op, a.expires));
    assert forall k :: k in s.operations ==> OpPlaced(s, k);
    hide Enabled, Apply, Concluding;
    if s.task.invocation.Some? { FreshSlot(s, s'); }
  }

  lemma ConcludingInvocation(s: State, r: Result, first: Id, second: Id, op: Id, expires: Time)
    requires CurrentKey(s.task).Some?
    ensures var (m, p) := Concluding(s, r, first, second, op, expires);
            && m.task.invocation == s.task.invocation && m.task.attempt == s.task.attempt && m.operations == s.operations
            && (!FromModel(r) ==> p in {Failed, ChangesRequested, PrCreated} || (p == Reviewing && s.task.phase == Testing))
  {
  }

  lemma InvocationKept(s: State, a: Action)
    requires InvocationOk(s) && RunningOk(s) && OpsOk(s) && CountsOk(s.task) && Enabled(s, a)
    ensures InvocationOk(Apply(s, a))
  {
    hide InvocationOk, Enabled, Apply, RunningOk, OpsOk, CountsOk;
    if Decides(a) { DecidesInvocation(s, a); }
    else if a.Conclude? { ConcludesInvocation(s, a); }
    else if a.Recover? || a.Uncertain? || a.BlockUnresolved? { LeavesStage(s, a); }
    else { BodyInvocation(s, a); }
  }

  lemma LeavesStage(s: State, a: Action)
    requires InvocationOk(s) && RunningOk(s) && Enabled(s, a) && (a.Recover? || a.Uncertain? || a.BlockUnresolved?)
    ensures InvocationOk(Apply(s, a))
  {
    hide CanMove, Approved, Recoverable;
    FreshSlot(s, Apply(s, a));
  }

  // ---- Approvals and unfinished operations ----

  lemma ApprovalsStep(s: State, a: Action)
    requires ApprovalsOk(s) && Enabled(s, a)
    ensures ApprovalsOk(Apply(s, a))
  {
    hide CanMove, Approved, Recoverable;
    if a.Conclude? { ConclusionShape(s, a); }
  }

  lemma StoresQuietly(s: State, a: Action)
    requires RunningOk(s) && CountsOk(s.task) && QuietOk(s) && Enabled(s, a)
    requires a.StartOperation? || a.FinishOperation? || a.FinishFailed? || a.Reconcile?
    ensures QuietOk(Apply(s, a))
  {
    hide Approved;
    assert Effective(s.task) == s.task.phase;
  }

  lemma RecoverQuietly(s: State, a: Action)
    requires QuietOk(s) && Enabled(s, a) && a.Recover?
    ensures QuietOk(Apply(s, a))
  {
    hide Approved, CanMove;
    var k :| k in s.operations && Recoverable(s, k) && Apply(s, a) == Recovered(s, k, Apply(s, a).memory);
  }

  lemma BlocksQuietly(s: State, a: Action)
    requires RunningOk(s) && CountsOk(s.task) && QuietOk(s) && Enabled(s, a) && (a.Uncertain? || a.BlockUnresolved?)
    ensures QuietOk(Apply(s, a))
  {
    BlocksShape(s, a);
    hide *;
    BlockedQuietly(s, Apply(s, a));
  }

  lemma BlockedQuietly(s: State, s': State)
    requires QuietOk(s) && s'.task == Moved(s.task, Blocked) && s'.operations == s.operations
    requires Effective(s.task) == s.task.phase
    requires CurrentKey(s.task).Some? && CurrentKey(s.task).value in s.operations
    requires s.operations[CurrentKey(s.task).value].result == None
    ensures QuietOk(s')
  {
    assert StageKey(s'.task) == CurrentKey(s.task) == StageKey(s.task);
  }

  lemma BlocksShape(s: State, a: Action)
    requires RunningOk(s) && CountsOk(s.task) && Enabled(s, a) && (a.Uncertain? || a.BlockUnresolved?)
    ensures var s' := Apply(s, a);
            && s'.task == Moved(s.task, Blocked) && s'.operations == s.operations
            && CurrentKey(s.task).Some? && CurrentKey(s.task).value in s.operations
            && s.operations[CurrentKey(s.task).value].result == None && Effective(s.task) == s.task.phase
  {
  }

  /** Without an unfinished operation the task may move anywhere. */
  lemma MovesQuietly(s: State, s': State)
    requires QuietOk(s) && s.task.active == None && s'.operations == s.operations && s'.task.active == None
    requires s'.task.phase != Blocked
    ensures QuietOk(s')
  {
  }

  lemma ConcludesQuietly(s: State, a: Action)
    requires CountsOk(s.task) && QuietOk(s) && Enabled(s, a) && a.Conclude?
    ensures QuietOk(Apply(s, a))
  {
    ConcludesFreely(s, a);
    hide Enabled, Apply, QuietOk;
    MovesQuietly(s, Apply(s, a));
  }

  lemma ConcludesFreely(s: State, a: Action)
    requires CountsOk(s.task) && QuietOk(s) && Enabled(s, a) && a.Conclude?
    ensures var s' := Apply(s, a);
            s.task.active == None && s'.task.active == None && s'.operations == s.operations && s'.task.phase != Blocked
  {
    ConclusionShape(s, a);
    assert Effective(s.task) == s.task.phase;
    assert s.task.active == None;
    ConcludingActive(s, CurrentOp(s).result.value, a.first, a.second, a.op, a.expires);
  }

  lemma ConcludingActive(s: State, r: Result, first: Id, second: Id, op: Id, expires: Time)
    ensures Concluding(s, r, first, second, op, expires).0.task.active == s.task.active
  {
  }

  predicate Decides(a: Action) {
    a.Draft? || a.Ask? || a.Answer? || a.Confirm? || a.Approve? || a.Renew? || a.Cancel?
    || a.BeginPlanning? || a.BeginAttempt? || a.SettleChanges? || a.Complete?
  }

  /** These happen between stages, when nothing is unfinished, and lead to no block. */
  lemma DecidesQuietly(s: State, a: Action)
    requires CountsOk(s.task) && QuietOk(s) && Enabled(s, a) && Decides(a)
    ensures QuietOk(Apply(s, a))
  {
    DecidesBetween(s, a);
    MovesQuietly(s, Apply(s, a));
  }

  lemma DecidesBetween(s: State, a: Action)
    requires CountsOk(s.task) && QuietOk(s) && Enabled(s, a) && Decides(a)
    ensures var s' := Apply(s, a);
            && s.task.active == None && s'.task.active == None && s'.operations == s.operations && s'.task.phase != Blocked
  {
    if a.Approve? || a.Renew? || a.Cancel? { HumanBetween(s, a); } else { OwnBetween(s, a); }
    hide Enabled, Apply, QuietOk, CountsOk;
  }

  lemma HumanBetween(s: State, a: Action)
    requires CountsOk(s.task) && QuietOk(s) && Enabled(s, a) && (a.Approve? || a.Renew? || a.Cancel?)
    ensures var s' := Apply(s, a);
            && s.task.active == None && s'.task.active == None && s'.operations == s.operations && s'.task.phase != Blocked
  {
    hide CanMove;
    if a.Approve? {
      assert s.task.phase == Required(Pending(s).kind);
      assert StageKey(s.task) == None;
    }
  }

  lemma OwnBetween(s: State, a: Action)
    requires CountsOk(s.task) && QuietOk(s) && Enabled(s, a) && Decides(a) && !(a.Approve? || a.Renew? || a.Cancel?)
    ensures var s' := Apply(s, a);
            && s.task.active == None && s'.task.active == None && s'.operations == s.operations && s'.task.phase != Blocked
  {
    hide CanMove, Approved;
    assert StageKey(s.task) == None;
  }

  predicate Runs(a: Action) {
    a.EnterBody? || a.Invoke? || a.Respond? || a.PlanBody? || a.PatchBody? || a.TestBody? || a.ReviewBody? || a.EffectBody? || a.FailedBody? || a.Crash?
  }

  lemma RunsShape(s: State, a: Action)
    requires Enabled(s, a) && Runs(a)
    ensures var s' := Apply(s, a); s'.task == s.task.(invocation := s'.task.invocation) && s'.operations == s.operations
  {
    hide Approved;
    if a.PlanBody? || a.PatchBody? || a.TestBody? || a.ReviewBody? || a.EffectBody? || a.FailedBody? {
      BodyStays(s, a);
      hide Enabled, Apply;
    }
  }

  lemma BodyStays(s: State, a: Action)
    requires Enabled(s, a)
    requires a.PlanBody? || a.PatchBody? || a.TestBody? || a.ReviewBody? || a.EffectBody? || a.FailedBody?
    ensures Apply(s, a).task == s.task && Apply(s, a).operations == s.operations
  {
    hide Approved;
  }

  lemma RunsQuietly(s: State, a: Action)
    requires QuietOk(s) && Enabled(s, a) && Runs(a)
    ensures QuietOk(Apply(s, a))
  {
    RunsShape(s, a);
    hide Enabled, Apply;
    assert StageKey(Apply(s, a).task) == StageKey(s.task);
  }

  lemma QuietStep(s: State, a: Action)
    requires RunningOk(s) && CountsOk(s.task) && QuietOk(s) && Enabled(s, a)
    ensures QuietOk(Apply(s, a))
  {
    hide QuietOk, Enabled, Apply, RunningOk, CountsOk;
    if Decides(a) { DecidesQuietly(s, a); }
    else if Runs(a) { RunsQuietly(s, a); }
    else if a.Recover? { RecoverQuietly(s, a); }
    else if a.Conclude? { ConcludesQuietly(s, a); }
    else if a.Uncertain? || a.BlockUnresolved? { BlocksQuietly(s, a); }
    else { StoresQuietly(s, a); }
  }

  lemma {:induction false} RunKeepsPauses(ss: seq<State>, acts: seq<Action>, i: nat)
    requires Run(ss, acts) && i <= |acts|
    ensures PauseInv(ss[i])
  {
    if i == 0 {
      StartPause();
    } else {
      RunKeepsPauses(ss, acts, i - 1);
      RunKeepsInv(ss, acts, i - 1);
      assert Next(ss[i - 1], acts[i - 1], ss[i]);
      hide Enabled, Apply, PendingOk, ApprovalsOk, QuietOk, InvocationOk, EvidenceOk, CountsOk, OpsOk, ResultsOk, RunningOk, InvokedOk, EffectsOk;
      InvocationKept(ss[i - 1], acts[i - 1]);
      PendingStep(ss[i - 1], acts[i - 1]);
      ApprovalsStep(ss[i - 1], acts[i - 1]);
      QuietStep(ss[i - 1], acts[i - 1]);
    }
  }

  // ---- No pause is a dead end ----

  /** What is awaited has its evidence in the store. */
  lemma AwaitedEvidence(s: State)
    requires EvidenceOk(s.records, s.approvals, s.task) && Awaiting(s.task.phase)
    ensures var k := AwaitedKind(s.task.phase);
            At(s.records, Subject(s.task, k)).Some? && AllPresent(s.records, Expected(s.task, k))
    ensures s.task.phase == AwaitingActionApproval ==> PassingTest(s.records, s.task) && AcceptingReview(s.records, s.task)
  {
    assert Effective(s.task) == s.task.phase;
    hide Binds;
  }

  /** Recording a decision of the pending request gives an approval that binds, if it approves. */
  lemma DecidedBinds(s: State, d: Id)
    requires PendingOk(s) && Awaiting(s.task.phase) && d !in s.records
    requires AllPresent(s.records, Expected(s.task, AwaitedKind(s.task.phase)))
    ensures var s', k := Decided(s, d, true), AwaitedKind(s.task.phase);
            Binds(s'.records, s'.approvals, s'.task, k) && s'.records[RequestOf(s'.task, k).value] == Pending(s)
  {
    var s', k := Decided(s, d, true), AwaitedKind(s.task.phase);
    assert Expected(s'.task, k) == Expected(s.task, k) && Subject(s'.task, k) == Subject(s.task, k);
    forall i | 0 <= i < |Expected(s.task, k)| ensures At(s'.records, Expected(s.task, k)[i]).Some? {
      assert At(s.records, Expected(s.task, k)[i]).Some?;
    }
  }

  lemma DecidedFields(s: State, d: Id, approve: bool)
    requires PendingRequest(s) && s.task.pending.Some? && d !in s.records
    ensures var s' := Decided(s, d, approve);
            && Grows(s.records, s'.records) && SameWork(s.task, s'.task) && s'.task.review == s.task.review
            && s'.task.phase == s.task.phase && s'.task.resume == s.task.resume
  {
  }

  lemma ReviewStays(r: Records, t: Task, r': Records, t': Task)
    requires Grows(r, r') && SameWork(t, t') && t'.review == t.review && PassingTest(r, t) && AcceptingReview(r, t)
    ensures PassingTest(r', t') && AcceptingReview(r', t')
  {
  }

  lemma AwaitingIdle(s: State)
    requires Inv(s) && PauseInv(s) && Awaiting(s.task.phase)
    ensures s.running == None && PendingOk(s) && PendingRequest(s)
  {
  }

  lemma DecidableEnabled(s: State, d: Id, approve: bool, now: Time)
    ensures CanApprove(s, d, approve, s.task.revision, now) ==> Enabled(s, Approve(d, approve, s.task.revision, now))
  {
    hide CanApprove;
  }

  /** In every reachable pause, an unexpired request can be approved and can be rejected. */
  lemma PauseIsDecidable(ss: seq<State>, acts: seq<Action>, i: nat, d: Id, approve: bool, now: Time)
    requires Run(ss, acts) && i <= |acts| && Awaiting(ss[i].task.phase) && d !in ss[i].records
    ensures PendingRequest(ss[i])
    ensures Pending(ss[i]).expires > now ==> Enabled(ss[i], Approve(d, approve, ss[i].task.revision, now))
  {
    RunKeepsInv(ss, acts, i);
    RunKeepsPauses(ss, acts, i);
    var s := ss[i];
    AwaitedEvidence(s);
    AwaitingIdle(s);
    hide Inv, PauseInv, Enabled;
    if Pending(s).expires > now { DecidableEnabled(s, d, approve, now); Decidable(s, d, approve, now); }
  }

  lemma Decidable(s: State, d: Id, approve: bool, now: Time)
    requires PendingOk(s) && Awaiting(s.task.phase) && d !in s.records && s.running == None
    requires Pending(s).expires > now
    requires AllPresent(s.records, Expected(s.task, AwaitedKind(s.task.phase)))
    requires s.task.phase == AwaitingActionApproval ==> PassingTest(s.records, s.task) && AcceptingReview(s.records, s.task)
    ensures CanApprove(s, d, approve, s.task.revision, now)
  {
    var s' := Decided(s, d, approve);
    DecidedFields(s, d, approve);
    if approve { DecidedBinds(s, d); }
    if s.task.phase == AwaitingActionApproval { ReviewStays(s.records, s.task, s'.records, s'.task); }
    hide Decided, Binds, PassingTest, AcceptingReview, AllPresent;
    assert CanMove(s', s'.task, DecisionTarget(Pending(s).kind, approve), now);
  }

  /** In every reachable pause, an expired request can be renewed, which makes no decision. */
  lemma PauseIsRenewable(ss: seq<State>, acts: seq<Action>, i: nat, q: Id, expires: Time, asker: Id, now: Time)
    requires Run(ss, acts) && i <= |acts| && Awaiting(ss[i].task.phase) && q !in ss[i].records
    ensures PendingRequest(ss[i])
    ensures Pending(ss[i]).expires <= now ==>
              var a := Renew(q, expires, ss[i].task.revision, asker, now);
              && Enabled(ss[i], a)
              && DecisionOf(Apply(ss[i], a).task, Pending(ss[i]).kind) == None
  {
    RunKeepsInv(ss, acts, i);
    RunKeepsPauses(ss, acts, i);
    var s := ss[i];
    AwaitedEvidence(s);
    assert s.running == None && StageKey(s.task) == None;
    if Pending(s).expires <= now {
      assert CanRenew(s, q, s.task.revision, now);
      RenewPending(s, Renew(q, expires, s.task.revision, asker, now));
    }
  }

  /** And in every one the task can be cancelled: nothing is unresolved, and nothing has been done yet. */
  lemma PauseIsCancellable(ss: seq<State>, acts: seq<Action>, i: nat, asker: Id)
    requires Run(ss, acts) && i <= |acts| && Awaiting(ss[i].task.phase)
    ensures Enabled(ss[i], Cancel(ss[i].task.revision, asker))
  {
    RunKeepsInv(ss, acts, i);
    RunKeepsPauses(ss, acts, i);
    NoEffectYet(ss[i]);
    assert ss[i].running == None && StageKey(ss[i].task) == None;
    hide EvidenceOk, CountsOk, ResultsOk, PendingOk;
    assert CanCancel(ss[i], ss[i].task.revision);
  }

  /** A reachable blocked task can be recovered exactly when a worker operation blocked it and its plan approval is live. */
  lemma BlockedIsRecoverable(ss: seq<State>, acts: seq<Action>, i: nat, asker: Id, now: Time)
    requires Run(ss, acts) && i <= |acts| && ss[i].task.phase == Blocked
    ensures Enabled(ss[i], Recover(ss[i].task.revision, asker, now)) <==>
              ss[i].task.resume in {Some(Implementing), Some(Testing)} && Approved(ss[i], ss[i].task, PlanKind, now)
  {
    RunKeepsInv(ss, acts, i);
    RunKeepsPauses(ss, acts, i);
    BlockedSlot(ss[i]);
    hide Inv, PauseInv;
    BlockedMoves(ss[i], now);
    hide CanRecover, CanMove, Approved;
    assert Enabled(ss[i], Recover(ss[i].task.revision, asker, now)) == CanRecover(ss[i], ss[i].task.revision, now);
  }

  lemma BlockedSlot(s: State)
    requires EvidenceOk(s.records, s.approvals, s.task) && RunningOk(s) && CountsOk(s.task) && QuietOk(s) && s.task.phase == Blocked
    ensures s.running == None && s.task.resume.Some? && (exists k :: k in s.operations && Recoverable(s, k))
    ensures s.task.resume == Some(Testing) ==> At(s.records, s.task.patch) == Some(Patch(s.task.workOrder))
  {
    assert Effective(s.task) == s.task.resume.value;
    assert Recoverable(s, StageKey(s.task).value);
  }

  lemma BlockedMoves(s: State, now: Time)
    requires s.running == None && s.task.phase == Blocked && s.task.resume.Some?
    requires exists k :: k in s.operations && Recoverable(s, k)
    requires s.task.resume == Some(Testing) ==> At(s.records, s.task.patch) == Some(Patch(s.task.workOrder))
    ensures CanRecover(s, s.task.revision, now) <==>
              s.task.resume in {Some(Implementing), Some(Testing)} && Approved(s, s.task, PlanKind, now)
  {
  }
}
