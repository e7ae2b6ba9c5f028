/** What holds over every run of a workflow task, whatever crashes between its commits. */
module EngineRuns {
  import opened Basics
  import opened EngineState
  import opened EngineSteps
  import opened EngineProof
  import opened EngineKeeps
  import opened EngineWork
  import opened EngineConclusion

  ghost predicate Run(ss: seq<State>, acts: seq<Action>) {
    && |ss| == |acts| + 1
    && ss[0] == Start()
    && forall i :: 0 <= i < |acts| ==> Next(ss[i], acts[i], ss[i + 1])
  }

  lemma StepKeepsInv(s: State, a: Action, s': State)
    requires Inv(s) && Next(s, a, s')
    ensures Inv(s')
  {
    if a.Draft? || a.Ask? || a.Answer? || a.Confirm? { DraftingStep(s, a); }
    else if a.Approve? { ApproveStep(s, a); }
    else if a.Renew? { RenewStep(s, a); }
    else if a.Cancel? { CancelStep(s, a); }
    else if a.Recover? { RecoverStep(s, a); }
    else if a.BeginPlanning? || a.SettleChanges? || a.Complete? || a.BlockUnresolved? { MoveStep(s, a); }
    else if a.BeginAttempt? { AttemptStep(s, a); }
    else if a.StartOperation? { StartStep(s, a); }
    else if a.EnterBody? || a.Crash? || a.FailedBody? { VolatileStep(s, a); }
    else if a.Invoke? || a.Respond? { InvocationStep(s, a); }
    else if a.PlanBody? || a.PatchBody? || a.TestBody? { PlanStep(s, a); }
    else if a.ReviewBody? { ReviewStep(s, a); }
    else if a.EffectBody? { EffectStep(s, a); }
    else if a.FinishOperation? || a.FinishFailed? { FinishStep(s, a); }
    else if a.Uncertain? { UncertainStep(s, a); }
    else if a.Reconcile? { ReconcileStep(s, a); }
    else { ConcludeStep(s, a); }
  }

  lemma {:induction false} RunKeepsInv(ss: seq<State>, acts: seq<Action>, i: nat)
    requires Run(ss, acts) && i <= |acts|
    ensures Inv(ss[i])
  {
    if i == 0 {
      StartInv();
    } else {
      RunKeepsInv(ss, acts, i - 1);
      StepKeepsInv(ss[i - 1], acts[i - 1], ss[i]);
    }
  }

  // ---- The external effect ----

  /** The identifiers of the task's receipts that report a success. */
  function Successes(records: Records): set<Id> {
    set i | i in records && SucceededReceipt(records, Some(i))
  }

  /** A task never has two effects, of any outcome, and every receipt it holds is an effect's. */
  lemma AtMostOneEffect(ss: seq<State>, acts: seq<Action>, i: nat)
    requires Run(ss, acts) && i <= |acts|
    ensures forall o, p :: o in ss[i].effects && p in ss[i].effects ==> o == p
    ensures forall r, q :: r in ss[i].records && ss[i].records[r].Receipt? && q in ss[i].records && ss[i].records[q].Receipt? ==> r == q
  {
    RunKeepsInv(ss, acts, i);
  }

  /** A task that reports its action done has exactly the one success it names; a cancelled task has none. */
  lemma SuccessesMatchPhase(ss: seq<State>, acts: seq<Action>, i: nat)
    requires Run(ss, acts) && i <= |acts|
    ensures ss[i].task.phase in {PrCreated, Completed} ==>
              ss[i].task.external.Some? && Successes(ss[i].records) == {ss[i].task.external.value}
    ensures ss[i].task.phase == EngineState.Cancelled ==> Successes(ss[i].records) == {}
  {
    RunKeepsInv(ss, acts, i);
    AtMostOneEffect(ss, acts, i);
    if ss[i].task.phase in {PrCreated, Completed} {
      var e := ss[i].task.external.value;
      assert e in Successes(ss[i].records);
      forall r | r in Successes(ss[i].records) ensures r == e {
        assert ss[i].records[r].Receipt? && ss[i].records[e].Receipt?;
      }
    }
  }

  // ---- The evidence chain ----

  /** Specification, plan, work order, patch, passing test, independent acceptance, and both human
      approvals: every link names the one before it, and all are about the same patch. */
  predicate MutuallyBound(s: State) {
    var t, rs := s.task, s.records;
    && At(rs, t.spec) == Some(Spec(true))
    && At(rs, t.plan) == Some(Plan(t.spec))
    && At(rs, t.workOrder) == Some(WorkOrder(t.spec, t.plan, t.attempt))
    && At(rs, t.patch) == Some(Patch(t.workOrder))
    && At(rs, t.test) == Some(Test(t.patch, true))
    && AcceptingReview(rs, t)
    && BoundReview(rs, t, t.review)
    && BoundAction(rs, t)
    && Binds(rs, s.approvals, t, PlanKind)
    && Binds(rs, s.approvals, t, ActionKind)
  }

  lemma AuthorizedIsBound(ss: seq<State>, acts: seq<Action>, i: nat)
    requires Run(ss, acts) && i <= |acts| && ss[i].task.phase in {ReadyForPr, PrCreated, Completed}
    ensures MutuallyBound(ss[i])
  {
    RunKeepsInv(ss, acts, i);
  }

  // ---- Operation bodies ----

  function Invocations(s: State, k: Key): nat {
    if k in s.invoked then s.invoked[k] else 0
  }

  /** The body of each slot is entered at most once, whatever crashes before or after it. */
  lemma BodyEnteredOnce(ss: seq<State>, acts: seq<Action>, i: nat, k: Key)
    requires Run(ss, acts) && i <= |acts|
    ensures Invocations(ss[i], k) <= 1
    ensures Invocations(ss[i], k) == 1 ==> k in ss[i].operations
  {
    RunKeepsInv(ss, acts, i);
  }

  predicate Stores(a: Action) {
    a.StartOperation? || a.FinishOperation? || a.FinishFailed? || a.Reconcile? || a.Recover?
  }

  lemma OthersStoreNothing(s: State, a: Action)
    requires Enabled(s, a) && !Stores(a)
    ensures Apply(s, a).operations == s.operations
  {
    if a.Conclude? { ConclusionShape(s, a); }
  }

  lemma StoredResultStays(s: State, a: Action, s': State, k: Key)
    requires RunningOk(s) && Next(s, a, s') && k in s.operations && s.operations[k].result.Some?
    ensures k in s'.operations && s'.operations[k] == s.operations[k]
  {
    if !Stores(a) { OthersStoreNothing(s, a); }
  }

  /** A finished slot keeps its result for good: later advances replay that one. */
  lemma {:induction false} ResultIsFinal(ss: seq<State>, acts: seq<Action>, i: nat, j: nat, k: Key)
    requires Run(ss, acts) && i <= j <= |acts| && k in ss[i].operations && ss[i].operations[k].result.Some?
    ensures k in ss[j].operations && ss[j].operations[k] == ss[i].operations[k]
    decreases j - i
  {
    if i < j {
      ResultIsFinal(ss, acts, i, j - 1, k);
      RunKeepsInv(ss, acts, j - 1);
      StoredResultStays(ss[j - 1], acts[j - 1], ss[j], k);
    }
  }

  lemma InvocationsOnlyGrow(s: State, a: Action, k: Key)
    requires Enabled(s, a)
    ensures Invocations(Apply(s, a), k) >= Invocations(s, k)
  {
    hide CanMove, Approved;
    if a.Conclude? { ConclusionShape(s, a); }
  }

  /** A slot left started by a crash is never run again: nothing can start or enter it. */
  lemma UnfinishedNeverReruns(ss: seq<State>, acts: seq<Action>, i: nat, k: Key)
    requires Run(ss, acts) && i < |acts| && k in ss[i].operations && Invocations(ss[i], k) == 1
    ensures Invocations(ss[i + 1], k) == 1
    ensures acts[i].StartOperation? ==> CurrentKey(ss[i].task) != Some(k)
  {
    BodyEnteredOnce(ss, acts, i + 1, k);
    assert Next(ss[i], acts[i], ss[i + 1]);
    InvocationsOnlyGrow(ss[i], acts[i], k);
    hide Approved, CanMove;
  }

  /** Attempts are bounded for good. */
  lemma AttemptsBounded(ss: seq<State>, acts: seq<Action>, i: nat)
    requires Run(ss, acts) && i <= |acts|
    ensures ss[i].task.attempt <= 3
  {
    RunKeepsInv(ss, acts, i);
  }

  lemma DecisionsNeedAPause(s: State, d: Id, approve: bool, revision: nat, now: Time)
    requires CanApprove(s, d, approve, revision, now)
    ensures !Terminal(s.task.phase)
  {
  }

  lemma RenewalsNeedAPause(s: State, q: Id, revision: nat, now: Time)
    requires CanRenew(s, q, revision, now)
    ensures !Terminal(s.task.phase)
  {
  }

  lemma RunningStays(s: State)
    requires Inv(s)
    ensures s.running.Some? ==> CurrentKey(s.task).Some?
  {
  }

  lemma OnlyCrashAfterTheEnd(s: State, a: Action)
    requires (s.running.Some? ==> CurrentKey(s.task).Some?) && Enabled(s, a) && Terminal(s.task.phase)
    ensures a.Crash?
  {
    hide CanMove, Approved, Pending, Recoverable, Decided, Concluding;
    if a.Approve? { DecisionsNeedAPause(s, a.decision, a.approve, a.expectedRevision, a.now); }
    if a.Renew? { RenewalsNeedAPause(s, a.request, a.expectedRevision, a.now); }
  }

  lemma CrashKeepsTask(s: State)
    ensures Apply(s, Crash).task == s.task
  {
  }

  lemma CrashKeepsMemory(s: State)
    ensures Apply(s, Crash).memory == s.memory
  {
  }

  /** A renewal, a cancellation and a recovery are recognized when they are repeated. */
  lemma RepeatsAreRecognized(s: State, a: Action)
    requires Enabled(s, a)
    ensures a.Renew? ==> s.task.pending.Some? && RenewRepeats(Apply(s, a), s.task.pending.value, a.expectedRevision, a.asker)
    ensures a.Cancel? ==> CancelRepeats(Apply(s, a), a.expectedRevision, a.asker)
    ensures a.Recover? ==> RecoverRepeats(Apply(s, a), a.expectedRevision, a.asker)
  {
    hide CanMove, Approved, Recoverable;
  }

  /** And a cancellation for good, however late it is repeated. */
  lemma {:induction false} CancelIsRemembered(ss: seq<State>, acts: seq<Action>, i: nat, j: nat)
    requires Run(ss, acts) && i < j <= |acts| && acts[i].Cancel?
    ensures CancelRepeats(ss[j], acts[i].expectedRevision, acts[i].asker)
    decreases j
  {
    assert Next(ss[j - 1], acts[j - 1], ss[j]);
    if i == j - 1 {
      RepeatsAreRecognized(ss[i], acts[i]);
    } else {
      CancelIsRemembered(ss, acts, i, j - 1);
      RunKeepsInv(ss, acts, j - 1);
      RunningStays(ss[j - 1]);
      hide Inv, Enabled, Apply;
      OnlyCrashAfterTheEnd(ss[j - 1], acts[j - 1]);
      CrashKeepsTask(ss[j - 1]);
      CrashKeepsMemory(ss[j - 1]);
    }
  }

  /** A terminal task stays as it ended. */
  lemma {:induction false} TerminalForever(ss: seq<State>, acts: seq<Action>, i: nat, j: nat)
    requires Run(ss, acts) && i <= j <= |acts| && Terminal(ss[i].task.phase)
    ensures ss[j].task == ss[i].task
    decreases j - i
  {
    if i < j {
      TerminalForever(ss, acts, i, j - 1);
      RunKeepsInv(ss, acts, j - 1);
      assert Next(ss[j - 1], acts[j - 1], ss[j]);
      RunningStays(ss[j - 1]);
      hide Inv, Enabled, Apply;
      OnlyCrashAfterTheEnd(ss[j - 1], acts[j - 1]);
      CrashKeepsTask(ss[j - 1]);
    }
  }
}
