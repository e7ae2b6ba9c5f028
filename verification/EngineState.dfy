/** A workflow task as the store keeps it: its state and context, and the records they point to.

    Records are immutable and task-bound, and a reference carries its record's digest, so a reference is
    modelled as the record's identifier. A digest over a scope is modelled as the scope itself. */
module EngineState {
  import opened Basics

  type Id = nat
  type Ref = Option<Id>
  type Time = nat

  datatype Phase =
    | DraftSpec | AwaitingClarification | SpecReady | Planning | AwaitingPlanApproval
    | ReadyForImplementation | Implementing | Testing | Reviewing | ChangesRequested
    | AwaitingActionApproval | ReadyForPr | PrCreated
    | Blocked | Failed | Completed | Cancelled

  datatype Kind = PlanKind | ActionKind

  datatype Scope = Scope(subject: Ref, evidence: seq<Ref>, revision: nat)

  datatype Record =
    | Spec(confirmed: bool)
    | Plan(spec: Ref)
    | WorkOrder(spec: Ref, plan: Ref, attempt: nat)
    | Patch(workOrder: Ref)
    | Test(patch: Ref, passed: bool)
    | ReviewRequest(spec: Ref, plan: Ref, patch: Ref, test: Ref, implementer: Ref, reviewer: Id)
    | Review(request: Id, accept: bool)
    | ActionRequest(op: Id, patch: Ref, test: Ref, review: Ref)
    | ApprovalRequest(kind: Kind, subject: Ref, evidence: seq<Ref>, revision: nat, scope: Scope, expires: Time)
    | Decision(request: Id, scope: Scope, approve: bool)
    | Receipt(op: Id, action: Ref, decision: Ref, succeeded: bool)

  type Records = map<Id, Record>

  datatype Task = Task(
    phase: Phase, revision: nat, resume: Option<Phase>, active: Ref, invocation: Ref, pending: Ref,
    spec: Ref, confirmed: bool, plan: Ref, workOrder: Ref, patch: Ref, implementer: Ref, test: Ref, review: Ref,
    actionRequest: Ref, external: Ref,
    planRequest: Ref, planApproval: Ref, approvalRequest: Ref, approval: Ref,
    attempt: nat, planningAttempt: nat)

  datatype Stage = PlanningStage | ImplementationStage | TestsStage | ReviewStage | ExternalStage

  datatype Key = Key(stage: Stage, slot: nat)

  datatype Result =
    | Failure
    | PlanMade(plan: Id)
    | Patched(patch: Id, implementer: Id)
    | Tested(test: Id, failed: bool)
    | Reviewed(review: Id)
    | Acted(receipt: Id, failed: bool)

  /** An operation row: `result` is present exactly when its status is done. */
  datatype Op = Op(id: Id, result: Option<Result>)

  /** The operation a live worker process is executing; it is forgotten when that process dies. */
  datatype Running = Running(key: Key, id: Id, entered: bool, result: Option<Result>)

  /** The last renewal, cancellation and recovery, as they were asked for: `asker` is who asked, and why. A call that
      repeats one of them returns what it did. */
  datatype Renewal = Renewal(request: Ref, revision: nat, asker: Id, replacement: Id)

  datatype Cancellation = Cancellation(revision: nat, asker: Id)

  datatype Recovery = Recovery(revision: nat, asker: Id, completed: nat)

  datatype Memory = Memory(renewal: Option<Renewal>, cancellation: Option<Cancellation>, recovery: Option<Recovery>)

  datatype State = State(
    task: Task,
    memory: Memory,
    records: Records,
    approvals: map<Id, Id>,
    operations: map<Key, Op>,
    effects: map<Id, Id>,
    running: Option<Running>,
    // History: how often an operation's body was entered.
    invoked: map<Key, nat>)

  function At(records: Records, r: Ref): Option<Record> {
    if r.Some? && r.value in records then Some(records[r.value]) else None
  }

  predicate Terminal(p: Phase) { p in {Failed, Completed, Cancelled} }

  predicate Paused(p: Phase) { Terminal(p) || p in {AwaitingPlanApproval, AwaitingActionApproval, Blocked} }

  function Edges(p: Phase): set<Phase> {
    match p
    case DraftSpec => {AwaitingClarification, SpecReady}
    case AwaitingClarification => {DraftSpec}
    case SpecReady => {Planning}
    case Planning => {AwaitingPlanApproval}
    case AwaitingPlanApproval => {ReadyForImplementation, Planning}
    case ReadyForImplementation => {Implementing}
    case Implementing => {Testing, ChangesRequested}
    case Testing => {Reviewing, ChangesRequested}
    case Reviewing => {AwaitingActionApproval, ChangesRequested}
    case ChangesRequested => {ReadyForImplementation, Planning, DraftSpec}
    case AwaitingActionApproval => {ReadyForPr, ChangesRequested}
    case ReadyForPr => {PrCreated}
    case PrCreated => {Completed}
    case _ => {}
  }

  predicate Allowed(source: Phase, target: Phase, resume: Option<Phase>) {
    if Terminal(source) then false
    else if target in {Failed, Cancelled, Blocked} then source != target
    else if source == Blocked then resume == Some(target) && !Paused(target)
    else target in Edges(source)
  }

  // ---- Evidence ----

  function Expected(t: Task, kind: Kind): seq<Ref> {
    if kind == PlanKind then [t.spec, t.plan] else [t.spec, t.plan, t.patch, t.test, t.review]
  }

  function Subject(t: Task, kind: Kind): Ref { if kind == PlanKind then t.plan else t.actionRequest }

  function RequestOf(t: Task, kind: Kind): Ref { if kind == PlanKind then t.planRequest else t.approvalRequest }

  function DecisionOf(t: Task, kind: Kind): Ref { if kind == PlanKind then t.planApproval else t.approval }

  predicate AllPresent(records: Records, refs: seq<Ref>) {
    forall i :: 0 <= i < |refs| ==> At(records, refs[i]).Some?
  }

  /** A persisted human approval of exactly the current subject and evidence, whenever it expires. */
  predicate Binds(records: Records, approvals: map<Id, Id>, t: Task, kind: Kind) {
    && DecisionOf(t, kind).Some?
    && RequestOf(t, kind).Some?
    && var d, q := At(records, DecisionOf(t, kind)), At(records, RequestOf(t, kind));
       && d.Some? && d.value.Decision?
       && q.Some? && q.value.ApprovalRequest?
       && RequestOf(t, kind).value in approvals
       && Some(approvals[RequestOf(t, kind).value]) == DecisionOf(t, kind)
       && d.value.approve
       && Some(d.value.request) == RequestOf(t, kind)
       && q.value.subject == Subject(t, kind)
       && d.value.scope == q.value.scope
       && q.value.evidence == Expected(t, kind)
       && q.value.scope == Scope(Subject(t, kind), Expected(t, kind), q.value.revision)
       && AllPresent(records, q.value.evidence)
  }

  predicate Approved(s: State, t: Task, kind: Kind, now: Time) {
    && Binds(s.records, s.approvals, t, kind)
    && s.records[RequestOf(t, kind).value].expires > now
  }

  predicate PassingTest(records: Records, t: Task) {
    At(records, t.test) == Some(Test(t.patch, true))
  }

  predicate AcceptingReview(records: Records, t: Task) {
    && var r := At(records, t.review);
       && r.Some? && r.value.Review?
       && r.value.accept
       && var q := At(records, Some(r.value.request));
          q.Some? && q.value.ReviewRequest? && q.value.patch == t.patch && q.value.test == t.test
  }

  predicate SucceededReceipt(records: Records, r: Ref) {
    At(records, r).Some? && At(records, r).value.Receipt? && At(records, r).value.succeeded
  }

  /** Every guard of `_transition`, in its order. */
  predicate CanMove(s: State, t: Task, target: Phase, now: Time) {
    && Allowed(t.phase, target, t.resume)
    && (target == SpecReady ==> t.confirmed)
    && (target in {ReadyForImplementation, Implementing, Testing, Reviewing, AwaitingActionApproval}
        ==> Approved(s, t, PlanKind, now))
    && (target == Testing ==> At(s.records, t.patch).Some? && At(s.records, t.patch).value.Patch?)
    && (target in {Reviewing, AwaitingActionApproval, ReadyForPr, PrCreated} ==> PassingTest(s.records, t))
    && (target in {AwaitingActionApproval, ReadyForPr, PrCreated} ==> AcceptingReview(s.records, t))
    && (target in {ReadyForPr, PrCreated} ==> Approved(s, t, ActionKind, now))
    && (target in {PrCreated, Completed} ==> SucceededReceipt(s.records, t.external))
  }

  function Moved(t: Task, target: Phase): Task {
    t.(phase := target,
       revision := t.revision + 1,
       resume := if target == Blocked then Some(t.phase) else t.resume,
       confirmed := target != DraftSpec && t.confirmed)
  }
}
