/** The committed transactions of the workflow engine. A crash is the loss of `running` between two of them. */
module EngineSteps {
  import opened Basics
  import opened EngineState

  datatype Action =
    | Draft(spec: Id)
    | Ask
    | Answer
    | Confirm(read: Id, spec: Id)
    | Approve(decision: Id, approve: bool, expectedRevision: nat, now: Time)
    | Renew(request: Id, expires: Time, expectedRevision: nat, asker: Id, now: Time)
    | Cancel(expectedRevision: nat, asker: Id)
    | Recover(expectedRevision: nat, asker: Id, now: Time)
    | BeginPlanning
    | BeginAttempt(workOrder: Id, now: Time)
    | SettleChanges(now: Time)
    | Complete
    | StartOperation(id: Id, now: Time)
    | EnterBody
    | Invoke(invocation: Id)
    | Respond
    | PlanBody(plan: Id)
    | PatchBody(patch: Id, implementer: Id)
    | TestBody(test: Id, passed: bool)
    | ReviewBody(request: Id, review: Id, accept: bool, reviewer: Id)
    | EffectBody(receipt: Id, failed: bool, now: Time)
    | FailedBody
    | FinishOperation
    | FinishFailed
    | Uncertain
    | Crash
    | Reconcile
    | BlockUnresolved
    | Conclude(first: Id, second: Id, op: Id, expires: Time, now: Time)

  function Start(): State {
    State(Task(DraftSpec, 0, None, None, None, None, None, false, None, None, None, None, None, None, None, None,
               None, None, None, None, 0, 0),
          Memory(None, None, None), map[], map[], map[], map[], None, map[])
  }

  function StageOf(p: Phase): Option<Stage> {
    match p
    case Planning => Some(PlanningStage)
    case Implementing => Some(ImplementationStage)
    case Testing => Some(TestsStage)
    case Reviewing => Some(ReviewStage)
    case ReadyForPr => Some(ExternalStage)
    case _ => None
  }

  /** The operation slot of the task's current stage: one per planning attempt, attempt or action request. */
  function CurrentKey(t: Task): Option<Key> {
    match t.phase
    case Planning => Some(Key(PlanningStage, t.planningAttempt))
    case Implementing => Some(Key(ImplementationStage, t.attempt))
    case Testing => Some(Key(TestsStage, t.attempt))
    case Reviewing => Some(Key(ReviewStage, t.attempt))
    case ReadyForPr => if t.actionRequest.Some? then Some(Key(ExternalStage, t.actionRequest.value)) else None
    case _ => None
  }

  predicate Unresolved(s: State) {
    exists k :: k in s.operations && s.operations[k].result == None
  }

  predicate Current(s: State) {
    s.running == None && CurrentKey(s.task).Some? && CurrentKey(s.task).value in s.operations
  }

  function CurrentOp(s: State): Op
    requires Current(s)
  {
    s.operations[CurrentKey(s.task).value]
  }

  function Required(kind: Kind): Phase {
    if kind == PlanKind then AwaitingPlanApproval else AwaitingActionApproval
  }

  predicate PendingRequest(s: State) {
    At(s.records, s.task.pending).Some? && At(s.records, s.task.pending).value.ApprovalRequest?
  }

  function Pending(s: State): Record
    requires PendingRequest(s)
    ensures Pending(s).ApprovalRequest?
  {
    At(s.records, s.task.pending).value
  }

  function WithApproval(t: Task, kind: Kind, d: Ref): Task {
    if kind == PlanKind then t.(planApproval := d) else t.(approval := d)
  }

  function WithRequest(t: Task, kind: Kind, q: Id): Task {
    (if kind == PlanKind then t.(planRequest := Some(q), planApproval := None)
     else t.(approvalRequest := Some(q), approval := None)).(pending := Some(q))
  }

  /** `_approval`: a new request over the current subject and evidence, at the revision the next move will reach. */
  function NewRequest(t: Task, kind: Kind, expires: Time): Record {
    ApprovalRequest(kind, Subject(t, kind), Expected(t, kind), t.revision + 1,
                    Scope(Subject(t, kind), Expected(t, kind), t.revision + 1), expires)
  }

  // ---- Human decisions ----

  function DecisionTarget(kind: Kind, approve: bool): Phase {
    match (kind, approve)
    case (PlanKind, true) => ReadyForImplementation
    case (PlanKind, false) => Planning
    case (ActionKind, true) => ReadyForPr
    case (ActionKind, false) => ChangesRequested
  }

  /** The store with the decision recorded, before the move it causes. */
  function Decided(s: State, d: Id, approve: bool): State
    requires PendingRequest(s) && s.task.pending.Some?
  {
    var q := Pending(s);
    var t := WithApproval(s.task, q.kind, Some(d)).(pending := None);
    s.(task := if q.kind == PlanKind && !approve then t.(planningAttempt := t.planningAttempt + 1) else t,
       records := s.records[d := Decision(s.task.pending.value, q.scope, approve)],
       approvals := s.approvals[s.task.pending.value := d])
  }

  predicate CanApprove(s: State, d: Id, approve: bool, expectedRevision: nat, now: Time) {
    && s.running == None
    && d !in s.records
    && s.task.revision == expectedRevision
    && PendingRequest(s)
    && s.task.pending.value !in s.approvals
    && s.task.phase == Required(Pending(s).kind)
    && Pending(s).revision == expectedRevision
    && Pending(s).expires > now
    && var s' := Decided(s, d, approve);
       CanMove(s', s'.task, DecisionTarget(Pending(s).kind, approve), now)
  }

  predicate CanRenew(s: State, q: Id, expectedRevision: nat, now: Time) {
    && s.running == None
    && q !in s.records
    && s.task.revision == expectedRevision
    && PendingRequest(s)
    && s.task.phase == Required(Pending(s).kind)
    && s.task.active == None
    && s.task.invocation == None
    && !Unresolved(s)
    && Pending(s).expires <= now
    && Pending(s).revision == expectedRevision
    && var k := Pending(s).kind;
       && Pending(s).subject == Subject(s.task, k)
       && Pending(s).evidence == Expected(s.task, k)
       && Pending(s).scope == Scope(Subject(s.task, k), Expected(s.task, k), expectedRevision)
       && At(s.records, Subject(s.task, k)).Some?
       && AllPresent(s.records, Expected(s.task, k))
  }

  predicate CanCancel(s: State, expectedRevision: nat) {
    && s.running == None
    && !Terminal(s.task.phase)
    && s.task.revision == expectedRevision
    && s.task.active == None
    && s.task.invocation == None
    && !Unresolved(s)
    && s.task.phase != PrCreated
    && forall i :: i in s.records ==> !SucceededReceipt(s.records, Some(i))
  }

  function Cancelled'(s: State, m: Memory): State {
    s.(memory := m, task := Moved(s.task.(pending := None, resume := None), Cancelled))
  }

  /** The one unresolved operation of a blocked worker or test stage. */
  predicate Recoverable(s: State, k: Key) {
    && k in s.operations
    && s.operations[k].result == None
    && s.task.active == Some(s.operations[k].id)
    && forall k' :: k' in s.operations && s.operations[k'].result == None ==> k' == k
  }

  predicate CanRecover(s: State, expectedRevision: nat, now: Time) {
    && s.running == None
    && s.task.phase == Blocked
    && s.task.revision == expectedRevision
    && (exists k :: k in s.operations && Recoverable(s, k))
    && (s.task.resume == Some(Implementing) || s.task.resume == Some(Testing))
    && Approved(s, s.task, PlanKind, now)
    && CanMove(s, s.task, s.task.resume.value, now)
  }

  function Recovered(s: State, k: Key, m: Memory): State
    requires k in s.operations && s.task.resume.Some?
  {
    var t := Moved(s.task.(active := None), s.task.resume.value);
    s.(memory := m,
       task := Moved(t.(resume := None), ChangesRequested),
       operations := s.operations[k := s.operations[k].(result := Some(Failure))])
  }

  // ---- Repeated calls ----

  predicate RenewRepeats(s: State, request: Id, revision: nat, asker: Id) {
    && s.task.pending.Some?
    && s.memory.renewal == Some(Renewal(Some(request), revision, asker, s.task.pending.value))
  }

  predicate CancelRepeats(s: State, revision: nat, asker: Id) {
    s.task.phase == Cancelled && s.memory.cancellation == Some(Cancellation(revision, asker))
  }

  predicate RecoverRepeats(s: State, revision: nat, asker: Id) {
    s.task.phase == ChangesRequested && s.memory.recovery == Some(Recovery(revision, asker, s.task.revision))
  }

  // ---- Operations ----

  predicate Body(s: State, stage: Stage) {
    s.running.Some? && s.running.value.key.stage == stage && s.running.value.entered && s.running.value.result == None
  }

  /** The stages whose body asks a model, and records the invocation as active until its receipt is stored. */
  predicate Consults(stage: Stage) { stage in {PlanningStage, ImplementationStage, ReviewStage} }

  predicate InBody(s: State) {
    s.running.Some? && s.running.value.entered && s.running.value.result == None
  }

  function WithResult(s: State, r: Result): State
    requires s.running.Some?
  {
    s.(running := Some(s.running.value.(result := Some(r))))
  }

  function Finished(s: State, r: Result): State
    requires s.running.Some? && s.running.value.key in s.operations
  {
    var k := s.running.value.key;
    s.(operations := s.operations[k := s.operations[k].(result := Some(r))],
       running := None,
       task := s.task.(active := None))
  }

  /** The stage's move once its operation is done, as `(task and new records, target)`. */
  function Concluding(s: State, r: Result, first: Id, second: Id, op: Id, expires: Time): (State, Phase) {
    var t := s.task;
    match t.phase
    case Planning =>
      if r.PlanMade? then
        var t' := t.(plan := Some(r.plan));
        (s.(task := WithRequest(t', PlanKind, first), records := s.records[first := NewRequest(t', PlanKind, expires)]),
         AwaitingPlanApproval)
      else (s, Failed)
    case Implementing =>
      if r.Patched? then (s.(task := t.(patch := Some(r.patch), implementer := Some(r.implementer))), Testing)
      else (s, ChangesRequested)
    case Testing =>
      if r.Tested? then (s.(task := t.(test := Some(r.test))), if r.failed then ChangesRequested else Reviewing)
      else (s, ChangesRequested)
    case Reviewing =>
      if r.Reviewed? then
        var t' := t.(review := Some(r.review));
        var review := At(s.records, t'.review);
        if review.Some? && review.value.Review? && review.value.accept then
          var t'' := t'.(actionRequest := Some(first));
          (s.(task := WithRequest(t'', ActionKind, second),
              records := s.records[first := ActionRequest(op, t.patch, t.test, t'.review)]
                                  [second := NewRequest(t'', ActionKind, expires)]),
           AwaitingActionApproval)
        else (s.(task := t'), ChangesRequested)
      else (s, ChangesRequested)
    case _ =>
      if r.Acted? then (s.(task := t.(external := Some(r.receipt))), if r.failed then Failed else PrCreated)
      else (s, Failed)
  }

  predicate CanConclude(s: State, first: Id, second: Id, op: Id, expires: Time, now: Time) {
    && Current(s)
    && CurrentOp(s).result.Some?
    && first !in s.records && second !in s.records && first != second
    && var (s', target) := Concluding(s, CurrentOp(s).result.value, first, second, op, expires);
       CanMove(s', s'.task, target, now)
  }

  predicate Enabled(s: State, a: Action) {
    match a
    case Draft(spec) => s.task.phase == DraftSpec && spec !in s.records
    case Ask => s.task.phase == DraftSpec && s.task.spec.Some?
    case Answer => s.task.phase == AwaitingClarification
    case Confirm(read, spec) => s.task.phase == DraftSpec && s.task.spec == Some(read) && spec !in s.records
    case Approve(d, approve, expectedRevision, now) => CanApprove(s, d, approve, expectedRevision, now)
    case Renew(q, expires, expectedRevision, asker, now) => CanRenew(s, q, expectedRevision, now)
    case Cancel(expectedRevision, asker) => CanCancel(s, expectedRevision)
    case Recover(expectedRevision, asker, now) => CanRecover(s, expectedRevision, now)
    case BeginPlanning => s.running == None && s.task.phase == SpecReady
    case BeginAttempt(w, now) =>
      && s.running == None
      && s.task.phase == ReadyForImplementation
      && w !in s.records
      && Approved(s, s.task, PlanKind, now)
    case SettleChanges(now) =>
      && s.running == None
      && s.task.phase == ChangesRequested
      && (s.task.attempt < 3 ==> CanMove(s, s.task, ReadyForImplementation, now))
    case Complete => s.running == None && s.task.phase == PrCreated && CanMove(s, s.task, Completed, 0)
    case StartOperation(id, now) =>
      && s.running == None
      && CurrentKey(s.task).Some?
      && CurrentKey(s.task).value !in s.operations
      && (forall k :: k in s.operations ==> s.operations[k].id != id)
      && (s.task.phase in {Implementing, Testing} ==> Approved(s, s.task, PlanKind, now))
      && (s.task.phase == ReadyForPr ==>
            && Approved(s, s.task, ActionKind, now)
            && At(s.records, s.task.actionRequest).Some?
            && At(s.records, s.task.actionRequest).value.ActionRequest?
            && At(s.records, s.task.actionRequest).value.op == id)
    case EnterBody => s.running.Some? && !s.running.value.entered
    case Invoke(invocation) => InBody(s) && Consults(s.running.value.key.stage)
    case Respond => InBody(s) && s.task.invocation.Some?
    case PlanBody(plan) => Body(s, PlanningStage) && s.task.invocation == None && plan !in s.records
    case PatchBody(patch, implementer) => Body(s, ImplementationStage) && s.task.invocation == None && patch !in s.records
    case TestBody(test, passed) => Body(s, TestsStage) && test !in s.records
    case ReviewBody(q, review, accept, reviewer) =>
      && Body(s, ReviewStage)
      && s.task.invocation == None
      && q !in s.records && review !in s.records && q != review
      && Some(reviewer) != s.task.implementer
    case EffectBody(receipt, failed, now) =>
      && Body(s, ExternalStage)
      && receipt !in s.records
      && s.running.value.id !in s.effects
      && Approved(s, s.task, ActionKind, now)
    case FailedBody => InBody(s)
    case FinishOperation => s.running.Some? && s.running.value.result.Some? && s.running.value.key in s.operations
    case FinishFailed => s.running.Some? && s.running.value.entered && s.running.value.key in s.operations
    case Uncertain => Body(s, ImplementationStage) || Body(s, TestsStage)
    case Crash => true
    case Reconcile =>
      && Current(s)
      && CurrentOp(s).result == None
      && s.task.phase == ReadyForPr
      && CurrentOp(s).id in s.effects
      && At(s.records, Some(s.effects[CurrentOp(s).id])).Some?
      && At(s.records, Some(s.effects[CurrentOp(s).id])).value.Receipt?
    case BlockUnresolved =>
      Current(s) && CurrentOp(s).result == None && (s.task.phase == ReadyForPr ==> CurrentOp(s).id !in s.effects)
    case Conclude(first, second, op, expires, now) => CanConclude(s, first, second, op, expires, now)
  }

  function BegunAttempt(t: Task, w: Id): Task {
    Moved(t.(attempt := t.attempt + 1, test := None, review := None, patch := None, workOrder := Some(w)), Implementing)
  }

  function Apply(s: State, a: Action): State
    requires Enabled(s, a)
  {
    var t := s.task;
    match a
    case Draft(spec) =>
      s.(task := t.(spec := Some(spec), revision := t.revision + 1), records := s.records[spec := Spec(false)])
    case Ask => s.(task := Moved(t, AwaitingClarification))
    case Answer => s.(task := Moved(t, DraftSpec))
    case Confirm(read, spec) =>
      s.(task := Moved(t.(spec := Some(spec), confirmed := true, revision := t.revision + 1), SpecReady),
         records := s.records[spec := Spec(true)])
    case Approve(d, approve, expectedRevision, now) =>
      var s' := Decided(s, d, approve);
      s'.(task := Moved(s'.task, DecisionTarget(Pending(s).kind, approve)))
    case Renew(q, expires, expectedRevision, asker, now) =>
      s.(memory := s.memory.(renewal := Some(Renewal(t.pending, expectedRevision, asker, q))),
         task := WithRequest(t, Pending(s).kind, q).(revision := t.revision + 1),
         records := s.records[q := NewRequest(t, Pending(s).kind, expires)])
    case Cancel(expectedRevision, asker) =>
      Cancelled'(s, s.memory.(cancellation := Some(Cancellation(expectedRevision, asker))))
    case Recover(expectedRevision, asker, now) =>
      var k :| k in s.operations && Recoverable(s, k);
      Recovered(s, k, s.memory.(recovery := Some(Recovery(expectedRevision, asker, t.revision + 2))))
    case BeginPlanning => s.(task := Moved(t, Planning))
    case BeginAttempt(w, now) =>
      s.(task := BegunAttempt(t, w), records := s.records[w := WorkOrder(t.spec, t.plan, t.attempt + 1)])
    case SettleChanges(now) => s.(task := Moved(t, if t.attempt >= 3 then Failed else ReadyForImplementation))
    case Complete => s.(task := Moved(t, Completed))
    case StartOperation(id, now) =>
      var k := CurrentKey(t).value;
      s.(operations := s.operations[k := Op(id, None)],
         running := Some(Running(k, id, false, None)),
         task := t.(active := Some(id)))
    case EnterBody =>
      var r := s.running.value;
      s.(running := Some(r.(entered := true)),
         invoked := s.invoked[r.key := (if r.key in s.invoked then s.invoked[r.key] else 0) + 1])
    case Invoke(invocation) => s.(task := t.(invocation := Some(invocation)))
    case Respond => s.(task := t.(invocation := None))
    case PlanBody(plan) => WithResult(s, PlanMade(plan)).(records := s.records[plan := Plan(t.spec)])
    case PatchBody(patch, implementer) =>
      WithResult(s, Patched(patch, implementer)).(records := s.records[patch := Patch(t.workOrder)])
    case TestBody(test, passed) =>
      WithResult(s, Tested(test, !passed)).(records := s.records[test := Test(t.patch, passed)])
    case ReviewBody(q, review, accept, reviewer) =>
      WithResult(s, Reviewed(review)).(
        records := s.records[q := ReviewRequest(t.spec, t.plan, t.patch, t.test, t.implementer, reviewer)]
                            [review := Review(q, accept)])
    case EffectBody(receipt, failed, now) =>
      WithResult(s, Acted(receipt, failed)).(
        records := s.records[receipt := Receipt(s.running.value.id, t.actionRequest, t.approval, !failed)],
        effects := s.effects[s.running.value.id := receipt])
    case FailedBody => WithResult(s, Failure)
    case FinishOperation => Finished(s, s.running.value.result.value)
    case FinishFailed => Finished(s, Failure)
    case Uncertain => s.(task := Moved(t, Blocked), running := None)
    case Crash => s.(running := None)
    case Reconcile =>
      var k := CurrentKey(t).value;
      var receipt := s.effects[CurrentOp(s).id];
      s.(operations := s.operations[k := CurrentOp(s).(result := Some(Acted(receipt, !s.records[receipt].succeeded)))],
         task := t.(active := None))
    case BlockUnresolved => s.(task := Moved(t, Blocked))
    case Conclude(first, second, op, expires, now) =>
      var (s', target) := Concluding(s, CurrentOp(s).result.value, first, second, op, expires);
      s'.(task := Moved(s'.task, target))
  }

  predicate Next(s: State, a: Action, s': State) {
    Enabled(s, a) && s' == Apply(s, a)
  }
}
