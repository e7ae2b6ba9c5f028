/** A repository task and the pilots prepared for it: two databases without a common transaction, a worker
    process and an advancing process that may die at any point, and operators acting beside them. */
module Pilots {
  import opened Basics

  type Id = nat
  type Time = nat
  type Files = map<nat, nat>

  const REVISION_CAP: nat := 1000

  datatype Mode = LocalData | Docker

  /** `bound` says that the scope names this task; `reloads` is whether its stored form can be read back, as
      `CanonicalEqual.Reloads` says of each expectation; `passes` is what its checks say of its own replacements. */
  datatype Scope = Scope(id: Id, bound: bool, mode: Mode, replacements: Files, reloads: bool, passes: bool, expires: Time)

  datatype Entry = Planned | Dispatched | Observed(ok: bool)

  datatype Workers = Workers(scope: Scope, edit: Entry, test: Entry, cleanup: nat)

  datatype Status = Prepared | Reserved | Passed | Failed | Abandoned | Interrupted

  datatype Receipt = Receipt(scope: Scope, passed: bool, files: Files, workers: Option<Workers>)

  datatype Row = Row(scope: Scope, revision: nat, status: Status, receipt: Option<Receipt>)

  datatype Phase =
    | Absent | AwaitingPlan | Ready | Implementing | AwaitingAction | Blocked
    | Completed | TaskFailed | Cancelled

  datatype Report = Report(status: Status, matches: bool)

  datatype Result = Result(plan: Scope, outcome: Status, report: Report, snapshots: Files)

  datatype Subject = OfPlan(plan: Scope) | OfResult(result: Result)

  datatype Request = Request(subject: Subject, revision: nat, expires: Time)

  datatype Decision = Decision(request: Request, approve: bool)

  datatype OpStatus = Started | Done

  datatype Task = Task(
    phase: Phase, revision: nat, plan: Option<Scope>, pending: Option<Request>,
    planRequest: Option<Request>, planDecision: Option<Decision>,
    result: Option<Result>, actionDecision: Option<Decision>,
    op: Option<OpStatus>)

  /** A live `run`: it holds the worker lock, and until it reserves also the journal's write lock. */
  datatype Stage = Admitting | Writing | Evaluated | Tested

  datatype Runner = Runner(id: Id, stage: Stage)

  /** The record of a workspace's deletion: the row as it was reviewed, and whether the deletion is complete. */
  datatype Reclamation = Reclamation(status: Status, revision: nat, done: bool)

  datatype State = State(
    task: Task,
    pilots: map<Id, Row>,
    workers: map<Id, Workers>,
    reclaims: map<Id, Reclamation>,
    // Volatile: the running worker, the pilot whose workspace is being deleted, which needs the same lock, and
    // whether a process is inside this task's `advance`.
    runner: Option<Runner>,
    deleting: Option<Id>,
    advancing: bool,
    // History: how often a pilot was started.
    starts: map<Id, nat>)

  datatype Action =
    | Prepare(scope: Scope)
    | CreateTask(id: Id)
    | ApprovePlan(approve: bool, now: Time)
    | ApproveResult(approve: bool, now: Time)
    | Renew(expires: Time, now: Time)
    | Cancel
    | BeginAdvance(now: Time)
    | FinishAdvance(matches: bool, files: Files, expires: Time)
    | GiveUpAdvance
    | AdvancerDies
    | FindInterrupted
    | Recover(matches: bool)
    | EnterRun(id: Id, now: Time)
    | Reserve
    | DispatchEdit
    | ObserveEdit(ok: bool)
    | Evaluate
    | DispatchTest
    | ObserveTest(ok: bool)
    | FinishRun
    | RunnerEnds
    | Abandon(id: Id)
    | Reconcile(id: Id, absent: bool)
    | BeginReclaim(id: Id)
    | FinishReclaim
    | DeletionDies

  function Start(): State {
    State(Task(Absent, 0, None, None, None, None, None, None, None), map[], map[], map[], None, None, false, map[])
  }

  predicate Terminal(p: Phase) { p in {Completed, TaskFailed, Cancelled} }

  predicate Settled(s: Status) { s in {Passed, Failed, Abandoned, Interrupted} }

  /** `_approved`: the recorded decision approves exactly this plan, and has not expired. */
  predicate PlanApproved(t: Task) {
    && t.plan.Some?
    && t.planRequest.Some?
    && t.planRequest.value.subject == OfPlan(t.plan.value)
    && t.planDecision == Some(Decision(t.planRequest.value, true))
  }

  /** `require_task_admission`: what a task-bound pilot reads from the kernel before it starts. */
  predicate Admits(t: Task, scope: Scope, now: Time) {
    && PlanApproved(t)
    && t.planRequest.value.expires > now
    && t.plan.value == scope
    && t.phase == Implementing
    && t.op == Some(Started)
  }

  /** `_result`: a passing result of this plan, with the replacements as its snapshots. */
  predicate ResultPasses(t: Task) {
    && t.plan.Some?
    && t.result.Some?
    && t.result.value.plan == t.plan.value
    && t.result.value.outcome == Passed
    && t.result.value.report == Report(Passed, true)
    && t.result.value.snapshots == t.plan.value.replacements
  }

  /** The journal's write lock is held by a run that has not committed its reservation. */
  predicate JournalFree(s: State) {
    s.runner.Some? ==> s.runner.value.stage != Admitting
  }

  predicate Running(s: State, stage: Stage) {
    && s.runner.Some?
    && s.runner.value.stage == stage
    && s.runner.value.id in s.pilots
  }

  function Current(s: State): Row
    requires s.runner.Some? && s.runner.value.id in s.pilots
  {
    s.pilots[s.runner.value.id]
  }

  predicate UsesDocker(s: State) {
    && s.runner.Some?
    && s.runner.value.id in s.pilots
    && Current(s).scope.mode == Docker
    && s.runner.value.id in s.workers
  }

  /** `eligibility`: settled, or prepared for a task whose end means it can never be admitted; and a bound pilot is
      the plan's, of a task that has ended. */
  predicate Reclaimable(t: Task, row: Row) {
    && (Settled(row.status) || (row.status == Prepared && row.scope.bound))
    && (row.scope.bound ==> t.plan == Some(row.scope) && Terminal(t.phase))
  }

  predicate Resolved(w: Workers) { w.edit != Dispatched && w.test != Dispatched }

  function AbandonedRow(row: Row): Row {
    if row.status == Prepared then row.(status := Abandoned, revision := row.revision + 1) else row
  }

  predicate Enabled(s: State, a: Action) {
    var t := s.task;
    match a
    case Prepare(scope) => JournalFree(s) && scope.id !in s.pilots
    case CreateTask(id) => t.phase == Absent && id in s.pilots && s.pilots[id].scope.bound && s.pilots[id].scope.reloads
    case ApprovePlan(approve, now) =>
      && t.phase == AwaitingPlan && !s.advancing
      && t.plan.Some? && t.pending.Some?
      && t.pending.value.subject == OfPlan(t.plan.value)
      && t.pending.value.revision == t.revision
      && t.pending.value.expires > now
    case ApproveResult(approve, now) =>
      && t.phase == AwaitingAction && !s.advancing
      && t.result.Some? && t.pending.Some?
      && t.pending.value.subject == OfResult(t.result.value)
      && t.pending.value.revision == t.revision
      && t.pending.value.expires > now
      && ResultPasses(t)
    case Renew(expires, now) =>
      && t.phase == AwaitingAction && !s.advancing
      && t.pending.Some? && t.pending.value.expires <= now && ResultPasses(t)
    case Cancel => t.phase in {AwaitingPlan, Ready, AwaitingAction} && !s.advancing && t.op != Some(Started)
    case BeginAdvance(now) =>
      && t.phase == Ready && !s.advancing
      && PlanApproved(t) && t.planRequest.value.expires > now
      && t.op == None
      && t.plan.value.id in s.pilots && s.pilots[t.plan.value.id].status == Prepared
      && s.pilots[t.plan.value.id].scope.reloads
    case FinishAdvance(matches, files, expires) =>
      && s.advancing && matches && t.phase == Implementing
      && t.plan.Some? && t.plan.value.id in s.pilots
      && s.pilots[t.plan.value.id].status in {Passed, Failed}
    case GiveUpAdvance => s.advancing && t.phase == Implementing
    case AdvancerDies => s.advancing
    case FindInterrupted => t.phase == Implementing && !s.advancing
    case Recover(matches) =>
      && t.phase == Blocked && !s.advancing && t.op == Some(Started)
      && t.plan.Some? && t.plan.value.id in s.pilots
      && Settled(s.pilots[t.plan.value.id].status)
      && s.pilots[t.plan.value.id].scope.reloads
    case EnterRun(id, now) =>
      && s.runner == None && s.deleting == None
      && id in s.pilots && s.pilots[id].status == Prepared && s.pilots[id].scope.reloads
      && (s.pilots[id].scope.bound ==> Admits(t, s.pilots[id].scope, now))
      && s.pilots[id].scope.expires > now
    case Reserve => Running(s, Admitting)
    case DispatchEdit => Running(s, Writing) && UsesDocker(s) && s.workers[s.runner.value.id].edit == Planned
    case ObserveEdit(ok) => Running(s, Writing) && UsesDocker(s) && s.workers[s.runner.value.id].edit == Dispatched
    case Evaluate =>
      Running(s, Writing) && (Current(s).scope.mode == Docker ==> UsesDocker(s) && s.workers[s.runner.value.id].edit == Observed(true))
    case DispatchTest => Running(s, Evaluated) && UsesDocker(s) && s.workers[s.runner.value.id].test == Planned
    case ObserveTest(ok) => Running(s, Evaluated) && UsesDocker(s) && s.workers[s.runner.value.id].test == Dispatched
    case FinishRun =>
      && ((Running(s, Evaluated) && Current(s).scope.mode == LocalData) || Running(s, Tested))
      && Current(s).status == Reserved
    case RunnerEnds => s.runner.Some?
    case Abandon(id) => JournalFree(s) && id in s.pilots && s.pilots[id].status == Prepared && s.pilots[id].scope.reloads
    case Reconcile(id, absent) =>
      && s.runner == None && s.deleting == None
      && id in s.pilots && s.pilots[id].status == Reserved && s.pilots[id].revision < REVISION_CAP
      && (s.pilots[id].scope.mode == Docker ==> id in s.workers) && s.pilots[id].scope.reloads
    case BeginReclaim(id) =>
      && s.runner == None && s.deleting == None
      && id in s.pilots && Reclaimable(t, s.pilots[id]) && s.pilots[id].scope.reloads
      && (id in s.reclaims ==> !s.reclaims[id].done)
      && (id in s.workers ==> Resolved(s.workers[id]))
    case FinishReclaim => s.deleting.Some? && s.deleting.value in s.reclaims
    case DeletionDies => s.deleting.Some?
  }

  function Moved(t: Task, p: Phase): Task { t.(phase := p, revision := t.revision + 1) }

  /** `_request` and the move or renewal that follows it in the same transaction. */
  function Requesting(t: Task, subject: Subject, expires: Time): Task {
    var q := Request(subject, t.revision + 1, expires);
    if subject.OfPlan? then t.(pending := Some(q), planRequest := Some(q)) else t.(pending := Some(q))
  }

  function WithWorkers(s: State, w: Workers): State
    requires s.runner.Some?
  {
    s.(workers := s.workers[s.runner.value.id := w])
  }

  function WithRow(s: State, id: Id, row: Row): State {
    s.(pilots := s.pilots[id := row])
  }

  /** The receipt of a run whose workspace held exactly the replacements. */
  function ReceiptOf(s: State): Receipt
    requires s.runner.Some? && s.runner.value.id in s.pilots
  {
    var id, row := s.runner.value.id, Current(s);
    Receipt(row.scope, row.scope.passes, row.scope.replacements,
            if row.scope.mode == Docker && id in s.workers then Some(s.workers[id]) else None)
  }

  function Apply(s: State, a: Action): State
    requires Enabled(s, a)
  {
    var t := s.task;
    match a
    case Prepare(scope) => WithRow(s, scope.id, Row(scope, 0, Prepared, None))
    case CreateTask(id) =>
      // DRAFT_SPEC and SPEC_READY last only inside this transaction.
      var scope := s.pilots[id].scope;
      s.(task := Moved(Requesting(t.(plan := Some(scope), revision := t.revision + 1), OfPlan(scope), scope.expires), AwaitingPlan))
    case ApprovePlan(approve, now) =>
      var t' := t.(planDecision := Some(Decision(t.pending.value, approve)), pending := None);
      s.(task := Moved(t', if approve then Ready else Cancelled))
    case ApproveResult(approve, now) =>
      var t' := t.(actionDecision := Some(Decision(t.pending.value, approve)), pending := None);
      s.(task := Moved(t', if approve then Completed else Cancelled))
    case Renew(expires, now) =>
      var t' := Requesting(t, OfResult(t.result.value), expires);
      s.(task := t'.(revision := t'.revision + 1))
    case Cancel => s.(task := Moved(t.(pending := None), Cancelled))
    case BeginAdvance(now) => s.(task := Moved(t.(op := Some(Started)), Implementing), advancing := true)
    case FinishAdvance(matches, files, expires) =>
      var status := s.pilots[t.plan.value.id].status;
      var result := Result(t.plan.value, status, Report(status, matches), files);
      var t' := t.(result := Some(result), op := Some(Done));
      s.(advancing := false,
         task := if status == Passed then Moved(Requesting(t', OfResult(result), expires), AwaitingAction)
                 else Moved(t', TaskFailed))
    case GiveUpAdvance => s.(task := Moved(t, Blocked), advancing := false)
    case AdvancerDies => s.(advancing := false)
    case FindInterrupted => s.(task := Moved(t, Blocked))
    case Recover(matches) =>
      var result := Result(t.plan.value, Interrupted, Report(s.pilots[t.plan.value.id].status, matches), map[]);
      s.(task := Moved(t.(result := Some(result), op := Some(Done)), TaskFailed))
    case EnterRun(id, now) => s.(runner := Some(Runner(id, Admitting)))
    case Reserve =>
      var id, row := s.runner.value.id, Current(s);
      var s' := WithRow(s, id, row.(status := Reserved, revision := row.revision + 1));
      s'.(runner := Some(Runner(id, Writing)),
          workers := if row.scope.mode == Docker then s.workers[id := Workers(row.scope, Planned, Planned, 0)] else s.workers,
          starts := s.starts[id := (if id in s.starts then s.starts[id] else 0) + 1])
    case DispatchEdit => WithWorkers(s, s.workers[s.runner.value.id].(edit := Dispatched))
    case ObserveEdit(ok) =>
      WithWorkers(s, s.workers[s.runner.value.id].(edit := Observed(ok))).(runner := if ok then s.runner else None)
    case Evaluate => s.(runner := Some(s.runner.value.(stage := Evaluated)))
    case DispatchTest => WithWorkers(s, s.workers[s.runner.value.id].(test := Dispatched))
    case ObserveTest(ok) =>
      WithWorkers(s, s.workers[s.runner.value.id].(test := Observed(ok))).(
        runner := if ok then Some(s.runner.value.(stage := Tested)) else None)
    case FinishRun =>
      var id, row := s.runner.value.id, Current(s);
      WithRow(s, id, row.(status := if row.scope.passes then Passed else Failed, revision := row.revision + 1,
                          receipt := Some(ReceiptOf(s)))).(runner := None)
    case RunnerEnds => s.(runner := None)
    case Abandon(id) => WithRow(s, id, s.pilots[id].(status := Abandoned, revision := s.pilots[id].revision + 1))
    case Reconcile(id, absent) =>
      var row := s.pilots[id];
      var ended := row.scope.mode == LocalData || absent;
      var s' := WithRow(s, id, row.(status := if ended then Interrupted else Reserved, revision := row.revision + 1));
      if row.scope.mode == Docker then s'.(workers := s.workers[id := s.workers[id].(cleanup := s.workers[id].cleanup + 1)])
      else s'
    case BeginReclaim(id) =>
      // The abandonment and the record of the intent are one commit, before any deletion.
      var row := AbandonedRow(s.pilots[id]);
      WithRow(s, id, row).(deleting := Some(id),
                           reclaims := if id in s.reclaims then s.reclaims
                                       else s.reclaims[id := Reclamation(row.status, row.revision, false)])
    case FinishReclaim =>
      s.(deleting := None, reclaims := s.reclaims[s.deleting.value := s.reclaims[s.deleting.value].(done := true)])
    case DeletionDies => s.(deleting := None)
  }

  predicate Next(s: State, a: Action, s': State) {
    Enabled(s, a) && s' == Apply(s, a)
  }

  ghost predicate Run(ss: seq<State>, acts: seq<Action>) {
    && |ss| == |acts| + 1
    && ss[0] == Start()
    && forall i :: 0 <= i < |acts| ==> Next(ss[i], acts[i], ss[i + 1])
  }
}
