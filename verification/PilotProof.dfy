/** What every run keeps of a repository task and its pilots, across crashes in either database. */
module PilotProof {
  import opened Basics
  import opened Pilots

  // ---- The checks of `_load`, `_workers` and `inspect` ----

  predicate RevisionOk(row: Row) {
    match row.status
    case Prepared => row.revision == 0
    case Reserved => 1 <= row.revision <= 1001
    case Passed => row.revision == 2
    case Failed => row.revision == 2
    case Abandoned => row.revision == 1
    case Interrupted => 2 <= row.revision <= 1001
  }

  predicate LoadOk(id: Id, row: Row) {
    && row.scope.id == id
    && RevisionOk(row)
    && (row.receipt.Some? <==> row.status in {Passed, Failed})
  }

  predicate WorkersOk(id: Id, row: Row, workers: map<Id, Workers>) {
    && (row.scope.mode == Docker ==> (id !in workers <==> row.status in {Prepared, Abandoned}))
    && (id in workers ==> workers[id].scope == row.scope)
  }

  predicate ReceiptOk(id: Id, row: Row, workers: map<Id, Workers>) {
    row.receipt.Some? ==>
      && row.receipt.value.scope == row.scope
      && row.receipt.value.files == row.scope.replacements
      && row.receipt.value.passed == row.scope.passes
      && (row.status == Passed <==> row.receipt.value.passed)
      && (row.scope.mode == Docker ==> id in workers && row.receipt.value.workers == Some(workers[id]))
  }

  predicate InspectOk(id: Id, row: Row, workers: map<Id, Workers>) {
    LoadOk(id, row) && WorkersOk(id, row, workers) && ReceiptOk(id, row, workers)
  }

  ghost predicate RowsOk(s: State) {
    forall id :: id in s.pilots ==> InspectOk(id, s.pilots[id], s.workers)
  }

  // ---- The running worker ----

  /** The row and the worker journal are where the running process left them. */
  predicate RunnerOk(s: State) {
    s.runner.Some? ==>
      && s.runner.value.id in s.pilots
      && var row := Current(s);
         if s.runner.value.stage == Admitting then row.status == Prepared
         else row.status == Reserved && row.revision == 1
  }

  ghost predicate StartsOk(s: State) {
    && (forall id :: id in s.starts ==> id in s.pilots && s.starts[id] == 1 && s.pilots[id].status !in {Prepared, Abandoned})
    && (forall id :: id in s.pilots && s.pilots[id].status !in {Prepared, Abandoned} ==> id in s.starts)
  }

  // ---- The task ----

  predicate PhaseOk(t: Task) {
    && (t.phase == Absent <==> t.plan == None)
    && (t.phase == Absent ==> t.planDecision == None)
    && (t.op == None <==> t.phase in {Absent, AwaitingPlan, Ready} || (t.phase == Cancelled && t.result == None))
    && (t.op == Some(Started) <==> t.phase in {Implementing, Blocked})
    && (t.plan.Some? ==> t.plan.value.bound && t.planRequest.Some? && t.planRequest.value.subject == OfPlan(t.plan.value))
    && (t.phase == AwaitingPlan ==> t.pending == t.planRequest)
    && (t.phase in {Ready, Implementing, Blocked, AwaitingAction, Completed, TaskFailed} ==> PlanApproved(t))
    && (t.result.Some? ==> t.phase in {AwaitingAction, Completed, TaskFailed, Cancelled})
    && (t.phase == AwaitingAction ==> t.result.Some?)
    && (t.phase == Completed ==>
          && ResultPasses(t)
          && t.actionDecision.Some? && t.actionDecision.value.approve
          && t.actionDecision.value.request.subject == OfResult(t.result.value))
  }

  /** The plan's pilot, as far as the kernel relies on it. */
  predicate PlanPilotOk(s: State) {
    var t := s.task;
    t.plan.Some? ==>
      && t.plan.value.id in s.pilots
      && var row := s.pilots[t.plan.value.id];
         && row.scope == t.plan.value
         && (t.op == None ==> row.status in {Prepared, Abandoned})
         && (t.op == Some(Done) ==> Settled(row.status))
         && (t.result.Some? && t.result.value.outcome == Passed ==> row.status == Passed)
  }

  /** A bound pilot past preparation, or about to be, is the plan's, and its task has left `Ready` for good. */
  ghost predicate BoundOk(s: State) {
    && (forall id :: id in s.pilots && s.pilots[id].scope.bound && s.pilots[id].status !in {Prepared, Abandoned} ==>
          s.task.plan.Some? && s.task.plan.value.id == id && s.task.op.Some?)
    && (s.runner.Some? && s.runner.value.id in s.pilots && Current(s).scope.bound ==>
          && s.task.plan.Some? && s.task.plan.value.id == s.runner.value.id
          && (s.runner.value.stage == Admitting ==> s.task.op == Some(Started)))
  }

  // ---- Reclamation ----

  /** What a deletion relies on: the reviewed row is settled as it was recorded, no worker of it is unresolved, and a
      bound one's task has ended. */
  predicate ReclaimOk(s: State, id: Id, record: Reclamation) {
    && id in s.pilots
    && var row := s.pilots[id];
       && Settled(row.status)
       && record.status == row.status && record.revision == row.revision
       && (row.scope.bound ==> s.task.plan == Some(row.scope) && Terminal(s.task.phase))
       && (id in s.workers ==> Resolved(s.workers[id]))
  }

  ghost predicate ReclaimsOk(s: State) {
    && (forall id :: id in s.reclaims ==> ReclaimOk(s, id, s.reclaims[id]))
    && (s.deleting.Some? ==> s.runner == None && s.deleting.value in s.reclaims && !s.reclaims[s.deleting.value].done)
  }

  /** `inspect` answers: the scope can be read back, and the row passes its checks. */
  predicate Inspects(id: Id, row: Row, workers: map<Id, Workers>) {
    row.scope.reloads && InspectOk(id, row, workers)
  }

  /** Nothing went further than preparation without its scope being read back. */
  ghost predicate ReloadsOk(s: State) {
    && (forall id :: id in s.pilots && s.pilots[id].status != Prepared ==> s.pilots[id].scope.reloads)
    && (s.runner.Some? && s.runner.value.id in s.pilots ==> Current(s).scope.reloads)
    && (s.task.plan.Some? ==> s.task.plan.value.reloads)
  }

  ghost predicate Inv(s: State) {
    && RowsOk(s)
    && RunnerOk(s)
    && StartsOk(s)
    && PhaseOk(s.task)
    && PlanPilotOk(s)
    && BoundOk(s)
    && ReclaimsOk(s)
    && ReloadsOk(s)
    && (s.advancing ==> s.task.phase == Implementing)
    && (forall id :: id in s.workers ==> id in s.pilots)
  }

  lemma StartInv()
    ensures Inv(Pilots.Start())
  {
  }

  // ---- Steps that leave every row as it is: those of the kernel, and the end of a deletion ----

  predicate LeavesRows(a: Action) {
    a.CreateTask? || a.ApprovePlan? || a.ApproveResult? || a.Renew? || a.Cancel? || a.BeginAdvance? || a.FinishAdvance?
    || a.GiveUpAdvance? || a.AdvancerDies? || a.FindInterrupted? || a.Recover? || a.FinishReclaim? || a.DeletionDies?
  }

  lemma RowsLeft(s: State, a: Action)
    requires Enabled(s, a) && LeavesRows(a)
    ensures var s' := Apply(s, a); s'.pilots == s.pilots && s'.workers == s.workers && s'.runner == s.runner && s'.starts == s.starts
  {
  }

  lemma KernelFrame(s: State, a: Action)
    requires Inv(s) && Enabled(s, a) && LeavesRows(a)
    ensures var s' := Apply(s, a);
            && s'.pilots == s.pilots && s'.workers == s.workers && s'.runner == s.runner && s'.starts == s.starts
            && RowsOk(s') && RunnerOk(s') && StartsOk(s')
  {
    RowsLeft(s, a);
    hide RowsOk, StartsOk, Enabled, Apply;
    RowsFrame(s, Apply(s, a));
  }

  lemma RowsFrame(s: State, s': State)
    requires s'.pilots == s.pilots && s'.workers == s.workers && s'.starts == s.starts
    ensures RowsOk(s) ==> RowsOk(s')
    ensures StartsOk(s) ==> StartsOk(s')
  {
  }

  lemma KernelPhase(s: State, a: Action)
    requires PhaseOk(s.task) && PlanPilotOk(s) && (s.advancing ==> s.task.phase == Implementing)
    requires Enabled(s, a) && LeavesRows(a)
    requires a.CreateTask? ==> s.pilots[a.id].scope.id == a.id && s.pilots[a.id].status in {Prepared, Abandoned}
    ensures var s' := Apply(s, a);
            PhaseOk(s'.task) && PlanPilotOk(s') && (s'.advancing ==> s'.task.phase == Implementing)
  {
    if a.FinishReclaim? || a.DeletionDies? {
      TaskLeft(s, a);
    } else if a.CreateTask? || a.ApprovePlan? || a.ApproveResult? || a.Renew? || a.Cancel? {
      DecisionPhase(s, a);
    } else {
      OperationPhase(s, a);
    }
    hide Enabled, Apply, PhaseOk;
  }

  lemma TaskLeft(s: State, a: Action)
    requires Enabled(s, a) && (a.FinishReclaim? || a.DeletionDies?)
    ensures var s' := Apply(s, a); s'.task == s.task && s'.advancing == s.advancing && s'.pilots == s.pilots
  {
  }

  lemma DecisionPhase(s: State, a: Action)
    requires PhaseOk(s.task) && PlanPilotOk(s) && (s.advancing ==> s.task.phase == Implementing) && Enabled(s, a)
    requires a.CreateTask? || a.ApprovePlan? || a.ApproveResult? || a.Renew? || a.Cancel?
    requires a.CreateTask? ==> s.pilots[a.id].scope.id == a.id && s.pilots[a.id].status in {Prepared, Abandoned}
    ensures var s' := Apply(s, a);
            PhaseOk(s'.task) && PlanPilotOk(s') && (s'.advancing ==> s'.task.phase == Implementing)
  {
  }

  lemma OperationPhase(s: State, a: Action)
    requires PhaseOk(s.task) && PlanPilotOk(s) && (s.advancing ==> s.task.phase == Implementing) && Enabled(s, a)
    requires a.BeginAdvance? || a.FinishAdvance? || a.GiveUpAdvance? || a.AdvancerDies? || a.FindInterrupted? || a.Recover?
    ensures var s' := Apply(s, a);
            PhaseOk(s'.task) && PlanPilotOk(s') && (s'.advancing ==> s'.task.phase == Implementing)
  {
  }

  /** The kernel never changes a plan, never forgets an operation, and ends one only after its pilot settled. */
  lemma KernelOperation(s: State, a: Action)
    requires Enabled(s, a) && LeavesRows(a) && !a.CreateTask?
    ensures var t, t' := s.task, Apply(s, a).task;
            && t'.plan == t.plan
            && (t.op.Some? ==> t'.op.Some?)
            && (t.op == Some(Started) && t'.op != Some(Started) ==>
                  t.plan.Some? && t.plan.value.id in s.pilots && Settled(s.pilots[t.plan.value.id].status))
  {
  }

  lemma KernelBound(s: State, a: Action)
    requires PhaseOk(s.task) && RunnerOk(s) && BoundOk(s) && Enabled(s, a) && LeavesRows(a)
    ensures BoundOk(Apply(s, a))
  {
    if a.CreateTask? {
      assert s.task.plan == None;
    } else {
      KernelOperation(s, a);
      var s' := Apply(s, a);
      assert s'.pilots == s.pilots && s'.runner == s.runner;
      hide Enabled, Apply, PhaseOk;
      BoundFrame(s, s');
    }
  }

  lemma BoundFrame(s: State, s': State)
    requires BoundOk(s) && RunnerOk(s) && s'.pilots == s.pilots && s'.runner == s.runner && s'.task.plan == s.task.plan
    requires s.task.op.Some? ==> s'.task.op.Some?
    requires s.task.op == Some(Started) && s'.task.op != Some(Started) ==>
               s.task.plan.Some? && s.task.plan.value.id in s.pilots && Settled(s.pilots[s.task.plan.value.id].status)
    ensures BoundOk(s')
  {
  }

  lemma KernelKeeps(s: State, a: Action)
    requires Inv(s) && Enabled(s, a) && LeavesRows(a)
    ensures Inv(Apply(s, a))
  {
    hide RowsOk, StartsOk, RunnerOk, PhaseOk, PlanPilotOk, ReclaimsOk, ReloadsOk;
    ReclaimsKept(s, a);
    ReloadsKept(s, a);
    KernelFrame(s, a);
    CreatedIsPrepared(s, a);
    KernelPhase(s, a);
    KernelBound(s, a);
  }

  /** Of a settled pilot the only step is the review of its workspace. */
  lemma SettledTouched(s: State, a: Action)
    requires RunnerOk(s) && Enabled(s, a) && !LeavesRows(a)
    requires Touched(s, a).Some? && Touched(s, a).value in s.pilots && Settled(s.pilots[Touched(s, a).value].status)
    ensures a == BeginReclaim(Touched(s, a).value)
  {
  }

  /** A settled pilot's row, its worker journal and its start count never change again. */
  lemma SettledStays(s: State, a: Action, id: Id)
    requires RunnerOk(s) && Enabled(s, a) && id in s.pilots && Settled(s.pilots[id].status)
    ensures var s' := Apply(s, a);
            && id in s'.pilots && s'.pilots[id] == s.pilots[id]
            && (id in s'.workers <==> id in s.workers) && (id in s.workers ==> s'.workers[id] == s.workers[id])
            && (id in s'.starts <==> id in s.starts) && (id in s.starts ==> s'.starts[id] == s.starts[id])
  {
    if LeavesRows(a) {
      RowsLeft(s, a);
    } else {
      PilotFrame(s, a);
      if Touched(s, a).value == id { SettledTouched(s, a); }
    }
  }

  /** A task that has ended never changes again. */
  lemma TerminalStep(s: State, a: Action)
    requires Enabled(s, a) && Terminal(s.task.phase) && (s.advancing ==> s.task.phase == Implementing)
    ensures Apply(s, a).task == s.task
  {
  }

  predicate Reclaims(a: Action) { a.BeginReclaim? || a.FinishReclaim? || a.DeletionDies? }

  lemma ReclaimFrame(s: State, a: Action)
    requires Enabled(s, a) && !Reclaims(a)
    ensures Apply(s, a).reclaims == s.reclaims && Apply(s, a).deleting == s.deleting
  {
  }

  /** A record keeps what was reviewed, and only a review makes one. */
  lemma RecordKept(s: State, a: Action, id: Id)
    requires Enabled(s, a) && id in Apply(s, a).reclaims && a != BeginReclaim(id)
    ensures id in s.reclaims
    ensures var r, r' := s.reclaims[id], Apply(s, a).reclaims[id]; r'.status == r.status && r'.revision == r.revision && (r.done ==> r'.done)
  {
    if !Reclaims(a) { ReclaimFrame(s, a); }
  }

  lemma ReclaimBegins(s: State, id: Id)
    requires ReclaimsOk(s) && Enabled(s, BeginReclaim(id))
    ensures var s' := Apply(s, BeginReclaim(id));
            && id in s'.reclaims && ReclaimOk(s', id, s'.reclaims[id])
            && !s'.reclaims[id].done && s'.runner == None && s'.deleting == Some(id)
  {
    if id in s.reclaims { assert ReclaimOk(s, id, s.reclaims[id]); }
  }

  /** A deletion holds the worker lock: nothing runs beside it. */
  lemma DeletionKept(s: State, a: Action)
    requires ReclaimsOk(s) && Enabled(s, a) && !a.BeginReclaim? && Apply(s, a).deleting.Some?
    ensures Apply(s, a).deleting == s.deleting && Apply(s, a).runner == None && Apply(s, a).reclaims == s.reclaims
  {
    if !Reclaims(a) {
      ReclaimFrame(s, a);
      if LeavesRows(a) { RowsLeft(s, a); } else { RunnerMoves(s, a); }
    }
  }

  lemma ReclaimKept(s: State, a: Action, id: Id)
    requires Enabled(s, a) && RunnerOk(s) && ReclaimsOk(s) && (s.advancing ==> s.task.phase == Implementing)
    requires id in Apply(s, a).reclaims
    ensures ReclaimOk(Apply(s, a), id, Apply(s, a).reclaims[id])
  {
    if a == BeginReclaim(id) {
      ReclaimBegins(s, id);
    } else {
      RecordKept(s, a, id);
      assert ReclaimOk(s, id, s.reclaims[id]);
      SettledStays(s, a, id);
      var s' := Apply(s, a);
      if s.pilots[id].scope.bound { TerminalStep(s, a); }
      hide Enabled, Apply, RunnerOk, ReclaimsOk;
    }
  }

  lemma ReclaimsKept(s: State, a: Action)
    requires Enabled(s, a) && RunnerOk(s) && ReclaimsOk(s) && (s.advancing ==> s.task.phase == Implementing)
    ensures ReclaimsOk(Apply(s, a))
  {
    var s' := Apply(s, a);
    forall id | id in s'.reclaims ensures ReclaimOk(s', id, s'.reclaims[id]) { ReclaimKept(s, a, id); }
    if s'.deleting.Some? {
      if a.BeginReclaim? { ReclaimBegins(s, a.id); } else { DeletionKept(s, a); }
    }
    hide Enabled, Apply, RunnerOk, ReclaimOk;
    assert s'.deleting.Some? ==> s'.runner == None && s'.deleting.value in s'.reclaims && !s'.reclaims[s'.deleting.value].done;
  }

  /** Before the task exists no bound pilot has started. */
  lemma CreatedIsPrepared(s: State, a: Action)
    requires Inv(s) && Enabled(s, a)
    ensures a.CreateTask? ==> s.pilots[a.id].scope.id == a.id && s.pilots[a.id].status in {Prepared, Abandoned}
  {
    if a.CreateTask? { assert InspectOk(a.id, s.pilots[a.id], s.workers); }
  }

  // ---- Steps of one pilot ----

  /** The pilot a step concerns. */
  function Touched(s: State, a: Action): Option<Id> {
    match a
    case Prepare(scope) => Some(scope.id)
    case EnterRun(id, _) => Some(id)
    case Abandon(id) => Some(id)
    case Reconcile(id, _) => Some(id)
    case BeginReclaim(id) => Some(id)
    case _ => if s.runner.Some? then Some(s.runner.value.id) else None
  }

  /** Nothing but the row, worker journal and start count of `id` changes. */
  ghost predicate OnlyPilot(s: State, s': State, id: Id) {
    && s'.task == s.task
    && s'.advancing == s.advancing
    && (forall i :: i != id ==> (i in s'.pilots <==> i in s.pilots) && (i in s.pilots ==> s'.pilots[i] == s.pilots[i]))
    && (forall i :: i != id ==> (i in s'.workers <==> i in s.workers) && (i in s.workers ==> s'.workers[i] == s.workers[i]))
    && (forall i :: i != id ==> (i in s'.starts <==> i in s.starts) && (i in s.starts ==> s'.starts[i] == s.starts[i]))
    && (id in s.pilots ==> id in s'.pilots && s'.pilots[id].scope == s.pilots[id].scope)
  }

  lemma PilotFrame(s: State, a: Action)
    requires Enabled(s, a) && !LeavesRows(a)
    ensures Touched(s, a).Some? && OnlyPilot(s, Apply(s, a), Touched(s, a).value)
  {
  }

  lemma OtherRows(s: State, s': State, id: Id)
    requires OnlyPilot(s, s', id) && RowsOk(s) && (id in s'.pilots ==> InspectOk(id, s'.pilots[id], s'.workers))
    ensures RowsOk(s')
  {
    forall i | i in s'.pilots ensures InspectOk(i, s'.pilots[i], s'.workers) {
      if i != id { assert InspectOk(i, s.pilots[i], s.workers); }
    }
  }

  lemma TouchedRow(s: State, a: Action)
    requires RunnerOk(s) && Enabled(s, a) && !LeavesRows(a)
    requires Touched(s, a).value in s.pilots ==>
               InspectOk(Touched(s, a).value, s.pilots[Touched(s, a).value], s.workers)
    requires a.Prepare? ==> a.scope.id !in s.workers
    ensures var s' := Apply(s, a);
            var id := Touched(s, a).value;
            id in s'.pilots && InspectOk(id, s'.pilots[id], s'.workers)
  {
  }

  lemma RunnerKept(s: State, a: Action)
    requires RunnerOk(s) && Enabled(s, a) && !LeavesRows(a)
    requires Touched(s, a).value in s.pilots ==> RevisionOk(s.pilots[Touched(s, a).value])
    ensures RunnerOk(Apply(s, a))
  {
  }

  /** How the touched pilot's status moves: it starts only by `Reserve`, and a settled one stays. */
  lemma StatusMoves(s: State, a: Action)
    requires RunnerOk(s) && Enabled(s, a) && !LeavesRows(a)
    ensures var s', id := Apply(s, a), Touched(s, a).value;
            && (id in s.pilots && Settled(s.pilots[id].status) ==> s'.pilots[id].status == s.pilots[id].status)
            && id in s'.pilots
            && (id !in s.pilots ==> s'.pilots[id].status == Prepared)
            && (id in s.pilots && !a.Reserve? ==>
                  (s'.pilots[id].status in {Prepared, Abandoned} <==> s.pilots[id].status in {Prepared, Abandoned})
                  && s'.starts == s.starts)
            && (a.Reserve? ==> s.pilots[id].status == Prepared && s'.pilots[id].status == Reserved
                               && s'.starts == s.starts[id := (if id in s.starts then s.starts[id] else 0) + 1])
  {
  }

  lemma StartsKept(s: State, a: Action)
    requires RunnerOk(s) && StartsOk(s) && Enabled(s, a) && !LeavesRows(a)
    ensures StartsOk(Apply(s, a))
  {
    PilotFrame(s, a);
    StatusMoves(s, a);
    PrepareStarts(s, a);
    var s', p := Apply(s, a), Touched(s, a).value;
    hide Enabled, Apply, RunnerOk;
    forall id | id in s'.starts
      ensures id in s'.pilots && s'.starts[id] == 1 && s'.pilots[id].status !in {Prepared, Abandoned}
    {
      if id != p { assert id in s.starts; }
    }
    forall id | id in s'.pilots && s'.pilots[id].status !in {Prepared, Abandoned} ensures id in s'.starts {
      if id != p { assert id in s.pilots && id in s.starts; }
    }
  }

  lemma PrepareStarts(s: State, a: Action)
    requires Enabled(s, a)
    ensures a.Prepare? ==> Apply(s, a).starts == s.starts && a.scope.id !in s.pilots
  {
  }

  lemma PlanPilotKept(s: State, a: Action)
    requires RunnerOk(s) && PhaseOk(s.task) && PlanPilotOk(s) && BoundOk(s) && Enabled(s, a) && !LeavesRows(a)
    ensures PlanPilotOk(Apply(s, a))
  {
    PilotFrame(s, a);
    StatusMoves(s, a);
    if a.Reserve? { assert Current(s).scope.bound ==> s.task.op == Some(Started); }
    hide Enabled, Apply;
  }

  lemma BoundKept(s: State, a: Action)
    requires RunnerOk(s) && PhaseOk(s.task) && BoundOk(s) && Enabled(s, a) && !LeavesRows(a)
    requires a.EnterRun? ==> s.pilots[a.id].scope.id == a.id
    ensures BoundOk(Apply(s, a))
  {
    PilotFrame(s, a);
    StatusMoves(s, a);
    RunnerMoves(s, a);
    hide Enabled, Apply;
  }

  lemma RunnerMoves(s: State, a: Action)
    requires Enabled(s, a) && !LeavesRows(a)
    ensures var s' := Apply(s, a);
            && (a.EnterRun? ==>
                  && s'.runner == Some(Runner(a.id, Admitting)) && s'.pilots == s.pilots
                  && (s.pilots[a.id].scope.bound ==> s.task.plan == Some(s.pilots[a.id].scope) && s.task.op == Some(Started)))
            && (!a.EnterRun? && s'.runner.Some? ==>
                  && s.runner.Some? && s'.runner.value.id == s.runner.value.id
                  && (s'.runner.value.stage == Admitting ==> s'.runner == s.runner))
            && (a.Reserve? ==> s.runner.Some? && s.runner.value.stage == Admitting)
  {
  }

  lemma WorkersHavePilots(s: State, a: Action)
    requires Enabled(s, a) && !LeavesRows(a) && forall id :: id in s.workers ==> id in s.pilots
    ensures forall id :: id in Apply(s, a).workers ==> id in Apply(s, a).pilots
  {
  }

  lemma PilotKeeps(s: State, a: Action)
    requires Inv(s) && Enabled(s, a) && !LeavesRows(a)
    ensures Inv(Apply(s, a))
  {
    PilotFrame(s, a);
    var id := Touched(s, a).value;
    assert id in s.pilots ==> InspectOk(id, s.pilots[id], s.workers) && RevisionOk(s.pilots[id]);
    hide RevisionOk, RowsOk, InspectOk, RunnerOk, StartsOk, PhaseOk, PlanPilotOk, BoundOk, ReclaimsOk, ReloadsOk, OnlyPilot;
    ReclaimsKept(s, a);
    ReloadsKept(s, a);
    AdvancingKept(s, a);
    TouchedRow(s, a);
    RunnerKept(s, a);
    StartsKept(s, a);
    PlanPilotKept(s, a);
    EnteredId(s, a);
    WorkersHavePilots(s, a);
    BoundKept(s, a);
    OtherRows(s, Apply(s, a), id);
  }

  /** A step of a pilot that leaves preparation has read its scope back. */
  lemma ReloadedFirst(s: State, a: Action)
    requires ReloadsOk(s) && RunnerOk(s) && Enabled(s, a) && !LeavesRows(a)
    ensures var s', id := Apply(s, a), Touched(s, a).value;
            && id in s'.pilots && (s'.pilots[id].status != Prepared ==> s'.pilots[id].scope.reloads)
            && (s'.runner.Some? && s'.runner != s.runner ==> s'.runner.value.id == id && s'.pilots[id].scope.reloads)
  {
  }

  lemma PlanReloads(s: State, a: Action)
    requires ReloadsOk(s) && Enabled(s, a)
    ensures Apply(s, a).task.plan.Some? ==> Apply(s, a).task.plan.value.reloads
  {
    if LeavesRows(a) && !a.CreateTask? { KernelOperation(s, a); } else if !a.CreateTask? { AdvancingKept(s, a); }
  }

  lemma ReloadsKept(s: State, a: Action)
    requires ReloadsOk(s) && RunnerOk(s) && Enabled(s, a)
    ensures ReloadsOk(Apply(s, a))
  {
    PlanReloads(s, a);
    if LeavesRows(a) {
      RowsLeft(s, a);
      hide Enabled, Apply;
    } else {
      PilotFrame(s, a);
      ReloadedFirst(s, a);
      hide Enabled, Apply;
    }
  }

  lemma AdvancingKept(s: State, a: Action)
    requires Enabled(s, a) && !LeavesRows(a)
    ensures Apply(s, a).task == s.task && Apply(s, a).advancing == s.advancing
  {
  }

  lemma EnteredId(s: State, a: Action)
    requires RowsOk(s) && Enabled(s, a)
    ensures a.EnterRun? ==> s.pilots[a.id].scope.id == a.id
  {
    if a.EnterRun? { assert InspectOk(a.id, s.pilots[a.id], s.workers); }
  }
}
