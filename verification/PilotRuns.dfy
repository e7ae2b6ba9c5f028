/** What holds over every run of a repository task and its pilots. */
module PilotRuns {
  import opened Basics
  import opened Pilots
  import opened PilotProof

  lemma {:induction false} RunKeepsInv(ss: seq<State>, acts: seq<Action>, i: nat)
    requires Run(ss, acts) && i <= |acts|
    ensures Inv(ss[i])
  {
    hide Inv, Enabled, Apply;
    if i == 0 {
      StartInv();
    } else {
      RunKeepsInv(ss, acts, i - 1);
      assert Next(ss[i - 1], acts[i - 1], ss[i]);
      if LeavesRows(acts[i - 1]) { KernelKeeps(ss[i - 1], acts[i - 1]); } else { PilotKeeps(ss[i - 1], acts[i - 1]); }
    }
  }

  /** Every row any run can reach passes the lifecycle, worker and receipt checks that reading it makes. So it can be
      inspected exactly if its scope can be read back, as every row's can that is more than prepared. */
  lemma RowsPassInspection(ss: seq<State>, acts: seq<Action>, i: nat, id: Id)
    requires Run(ss, acts) && i <= |acts| && id in ss[i].pilots
    ensures InspectOk(id, ss[i].pilots[id], ss[i].workers)
    ensures Inspects(id, ss[i].pilots[id], ss[i].workers) <==> ss[i].pilots[id].scope.reloads
    ensures ss[i].pilots[id].status != Prepared ==> Inspects(id, ss[i].pilots[id], ss[i].workers)
  {
    RunKeepsInv(ss, acts, i);
  }

  /** What `retire` asks of a pilot journal: every pilot is settled. */
  predicate Retirable(s: State) {
    forall id :: id in s.pilots ==> Settled(s.pilots[id].status)
  }

  /** A pilot whose scope cannot be read back stays prepared for good: nothing inspects it, runs it, abandons it or
      reclaims it, no task is created for it, and its journal can never be retired. */
  lemma {:induction false} UnreadableForever(ss: seq<State>, acts: seq<Action>, i: nat, k: nat, id: Id)
    requires Run(ss, acts) && i <= k <= |acts| && id in ss[i].pilots && !ss[i].pilots[id].scope.reloads
    ensures id in ss[k].pilots && ss[k].pilots[id] == ss[i].pilots[id] == Row(ss[i].pilots[id].scope, 0, Prepared, None)
    ensures !Inspects(id, ss[k].pilots[id], ss[k].workers)
    ensures StartsOf(ss[k], id) == 0 && id !in ss[k].reclaims && ss[k].deleting != Some(id)
    ensures ss[k].task.plan != Some(ss[k].pilots[id].scope) && !Retirable(ss[k])
    decreases k
  {
    RunKeepsInv(ss, acts, i);
    Unreadable(ss[i], id);
    if i < k {
      UnreadableForever(ss, acts, i, k - 1, id);
      ScopeIsFixed(ss, acts, i, k, id);
      RunKeepsInv(ss, acts, k);
      Unreadable(ss[k], id);
    }
  }

  lemma Unreadable(s: State, id: Id)
    requires Inv(s) && id in s.pilots && !s.pilots[id].scope.reloads
    ensures s.pilots[id] == Row(s.pilots[id].scope, 0, Prepared, None)
    ensures StartsOf(s, id) == 0 && id !in s.reclaims && s.deleting != Some(id)
    ensures s.task.plan != Some(s.pilots[id].scope) && !Retirable(s)
  {
    assert InspectOk(id, s.pilots[id], s.workers);
    assert id in s.reclaims ==> ReclaimOk(s, id, s.reclaims[id]);
  }

  /** A workspace under deletion belongs to a settled pilot, exactly as it was recorded when reviewed; nothing runs, and a
      bound one is the plan's pilot of a task that has ended. */
  lemma ReclaimedIsSettled(ss: seq<State>, acts: seq<Action>, i: nat, id: Id)
    requires Run(ss, acts) && i <= |acts| && id in ss[i].reclaims
    ensures id in ss[i].pilots && InspectOk(id, ss[i].pilots[id], ss[i].workers) && ReclaimOk(ss[i], id, ss[i].reclaims[id])
    ensures ss[i].deleting == Some(id) ==> ss[i].runner == None
  {
    RunKeepsInv(ss, acts, i);
  }

  /** From the review on, the pilot's row, its worker journal, its record and its starts stay as they are for good; and
      a bound pilot's task with them. */
  lemma {:induction false} ReclaimedForever(ss: seq<State>, acts: seq<Action>, i: nat, k: nat, id: Id)
    requires Run(ss, acts) && i <= k <= |acts| && id in ss[i].reclaims
    ensures id in ss[i].pilots && id in ss[k].pilots && ss[k].pilots[id] == ss[i].pilots[id]
    ensures id in ss[k].reclaims
    ensures var r, r' := ss[i].reclaims[id], ss[k].reclaims[id]; r'.status == r.status && r'.revision == r.revision && (r.done ==> r'.done)
    ensures id in ss[k].workers <==> id in ss[i].workers
    ensures id in ss[k].workers ==> ss[k].workers[id] == ss[i].workers[id]
    ensures StartsOf(ss[k], id) == StartsOf(ss[i], id)
    ensures ss[i].pilots[id].scope.bound ==> ss[k].task == ss[i].task
    decreases k
  {
    ReclaimedIsSettled(ss, acts, i, id);
    if i < k {
      ReclaimedForever(ss, acts, i, k - 1, id);
      ReclaimedStep(ss, acts, k - 1, id);
    }
  }

  lemma ReclaimedStep(ss: seq<State>, acts: seq<Action>, k: nat, id: Id)
    requires Run(ss, acts) && k < |acts| && id in ss[k].reclaims
    ensures id in ss[k].pilots && id in ss[k + 1].pilots && ss[k + 1].pilots[id] == ss[k].pilots[id]
    ensures id in ss[k + 1].reclaims
    ensures var r, r' := ss[k].reclaims[id], ss[k + 1].reclaims[id];
            r'.status == r.status && r'.revision == r.revision && (r.done ==> r'.done)
    ensures id in ss[k + 1].workers <==> id in ss[k].workers
    ensures id in ss[k + 1].workers ==> ss[k + 1].workers[id] == ss[k].workers[id]
    ensures StartsOf(ss[k + 1], id) == StartsOf(ss[k], id)
    ensures ss[k].pilots[id].scope.bound ==> ss[k + 1].task == ss[k].task
  {
    RunKeepsInv(ss, acts, k);
    assert Next(ss[k], acts[k], ss[k + 1]) && ReclaimOk(ss[k], id, ss[k].reclaims[id]);
    SettledStays(ss[k], acts[k], id);
    RecordStays(ss[k], acts[k], id);
    if ss[k].pilots[id].scope.bound { TerminalStep(ss[k], acts[k]); }
    hide Enabled, Apply, Inv;
  }

  lemma RecordStays(s: State, a: Action, id: Id)
    requires Enabled(s, a) && id in s.reclaims
    ensures id in Apply(s, a).reclaims
    ensures var r, r' := s.reclaims[id], Apply(s, a).reclaims[id]; r'.status == r.status && r'.revision == r.revision && (r.done ==> r'.done)
  {
    if !Reclaims(a) { ReclaimFrame(s, a); }
  }

  /** What a reclamation abandons has never started, and it never will. */
  lemma ReclaimAbandonsUnstarted(ss: seq<State>, acts: seq<Action>, i: nat, k: nat, id: Id)
    requires Run(ss, acts) && i < k <= |acts| && acts[i] == BeginReclaim(id)
    requires id in ss[i].pilots && ss[i].pilots[id].status == Prepared
    ensures id in ss[k].pilots && ss[k].pilots[id].status == Abandoned && StartsOf(ss[k], id) == 0
    ensures Terminal(ss[k].task.phase) && ss[k].task.plan == Some(ss[k].pilots[id].scope)
  {
    RunKeepsInv(ss, acts, i);
    assert Next(ss[i], acts[i], ss[i + 1]);
    ReclaimBegins(ss[i], id);
    RunKeepsInv(ss, acts, i + 1);
    ReclaimedForever(ss, acts, i + 1, k, id);
    assert id !in ss[i + 1].starts;
  }

  /** While the task has not ended, whatever it reads of its own pilot's workspace has not been deleted. */
  lemma PlanNotReclaimed(ss: seq<State>, acts: seq<Action>, i: nat)
    requires Run(ss, acts) && i <= |acts| && ss[i].task.plan.Some? && !Terminal(ss[i].task.phase)
    ensures ss[i].task.plan.value.id !in ss[i].reclaims && ss[i].deleting != Some(ss[i].task.plan.value.id)
  {
    RunKeepsInv(ss, acts, i);
    if ss[i].task.plan.value.id in ss[i].reclaims { ReclaimedIsSettled(ss, acts, i, ss[i].task.plan.value.id); }
  }

  /** With nothing running, the pilots that can be reclaimed are exactly the settled ones without an unresolved worker
      that are not reclaimed already, and of those bound here only the plan's, once its task has ended. */
  lemma ReclaimableIff(ss: seq<State>, acts: seq<Action>, i: nat, id: Id)
    requires Run(ss, acts) && i <= |acts| && id in ss[i].pilots && ss[i].runner == None && ss[i].deleting == None
    ensures var s, row := ss[i], ss[i].pilots[id];
            Enabled(s, BeginReclaim(id)) <==>
              if row.scope.bound then
                && s.task.plan.Some? && s.task.plan.value.id == id && Terminal(s.task.phase)
                && (id in s.workers ==> Resolved(s.workers[id]))
                && (id in s.reclaims ==> !s.reclaims[id].done)
              else
                && row.status !in {Prepared, Reserved}
                && (id in s.workers ==> Resolved(s.workers[id]))
                && (id in s.reclaims ==> !s.reclaims[id].done)
  {
    RunKeepsInv(ss, acts, i);
    assert InspectOk(id, ss[i].pilots[id], ss[i].workers);
    hide RowsOk, StartsOk, ReclaimsOk, InspectOk;
    if Terminal(ss[i].task.phase) { EndedPlan(ss[i]); }
    hide Inv, PhaseOk, PlanPilotOk, BoundOk;
    assert ss[i].pilots[id].scope.id == id by { hide *; RowsPassInspection(ss, acts, i, id); ScopeId(ss[i], id); }
  }

  lemma ScopeId(s: State, id: Id)
    requires id in s.pilots && InspectOk(id, s.pilots[id], s.workers)
    ensures s.pilots[id].scope.id == id
  {
  }

  /** The pilot of a task that has ended is settled, or was never started. */
  lemma EndedPlan(s: State)
    requires PhaseOk(s.task) && PlanPilotOk(s) && Terminal(s.task.phase)
    ensures s.task.plan.Some? && s.task.plan.value.id in s.pilots
    ensures var row := s.pilots[s.task.plan.value.id]; row.scope == s.task.plan.value && row.status != Reserved
  {
    assert s.task.op.Some? ==> s.task.op.value == Started || s.task.op.value == Done;
  }

  function StartsOf(s: State, id: Id): nat { if id in s.starts then s.starts[id] else 0 }

  /** No pilot starts twice, and of the pilots bound to the task only its plan's one ever starts. */
  lemma StartedOnce(ss: seq<State>, acts: seq<Action>, i: nat, id: Id)
    requires Run(ss, acts) && i <= |acts|
    ensures StartsOf(ss[i], id) <= 1
    ensures StartsOf(ss[i], id) == 1 ==> id in ss[i].pilots
    ensures StartsOf(ss[i], id) == 1 && ss[i].pilots[id].scope.bound ==> ss[i].task.plan == Some(ss[i].pilots[id].scope)
  {
    RunKeepsInv(ss, acts, i);
  }

  /** A run that is about to reserve was let in earlier. */
  lemma {:induction false} AdmissionPrecedes(ss: seq<State>, acts: seq<Action>, i: nat) returns (j: nat)
    requires Run(ss, acts) && i <= |acts|
    requires ss[i].runner.Some? && ss[i].runner.value.stage == Admitting
    ensures j < i && acts[j].EnterRun? && acts[j].id == ss[i].runner.value.id
  {
    assert i > 0 && Next(ss[i - 1], acts[i - 1], ss[i]);
    if acts[i - 1].EnterRun? {
      j := i - 1;
    } else {
      StillAdmitting(ss[i - 1], acts[i - 1]);
      j := AdmissionPrecedes(ss, acts, i - 1);
    }
  }

  lemma StillAdmitting(s: State, a: Action)
    requires Enabled(s, a) && !a.EnterRun?
    requires Apply(s, a).runner.Some? && Apply(s, a).runner.value.stage == Admitting
    ensures Apply(s, a).runner == s.runner
  {
  }

  /** A task-bound pilot starts only under a live approval and a started operation that it has read while the
      task was implementing. When it commits its start, the task is implementing or was just found interrupted. */
  lemma StartIsAdmitted(ss: seq<State>, acts: seq<Action>, i: nat) returns (j: nat)
    requires Run(ss, acts) && i < |acts| && acts[i].Reserve?
    requires Running(ss[i], Admitting) && Current(ss[i]).scope.bound
    ensures ss[i].task.phase in {Implementing, Blocked} && ss[i].task.op == Some(Started)
    ensures PlanApproved(ss[i].task) && ss[i].task.plan == Some(Current(ss[i]).scope)
    ensures j < i && acts[j].EnterRun? && ss[j].task.phase == Implementing
    ensures Admits(ss[j].task, Current(ss[i]).scope, acts[j].now)
  {
    assert Next(ss[i], acts[i], ss[i + 1]);
    RunKeepsInv(ss, acts, i);
    j := AdmissionPrecedes(ss, acts, i);
    assert Next(ss[j], acts[j], ss[j + 1]);
    ScopeIsFixed(ss, acts, j, i, acts[j].id);
  }

  /** A step that finds the task interrupted, or gives its execution up, blocks it. */
  predicate Blocks(a: Action) { a.FindInterrupted? || a.GiveUpAdvance? }

  /** While a run waits to commit the start of the task's own pilot, nothing but a block moves the task. */
  lemma AdmittedMoves(s: State, a: Action)
    requires Inv(s) && Enabled(s, a) && !a.EnterRun? && s.task.phase in {Implementing, Blocked}
    requires Running(s, Admitting) && Current(s).scope.bound
    ensures var p := Apply(s, a).task.phase;
            if Blocks(a) then p == Blocked else p == s.task.phase
  {
    if !LeavesRows(a) { PilotFrame(s, a); }
    assert s.pilots[s.task.plan.value.id].status == Prepared;
    hide RowsOk, StartsOk, InspectOk;
  }

  /** Exactly when the task is still implementing at a later moment of an admission under way: when no step since
      the admission blocked it. `j` is the admission step. */
  lemma {:induction false} ImplementingSince(ss: seq<State>, acts: seq<Action>, i: nat) returns (j: nat)
    requires Run(ss, acts) && i <= |acts| && Running(ss[i], Admitting) && Current(ss[i]).scope.bound
    ensures j < i && acts[j].EnterRun? && acts[j].id == ss[i].runner.value.id && ss[j].task.phase == Implementing
    ensures ss[i].task.phase in {Implementing, Blocked}
    ensures ss[i].task.phase == Implementing <==> forall m :: j <= m < i ==> !Blocks(acts[m])
  {
    assert i > 0 && Next(ss[i - 1], acts[i - 1], ss[i]);
    RunKeepsInv(ss, acts, i - 1);
    hide Inv;
    if acts[i - 1].EnterRun? {
      j := i - 1;
      EntersImplementing(ss[j], acts[j]);
      hide Enabled, Apply;
    } else {
      StillAdmitting(ss[i - 1], acts[i - 1]);
      AdmittedBefore(ss[i - 1], acts[i - 1]);
      hide Inv, Enabled, Apply;
      j := ImplementingSince(ss, acts, i - 1);
      AdmittedMoves(ss[i - 1], acts[i - 1]);
    }
  }

  lemma EntersImplementing(s: State, a: Action)
    requires Enabled(s, a) && a.EnterRun? && s.pilots[a.id].scope.bound
    ensures Apply(s, a).task == s.task && s.task.phase == Implementing
    ensures Apply(s, a).runner == Some(Runner(a.id, Admitting)) && Apply(s, a).pilots == s.pilots
  {
  }

  lemma AdmittedBefore(s: State, a: Action)
    requires Inv(s) && Enabled(s, a) && !a.EnterRun?
    requires Running(Apply(s, a), Admitting) && Current(Apply(s, a)).scope.bound && Apply(s, a).runner == s.runner
    ensures Running(s, Admitting) && Current(s).scope.bound
  {
    ScopeStep(s, a, s.runner.value.id);
  }

  /** When a task-bound pilot commits its start, the task is still implementing exactly when no step since the
      admission blocked it; and it always is while the task's own `advance` is alive. */
  lemma StartImplementingIff(ss: seq<State>, acts: seq<Action>, i: nat) returns (j: nat)
    requires Run(ss, acts) && i < |acts| && acts[i].Reserve?
    requires Running(ss[i], Admitting) && Current(ss[i]).scope.bound
    ensures j < i && acts[j].EnterRun? && acts[j].id == ss[i].runner.value.id && ss[j].task.phase == Implementing
    ensures ss[i].task.phase == Implementing <==> forall m :: j <= m < i ==> !Blocks(acts[m])
    ensures ss[i].advancing ==> ss[i].task.phase == Implementing
  {
    j := ImplementingSince(ss, acts, i);
    RunKeepsInv(ss, acts, i);
    AdvancingMeansImplementing(ss[i]);
  }

  /** A pilot's scope never changes. */
  lemma {:induction false} ScopeIsFixed(ss: seq<State>, acts: seq<Action>, i: nat, k: nat, id: Id)
    requires Run(ss, acts) && i <= k <= |acts| && id in ss[i].pilots
    ensures id in ss[k].pilots && ss[k].pilots[id].scope == ss[i].pilots[id].scope
    decreases k - i
  {
    if i < k {
      ScopeIsFixed(ss, acts, i, k - 1, id);
      assert Next(ss[k - 1], acts[k - 1], ss[k]);
      ScopeStep(ss[k - 1], acts[k - 1], id);
    }
  }

  lemma ScopeStep(s: State, a: Action, id: Id)
    requires Enabled(s, a) && id in s.pilots
    ensures id in Apply(s, a).pilots && Apply(s, a).pilots[id].scope == s.pilots[id].scope
  {
    if !LeavesRows(a) { PilotFrame(s, a); }
  }

  lemma AdvancingMeansImplementing(s: State)
    requires Inv(s)
    ensures s.advancing ==> s.task.phase == Implementing
  {
  }

  /** Once the task is terminal, no pilot of the task starts any more, ever. */
  lemma {:induction false} NoStartAfterTheEnd(ss: seq<State>, acts: seq<Action>, i: nat, k: nat)
    requires Run(ss, acts) && i <= k < |acts| && Terminal(ss[i].task.phase)
    ensures ss[k].task == ss[i].task
    ensures acts[k].Reserve? && Running(ss[k], Admitting) ==> !Current(ss[k]).scope.bound
    decreases k - i
  {
    hide Inv, Enabled, Apply;
    if i < k {
      NoStartAfterTheEnd(ss, acts, i, k - 1);
      assert Next(ss[k - 1], acts[k - 1], ss[k]);
      RunKeepsInv(ss, acts, k - 1);
      AdvancingMeansImplementing(ss[k - 1]);
      TerminalStep(ss[k - 1], acts[k - 1]);
    }
    if acts[k].Reserve? && Running(ss[k], Admitting) && Current(ss[k]).scope.bound { var j := StartIsAdmitted(ss, acts, k); }
  }

  /** A completed task has a passed pilot, its replacements as snapshots, and two human approvals. */
  lemma CompletedIsBacked(ss: seq<State>, acts: seq<Action>, i: nat)
    requires Run(ss, acts) && i <= |acts| && ss[i].task.phase == Completed
    ensures PlanApproved(ss[i].task) && ResultPasses(ss[i].task)
    ensures var t := ss[i].task;
            && t.actionDecision.Some? && t.actionDecision.value.approve
            && t.actionDecision.value.request.subject == OfResult(t.result.value)
            && t.result.value.snapshots == t.plan.value.replacements
    ensures var scope := ss[i].task.plan.value;
            && scope.id in ss[i].pilots
            && var row := ss[i].pilots[scope.id];
               && row.scope == scope && row.status == Passed && scope.passes
               && row.receipt.Some? && row.receipt.value.files == scope.replacements
               && StartsOf(ss[i], scope.id) == 1
  {
    RunKeepsInv(ss, acts, i);
    RowsPassInspection(ss, acts, i, ss[i].task.plan.value.id);
  }

  /** The start need not commit while the task still says it is implementing: another process that finds the
      task interrupted can block it between the pilot's read and its commit. */
  lemma StartAfterBlock() returns (ss: seq<State>, acts: seq<Action>)
    ensures Run(ss, acts) && Enabled(ss[|acts|], Reserve)
    ensures Current(ss[|acts|]).scope.bound && ss[|acts|].task.phase == Blocked
  {
    var scope := Scope(7, true, LocalData, map[1 := 2], true, true, 10);
    var q := Request(OfPlan(scope), 2, 10);
    var prepared := map[7 := Row(scope, 0, Prepared, None)];
    var awaiting := Task(AwaitingPlan, 2, Some(scope), Some(q), Some(q), None, None, None, None);
    var ready := Task(Ready, 3, Some(scope), None, Some(q), Some(Decision(q, true)), None, None, None);
    var implementing := ready.(phase := Implementing, revision := 4, op := Some(Started));
    var entered := Some(Runner(7, Admitting));
    ss := [Pilots.Start(),
           State(Pilots.Start().task, prepared, map[], map[], None, None, false, map[]),
           State(awaiting, prepared, map[], map[], None, None, false, map[]),
           State(ready, prepared, map[], map[], None, None, false, map[]),
           State(implementing, prepared, map[], map[], None, None, true, map[]),
           State(implementing, prepared, map[], map[], None, None, false, map[]),
           State(implementing, prepared, map[], map[], entered, None, false, map[]),
           State(implementing.(phase := Blocked, revision := 5), prepared, map[], map[], entered, None, false, map[])];
    acts := [Prepare(scope), CreateTask(7), ApprovePlan(true, 0), BeginAdvance(0), AdvancerDies, EnterRun(7, 0), FindInterrupted];
    assert forall i :: 0 <= i < |acts| ==> Next(ss[i], acts[i], ss[i + 1]);
  }
}
