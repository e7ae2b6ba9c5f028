/** The engine as it runs: an object over the store's rows, whose methods commit them. */
module EngineHost {
  import opened Basics
  import opened EngineState
  import opened EngineSteps
  import opened EngineProof
  import opened EngineAdvance
  import opened EngineProgress

  const BUDGET: nat := 40

  datatype Outcome = AtPause | Refused | BudgetExceeded

  /** Where runs of good answers stop. */
  lemma RunEnds(s: State, ws: nat -> Outside, calls: nat, paused: bool)
    requires Stops(s, ws, calls, paused)
    ensures OnRoute(s, ws, 0) && AllGood(ws, 4) ==> paused && calls == 4 && Iterated(s, ws, calls).task.phase == AwaitingActionApproval
    ensures PlansFreely(s, ws) ==> paused && calls == 2 && Iterated(s, ws, calls).task.phase == AwaitingPlanApproval
    ensures ActsFreely(s, ws) ==> paused && calls == 2 && Iterated(s, ws, calls).task.phase == EngineState.Completed
  {
    hide OnRoute, PlansFreely, ActsFreely, Stops, Iterated;
    if OnRoute(s, ws, 0) && AllGood(ws, 4) { WorkRunEnds(s, ws, calls, paused); }
    if PlansFreely(s, ws) { PlanRunEnds(s, ws, calls, paused); }
    if ActsFreely(s, ws) { ActionRunEnds(s, ws, calls, paused); }
  }

  predicate Went(s: State, w: Outside) {
    s.running == None && !Paused(s.task.phase) && Advanced(s, w).1
  }

  /** With at most 15 calls to go after `n`, one more leaves at most 15 after `n + 1`. */
  lemma OneCallLess(s: State, w: Outside, n: nat)
    requires Inv(s) && Went(s, w) && CountsOk(s.task) && n + Rank(s.task) <= 15
    ensures var t := Advanced(s, w).0;
            && Inv(t) && t.running == None && CountsOk(t.task)
            && n + 1 <= 15
            && (n + 1 + Rank(t.task) <= 15 || Paused(t.task.phase))
  {
    hide Inv, Advanced, CountsOk, Rank;
    WentNotLast(s, w);
    AdvanceNearer(s, w);
    InvCounts(Advanced(s, w).0);
  }

  /** A draft is refused, so a call that is not has a stage before it. */
  lemma WentNotLast(s: State, w: Outside)
    requires CountsOk(s.task) && Went(s, w)
    ensures Rank(s.task) >= 1
  {
    hide Admitted, Operated, Enabled, Fresh;
  }

  lemma InvCounts(s: State)
    requires Inv(s)
    ensures CountsOk(s.task)
  {
  }

  lemma BodyShape(e: State, b: Action)
    requires Enabled(e, b) && IsBody(b)
    ensures Apply(e, b).running.Some? && Apply(e, b).running.value.result.Some?
    ensures var d := Apply(e, b);
            d == e.(running := Some(e.running.value.(result := d.running.value.result)), records := d.records, effects := d.effects)
  {
  }

  lemma FinishedShape(e: State, b: Action)
    requires e.running.Some? && e.running.value.entered && e.running.value.key in e.operations && IsBody(b)
    ensures !Enabled(e, b) ==> Finished'(e, b) == Finished(e, Failure)
    ensures Enabled(e, b) ==> Finished'(e, b) == Finished(Apply(e, b), Apply(e, b).running.value.result.value)
  {
    if Enabled(e, b) { BodyShape(e, b); }
  }

  lemma MoveShape(s: State, a: Action)
    requires s.running == None && (a.BeginPlanning? || a.SettleChanges? || a.Complete?)
    requires a.BeginPlanning? ==> s.task.phase == SpecReady
    requires a.SettleChanges? ==> s.task.phase == ChangesRequested
    requires a.Complete? ==> s.task.phase == PrCreated
    ensures var p := if a.BeginPlanning? then Planning else if a.Complete? then EngineState.Completed
                     else if s.task.attempt >= 3 then Failed else ReadyForImplementation;
            var now := if a.SettleChanges? then a.now else 0;
            Try(s, a) == if CanMove(s, s.task, p, now) then (s.(task := Moved(s.task, p)), true) else (s, false)
  {
    hide Approved, PassingTest, AcceptingReview, SucceededReceipt;
  }

  /** The slot that `_operation` leaves behind, unless it blocked the task: done, and still the current one. */
  predicate Ready(o: State) {
    o.task.phase == Blocked || (Current(o) && CurrentOp(o).result.Some?)
  }

  lemma FinishedReady(e: State, b: Action)
    requires e.running.Some? && e.running.value.entered && e.running.value.key in e.operations && IsBody(b)
    requires CurrentKey(e.task) == Some(e.running.value.key)
    ensures Ready(Finished'(e, b))
  {
    hide Enabled, Apply, Finished';
    FinishedShape(e, b);
    if Enabled(e, b) { BodyShape(e, b); }
  }

  lemma UnfinishedReady(e: State, lost: bool)
    requires e.running.Some? && e.running.value.entered && e.running.value.key in e.operations
    requires CurrentKey(e.task) == Some(e.running.value.key)
    ensures Ready(Unfinished(e, lost))
  {
  }

  lemma EnteredReady(s: State, start: Action)
    requires start.StartOperation? && Enabled(s, start)
    ensures CurrentKey(Entered(s, start).task) == Some(Entered(s, start).running.value.key)
  {
    hide Approved;
  }

  lemma EnteredShape(s: State, id: Id, now: Time)
    requires Enabled(s, StartOperation(id, now))
    ensures CurrentKey(s.task).Some?
    ensures var k := CurrentKey(s.task).value;
            Entered(s, StartOperation(id, now)) ==
            s.(operations := s.operations[k := Op(id, None)], task := s.task.(active := Some(id)),
               running := Some(Running(k, id, true, None)),
               invoked := s.invoked[k := (if k in s.invoked then s.invoked[k] else 0) + 1])
  {
    hide Approved;
  }

  lemma UncertainShape(e: State)
    requires e.running.Some? && e.running.value.entered && e.running.value.key in e.operations
    ensures Enabled(e, Uncertain) ==> Apply(e, Uncertain) == e.(task := Moved(e.task, Blocked), running := None)
    ensures Apply(e, FinishFailed) == Finished(e, Failure)
  {
  }

  lemma SameKey(s: State, s': State)
    requires s' == s.(task := s.task.(invocation := s'.task.invocation))
    ensures CurrentKey(s'.task) == CurrentKey(s.task)
  {
  }

  lemma OperatedReady(s: State, w: Outside)
    requires s.running == None && CurrentKey(s.task).Some? && Admitted(s, w.now) && Operated(s, w).1
    ensures Ready(Operated(s, w).0)
  {
    if CurrentKey(s.task).value !in s.operations {
      hide Admitted, Enabled, Apply, CurrentKey, Entered, Ready, OperationId, Finished', Unfinished;
      var start := StartOperation(OperationId(s, w), w.now);
      EnteredReady(s, start);
      ConsultedShape(Entered(s, start), w);
      var e := Asked(s, start, w);
      SameKey(Entered(s, start), e);
      UnfinishedReady(e, w.answer == Lost && !Silent(e, w));
      FinishedReady(e, BodyOf(e, w));
    }
  }

  lemma ConcludingShape(s: State, r: Result, first: Id, second: Id, op: Id, expires: Time)
    ensures var c := Concluding(s, r, first, second, op, expires);
            c.0 == s.(task := c.0.task, records := c.0.records)
  {
    hide WithRequest, NewRequest;
  }

  lemma DecidedShape(s: State, d: Id, approve: bool)
    requires PendingRequest(s) && s.task.pending.Some?
    ensures var s' := Decided(s, d, approve);
            s' == s.(task := s'.task, records := s'.records, approvals := s'.approvals)
  {
  }

  lemma RecoverShape(s: State, k: Key, expectedRevision: nat, asker: Id, now: Time)
    requires CanRecover(s, expectedRevision, now) && k in s.operations && Recoverable(s, k)
    requires forall j :: j in s.operations && Recoverable(s, j) ==> j == k
    ensures Apply(s, Action.Recover(expectedRevision, asker, now)) ==
            Recovered(s, k, s.memory.(recovery := Some(Recovery(expectedRevision, asker, s.task.revision + 2))))
  {
    hide CanMove, Approved, Recoverable;
  }

  lemma CanRecoverShape(s: State, k: Key, expectedRevision: nat, now: Time)
    requires s.running == None && forall j :: j in s.operations && Recoverable(s, j) ==> j == k
    ensures CanRecover(s, expectedRevision, now) <==>
              && s.task.phase == Blocked && s.task.revision == expectedRevision
              && k in s.operations && Recoverable(s, k)
              && (s.task.resume == Some(Implementing) || s.task.resume == Some(Testing))
              && Approved(s, s.task, PlanKind, now) && CanMove(s, s.task, s.task.resume.value, now)
  {
    hide CanMove, Approved, Recoverable;
  }

  lemma CanApproveShape(s: State, request: Id, d: Id, approve: bool, expectedRevision: nat, now: Time)
    requires s.running == None && !Decided'(s, request)
    ensures s.task.pending == Some(request) && CanApprove(s, d, approve, expectedRevision, now) <==>
              && s.task.pending == Some(request)
              && d !in s.records && s.task.revision == expectedRevision && PendingRequest(s)
              && request !in s.approvals
              && s.task.phase == Required(Pending(s).kind) && Pending(s).revision == expectedRevision && Pending(s).expires > now
              && CanMove(Decided(s, d, approve), Decided(s, d, approve).task, DecisionTarget(Pending(s).kind, approve), now)
  {
    hide CanMove, Decided;
  }

  lemma ApprovedShape(s: State, d: Id, approve: bool, expectedRevision: nat, now: Time)
    requires CanApprove(s, d, approve, expectedRevision, now)
    ensures var m, p := Decided(s, d, approve), DecisionTarget(Pending(s).kind, approve);
            && Apply(s, Action.Approve(d, approve, expectedRevision, now)) == m.(task := Moved(m.task, p))
            && m.task.phase == s.task.phase
            && d in m.records && m.records[d] == Decision(s.task.pending.value, Pending(s).scope, approve)
            && m.approvals == s.approvals[s.task.pending.value := d]
            && m.task.planningAttempt == s.task.planningAttempt + (if s.task.phase == AwaitingPlanApproval && !approve then 1 else 0)
  {
    hide CanMove;
  }

  /** Where a decision leads from the pause it is made in. */
  function Decides(p: Phase, approve: bool): Phase {
    if p == AwaitingPlanApproval then (if approve then ReadyForImplementation else Planning)
    else (if approve then ReadyForPr else ChangesRequested)
  }

  lemma TargetDecides(s: State, approve: bool)
    requires PendingRequest(s) && s.task.phase == Required(Pending(s).kind)
    ensures DecisionTarget(Pending(s).kind, approve) == Decides(s.task.phase, approve)
  {
  }

  /** A decision of this request is on record. */
  predicate Decided'(s: State, request: Id) {
    request in s.approvals && s.approvals[request] in s.records && s.records[s.approvals[request]].Decision?
  }

  class Engine {
    var task: Task
    var memory: Memory
    var records: Records
    var approvals: map<Id, Id>
    var operations: map<Key, Op>
    var effects: map<Id, Id>
    var running: Option<Running>
    var invoked: map<Key, nat>

    function Here(): State
      reads this
    {
      State(task, memory, records, approvals, operations, effects, running, invoked)
    }

    /** A new process opens the store that an earlier one left: what that one was running is gone. */
    constructor (s: State)
      ensures Here() == Apply(s, Crash)
    {
      task, memory, records, approvals, operations := s.task, s.memory, s.records, s.approvals, s.operations;
      effects, running, invoked := s.effects, None, s.invoked;
    }

    /** `_transition`, as the last statement of a transaction that also writes `t` and `rs`. */
    method Transition(t: Task, rs: Records, target: Phase, now: Time) returns (ok: bool)
      requires running == None
      modifies this
      ensures ok == old(CanMove(Here().(task := t, records := rs), t, target, now))
      ensures Here() == if ok then old(Here()).(task := Moved(t, target), records := rs) else old(Here())
    {
      var s := Here().(task := t, records := rs);
      if !Allowed(t.phase, target, t.resume) { return false; }
      if target == SpecReady && !t.confirmed { return false; }
      if target in {ReadyForImplementation, Implementing, Testing, Reviewing, AwaitingActionApproval} {
        if !Approved(s, t, PlanKind, now) { return false; }
      }
      if target == Testing {
        if At(rs, t.patch).None? || !At(rs, t.patch).value.Patch? { return false; }
      }
      if target in {Reviewing, AwaitingActionApproval, ReadyForPr, PrCreated} {
        if !PassingTest(rs, t) { return false; }
      }
      if target in {AwaitingActionApproval, ReadyForPr, PrCreated} {
        if !AcceptingReview(rs, t) { return false; }
      }
      if target in {ReadyForPr, PrCreated} {
        if !Approved(s, t, ActionKind, now) { return false; }
      }
      if target in {PrCreated, Completed} {
        if !SucceededReceipt(rs, t.external) { return false; }
      }
      task, records := Moved(t, target), rs;
      ok := true;
    }

    /** The transaction that stores an operation's result. */
    method Store(result: Result)
      requires running.Some? && running.value.key in operations
      modifies this
      ensures Here() == Finished(old(Here()), result)
    {
      operations := operations[running.value.key := operations[running.value.key].(result := Some(result))];
      task, running := task.(active := None), None;
    }

    /** The body that ran to its end, or that a guard refused. */
    method Body(b: Action)
      requires running.Some? && running.value.entered && running.value.key in operations && IsBody(b)
      modifies this
      ensures Here() == Finished'(old(Here()), b)
    {
      hide Enabled, Apply, Finished';
      FinishedShape(Here(), b);
      var result := Failure;
      if Enabled(Here(), b) {
        BodyShape(Here(), b);
        var done := Apply(Here(), b);
        result, records, effects := done.running.value.result.value, done.records, done.effects;
      }
      Store(result);
    }

    /** `_invoke`: the invocation is recorded as active before the model is asked, until its receipt is stored. */
    method Consult(w: Outside)
      requires InBody(Here())
      modifies this
      ensures Here() == Consulted(old(Here()), w) && running == old(running) && operations == old(operations)
      ensures task == old(task).(invocation := if !w.asked || !Consults(running.value.key.stage) then old(task).invocation
                                               else if w.responded then None else Some(w.invocation))
    {
      ConsultedShape(Here(), w);
      hide Consulted;
      if !w.asked || !Consults(running.value.key.stage) { return; }
      task := task.(invocation := Some(w.invocation));
      if w.responded { task := task.(invocation := None); }
    }

    method Execute(w: Outside)
      requires running.Some? && running.value.entered && running.value.key in operations
      modifies this
      ensures Here() == Ended(old(Here()), w)
    {
      if w.answer == Lost { UncertainShape(Here()); }
      hide Enabled, Apply, Finished', BodyOf;
      if w.answer == Lost && !Silent(Here(), w) && Enabled(Here(), Uncertain) {
        task, running := Moved(task, Blocked), None;
      } else if w.answer == Raises || Silent(Here(), w) {
        Store(Failure);
      } else {
        Body(BodyOf(Here(), w));
      }
    }

    /** A slot that an earlier call left started: from its committed effect, or not at all. */
    method Resume() returns (ok: bool)
      requires Current(Here()) && CurrentOp(Here()).result == None
      modifies this
      ensures (Here(), ok) == old(if Enabled(Here(), Reconcile) then (Apply(Here(), Reconcile), true) else Try(Here(), BlockUnresolved))
    {
      var k := CurrentKey(task).value;
      var id := operations[k].id;
      if task.phase != ReadyForPr || id !in effects {
        task := Moved(task, Blocked);
        return true;
      }
      var receipt := At(records, Some(effects[id]));
      if receipt.None? || !receipt.value.Receipt? { return false; }
      operations := operations[k := operations[k].(result := Some(Result.Acted(effects[id], !receipt.value.succeeded)))];
      task := task.(active := None);
      ok := true;
    }

    /** The started row is committed before the body is entered. */
    method Enter(id: Id, now: Time)
      requires Enabled(Here(), StartOperation(id, now))
      modifies this
      ensures Here() == Entered(old(Here()), StartOperation(id, now))
    {
      EnteredShape(Here(), id, now);
      hide Entered, Enabled;
      var k := CurrentKey(task).value;
      operations, task := operations[k := Op(id, None)], task.(active := Some(id));
      running := Some(Running(k, id, false, None));
      running, invoked := Some(Running(k, id, true, None)), invoked[k := (if k in invoked then invoked[k] else 0) + 1];
    }

    method Operation(w: Outside) returns (ok: bool)
      requires running == None && CurrentKey(task).Some? && Admitted(Here(), w.now)
      modifies this
      ensures (Here(), ok) == old(Operated(Here(), w))
    {
      hide Admitted, Enabled, Apply, CurrentKey, Entered, Ended, OperationId;
      if CurrentKey(task).value in operations {
        if operations[CurrentKey(task).value].result.Some? { return true; }
        ok := Resume();
        return;
      }
      var id := OperationId(Here(), w);
      if !Enabled(Here(), StartOperation(id, w.now)) { return false; }
      Enter(id, w.now);
      Consult(w);
      Execute(w);
      ok := true;
    }

    /** The moves of `advance` that run nothing. */
    method Step(w: Outside) returns (ok: bool)
      requires running == None && Fresh(Here(), w)
      requires task.phase in {SpecReady, ReadyForImplementation, ChangesRequested, PrCreated}
      modifies this
      ensures (Here(), ok) == old(Advanced(Here(), w))
    {
      if task.phase == ReadyForImplementation {
        ok := Begin(w);
        return;
      }
      hide CanMove, Enabled, Apply, Operated, Admitted;
      if task.phase == SpecReady {
        MoveShape(Here(), BeginPlanning);
        ok := Transition(task, records, Planning, 0);
      } else if task.phase == ChangesRequested {
        MoveShape(Here(), SettleChanges(w.now));
        ok := Transition(task, records, if task.attempt >= 3 then Failed else ReadyForImplementation, w.now);
      } else {
        MoveShape(Here(), EngineSteps.Complete);
        ok := Transition(task, records, EngineState.Completed, 0);
      }
    }

    /** A new attempt: its work order is written, and the evidence of the previous one dropped. */
    method Begin(w: Outside) returns (ok: bool)
      requires running == None && Fresh(Here(), w) && task.phase == ReadyForImplementation
      modifies this
      ensures (Here(), ok) == old(Try(Here(), BeginAttempt(w.first, w.now)))
      ensures ok ==>
                && task.phase == Implementing && task.attempt == old(task).attempt + 1 && task.workOrder == Some(w.first)
                && task.patch == None && task.test == None && task.review == None
                && w.first in records && records[w.first] == WorkOrder(old(task).spec, old(task).plan, task.attempt)
    {
      hide Approved;
      if !Approved(Here(), task, PlanKind, w.now) { return false; }
      task, records := BegunAttempt(task, w.first), records[w.first := WorkOrder(task.spec, task.plan, task.attempt + 1)];
      ok := true;
    }

    method ConcludeStage(a: Action) returns (ok: bool)
      requires running == None && a.Conclude? && Current(Here()) && CurrentOp(Here()).result.Some?
      modifies this
      ensures (Here(), ok) == old(Try(Here(), a))
    {
      if a.first in records || a.second in records || a.first == a.second { return false; }
      hide CanMove, Concluding;
      ConcludingShape(Here(), CurrentOp(Here()).result.value, a.first, a.second, a.op, a.expires);
      var (s, target) := Concluding(Here(), CurrentOp(Here()).result.value, a.first, a.second, a.op, a.expires);
      ok := Transition(s.task, s.records, target, a.now);
    }

    method Advance(w: Outside) returns (ok: bool)
      requires running == None
      modifies this
      ensures (Here(), ok) == old(Advanced(Here(), w))
      ensures old(Unhindered(Here(), w) && !Paused(task.phase) && !Drafting(task.phase)) ==> ok && task.phase == After(old(task), w)
      ensures ok && Working(old(task).phase) && task.phase != Blocked ==> TakenUp(old(Here()), Here())
      ensures ok && Working(old(task).phase) && old(CurrentKey(task).Some? && CurrentKey(task).value in operations) ==> Resumes(old(Here()), Here())
    {
      ghost var start := Here();
      if Working(task.phase) && Advanced(start, w).1 && CurrentKey(task).Some? && CurrentKey(task).value in operations { CallResumes(start, w); }
      if Unhindered(start, w) && !Paused(task.phase) && !Drafting(task.phase) { CallGoes(start, w); }
      if Working(task.phase) && Advanced(start, w).1 && Advanced(start, w).0.task.phase != Blocked { CallTakesUp(start, w); }
      hide Admitted, Operated, Enabled, Apply, Fresh, Unhindered, TakenUp, Resumes;
      if Paused(task.phase) { return true; }
      if !Fresh(Here(), w) { return false; }
      if task.phase in {SpecReady, ReadyForImplementation, ChangesRequested, PrCreated} {
        ok := Step(w);
        return;
      }
      if CurrentKey(task).None? || !Admitted(Here(), w.now) { return false; }
      ghost var s := Here();
      ok := Operation(w);
      if ok { OperatedReady(s, w); }
      if !ok || task.phase == Blocked { return; }
      ok := ConcludeStage(Conclude(w.third, w.fourth, w.action, w.expires, w.later));
    }

    // ---- Human decisions ----

    /** A decision already recorded is returned again if it is repeated, and refused if it is contradicted. */
    method Approve(request: Id, d: Id, approve: bool, expectedRevision: nat, now: Time) returns (decision: Option<Id>)
      requires running == None
      modifies this
      ensures old(Decided'(Here(), request)) ==>
                && Here() == old(Here())
                && decision == if old(records[approvals[request]].approve == approve) then Some(old(approvals[request])) else None
      ensures old(!Decided'(Here(), request)) ==>
                && (decision.Some? <==> old(task.pending == Some(request) && CanApprove(Here(), d, approve, expectedRevision, now)))
                && (decision.Some? ==> decision.value == d)
                && Here() == if decision.Some? then Apply(old(Here()), Action.Approve(d, approve, expectedRevision, now)) else old(Here())
      ensures old(!Decided'(Here(), request)) && decision.Some? ==>
                && old(task.phase in {AwaitingPlanApproval, AwaitingActionApproval})
                && task.phase == Decides(old(task.phase), approve)
                && d in records && records[d].Decision? && records[d].request == request && records[d].approve == approve
                && approvals == old(approvals)[request := d]
                && task.planningAttempt == old(task).planningAttempt + (if old(task.phase) == AwaitingPlanApproval && !approve then 1 else 0)
    {
      ghost var start := Here();
      if !Decided'(start, request) { CanApproveShape(start, request, d, approve, expectedRevision, now); }
      if start.task.pending == Some(request) && CanApprove(start, d, approve, expectedRevision, now) {
        ApprovedShape(start, d, approve, expectedRevision, now);
        TargetDecides(start, approve);
      }
      hide CanMove, CanApprove, Apply, Enabled;
      if Decided'(Here(), request) {
        return if records[approvals[request]].approve == approve then Some(approvals[request]) else None;
      }
      if task.revision != expectedRevision || task.pending != Some(request) || !PendingRequest(Here()) { return None; }
      var q := Pending(Here());
      if task.phase != Required(q.kind) || q.revision != expectedRevision || q.expires <= now { return None; }
      if request in approvals || d in records { return None; }
      DecidedShape(Here(), d, approve);
      hide Decided;
      var before, decided := approvals, Decided(Here(), d, approve);
      approvals := decided.approvals;
      var ok := Transition(decided.task, decided.records, DecisionTarget(q.kind, approve), now);
      if ok { return Some(d); }
      approvals := before;
      decision := None;
    }

    /** An expired pending request is replaced by a new one over the same evidence; no decision is made. A repeated call
        finds what it did. */
    method Renew(request: Id, q: Id, expires: Time, expectedRevision: nat, asker: Id, now: Time) returns (ok: bool)
      requires running == None
      modifies this
      ensures old(RenewRepeats(Here(), request, expectedRevision, asker)) ==> ok && Here() == old(Here())
      ensures old(!RenewRepeats(Here(), request, expectedRevision, asker)) ==>
                && ok == old(task.pending == Some(request) && CanRenew(Here(), q, expectedRevision, now))
                && Here() == if ok then Apply(old(Here()), Action.Renew(q, expires, expectedRevision, asker, now)) else old(Here())
      ensures old(!RenewRepeats(Here(), request, expectedRevision, asker)) && ok ==>
                && task.phase == old(task.phase) && task.pending == Some(q) && approvals == old(approvals)
                && (if task.phase == AwaitingPlanApproval then task.planApproval == None else task.approval == None)
                && q in records && records[q].ApprovalRequest? && records[q].expires == expires && records[q].revision == task.revision
                && old(request in records && records[request].ApprovalRequest?)
                && records[q].subject == old(records[request]).subject && records[q].evidence == old(records[request]).evidence
    {
      if RenewRepeats(Here(), request, expectedRevision, asker) { return true; }
      if task.revision != expectedRevision || task.pending != Some(request) || !PendingRequest(Here()) { return false; }
      if !CanRenew(Here(), q, expectedRevision, now) { return false; }
      var kind := Pending(Here()).kind;
      hide CanRenew;
      memory := memory.(renewal := Some(Renewal(task.pending, expectedRevision, asker, q)));
      records := records[q := NewRequest(task, kind, expires)];
      task := WithRequest(task, kind, q);
      task := task.(revision := task.revision + 1);
      ok := true;
    }

    /** Cancellation at a quiescent boundary, and never after the action succeeded. A repeated call finds what it did. */
    method Cancel(expectedRevision: nat, asker: Id) returns (ok: bool)
      requires running == None
      modifies this
      ensures old(CancelRepeats(Here(), expectedRevision, asker)) ==> ok && Here() == old(Here())
      ensures old(!CancelRepeats(Here(), expectedRevision, asker)) ==>
                && ok == old(CanCancel(Here(), expectedRevision))
                && Here() == if ok then Apply(old(Here()), Action.Cancel(expectedRevision, asker)) else old(Here())
      ensures ok ==> task.phase == EngineState.Cancelled && records == old(records) && operations == old(operations)
      ensures ok && old(task.phase) != EngineState.Cancelled ==> task.pending == None && task.resume == None
    {
      if CancelRepeats(Here(), expectedRevision, asker) { return true; }
      if Terminal(task.phase) || task.revision != expectedRevision { return false; }
      if task.active.Some? || task.invocation.Some? || Unresolved(Here()) { return false; }
      if task.phase == PrCreated { return false; }
      if exists i | i in records :: SucceededReceipt(records, Some(i)) { return false; }
      memory := memory.(cancellation := Some(Cancellation(expectedRevision, asker)));
      task := Moved(task.(pending := None, resume := None), EngineState.Cancelled);
      ok := true;
    }

    /** The one unresolved worker operation of a blocked task is retired, and the attempt with it.
        `proved` is what the broker could establish: a retained result, or that nothing runs any more. A repeated call
        finds what it did. */
    method Recover(k: Key, expectedRevision: nat, asker: Id, proved: bool, now: Time) returns (ok: bool)
      requires running == None && (forall j :: j in operations && Recoverable(Here(), j) ==> j == k)
      modifies this
      ensures old(RecoverRepeats(Here(), expectedRevision, asker)) ==> ok && Here() == old(Here())
      ensures old(!RecoverRepeats(Here(), expectedRevision, asker)) ==>
                && ok == old(CanRecover(Here(), expectedRevision, now) && proved)
                && Here() == if ok then Apply(old(Here()), Action.Recover(expectedRevision, asker, now)) else old(Here())
      ensures ok ==> task.phase == ChangesRequested
      ensures old(!RecoverRepeats(Here(), expectedRevision, asker)) && ok ==>
                && old(task.phase == Blocked && k in operations) && task.active == None
                && k in operations && operations[k].id == old(operations)[k].id && operations[k].result == Some(Failure)
    {
      if RecoverRepeats(Here(), expectedRevision, asker) { return true; }
      CanRecoverShape(Here(), k, expectedRevision, now);
      if CanRecover(Here(), expectedRevision, now) { RecoverShape(Here(), k, expectedRevision, asker, now); }
      hide CanMove, Approved, Apply, Enabled, Recoverable, CanRecover;
      if task.phase != Blocked || task.revision != expectedRevision { return false; }
      if k !in operations || !Recoverable(Here(), k) { return false; }
      if task.resume != Some(Implementing) && task.resume != Some(Testing) { return false; }
      if !Approved(Here(), task, PlanKind, now) || !CanMove(Here(), task, task.resume.value, now) || !proved { return false; }
      operations := operations[k := operations[k].(result := Some(Failure))];
      memory := memory.(recovery := Some(Recovery(expectedRevision, asker, task.revision + 2)));
      task := Moved(task.(active := None), task.resume.value);
      task := Moved(task.(resume := None), ChangesRequested);
      ok := true;
    }

    /** `run`: advance until the task pauses or a call is refused. The budget is never what ends it. */
    method Run(ws: nat -> Outside) returns (outcome: Outcome, calls: nat)
      requires Inv(Here()) && running == None
      modifies this
      ensures outcome != BudgetExceeded && calls <= 15
      ensures outcome == AtPause ==> Paused(task.phase) && Here() == Iterated(old(Here()), ws, calls)
      ensures outcome == Refused ==>
                && Here() == Iterated(old(Here()), ws, calls + 1)
                && old(Iterated(Here(), ws, calls).running == None && !Advanced(Iterated(Here(), ws, calls), ws(calls)).1)
      ensures old(OnRoute(Here(), ws, 0)) && AllGood(ws, 4) ==> outcome == AtPause && calls == 4 && task.phase == AwaitingActionApproval
      ensures old(PlansFreely(Here(), ws)) ==> outcome == AtPause && calls == 2 && task.phase == AwaitingPlanApproval
      ensures old(ActsFreely(Here(), ws)) ==> outcome == AtPause && calls == 2 && task.phase == EngineState.Completed
    {
      hide Inv, Advanced, CountsOk, Rank, OnRoute, PlansFreely, ActsFreely;
      InvCounts(Here());
      RankBounded(task);
      calls := 0;
      ghost var start := Here();
      while calls < BUDGET
        invariant start == old(Here()) && running == None && calls <= 15
        invariant Here() == Iterated(start, ws, calls)
        invariant forall j :: 0 <= j < calls ==> !Paused(Iterated(start, ws, j).task.phase)
        invariant Inv(Here()) && CountsOk(task)
        invariant calls + Rank(task) <= 15 || Paused(task.phase)
      {
        if Paused(task.phase) {
          RunEnds(start, ws, calls, true);
          return AtPause, calls;
        }
        ghost var s := Here();
        var ok := Advance(ws(calls));
        if !ok {
          RunEnds(start, ws, calls, false);
          return Refused, calls;
        }
        OneCallLess(s, ws(calls), calls);
        calls := calls + 1;
      }
      assert false;
    }
  }
}
