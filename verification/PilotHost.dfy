/** The pilot journal and the task kernel as their processes change them. */
module PilotHost {
  import opened Basics
  import opened Pilots
  import opened PilotProof
  import PilotRuns

  /** What a live run meets: it may raise or die once reserved, and each worker call may succeed, be refused
      as uncertain, or not return. */
  datatype Reply = Confirmed | Unsure | NoReply

  datatype Fate = Fate(stops: bool, edit: Reply, test: Reply)

  function Do(s: State, a: Action): State {
    if Enabled(s, a) then Apply(s, a) else s
  }

  /** One dispatch: the entry is committed as dispatched before the worker is called. */
  function Edited(s: State, reply: Reply): State {
    Do(Do(s, DispatchEdit), if reply == NoReply then RunnerEnds else ObserveEdit(reply == Confirmed))
  }

  function TestedBy(s: State, reply: Reply): State {
    Do(Do(s, DispatchTest), if reply == NoReply then RunnerEnds else ObserveTest(reply == Confirmed))
  }

  /** A reserved run to its receipt, or to wherever it stopped. */
  function Worked(s: State, docker: bool, w: Fate): State {
    if w.stops then Do(s, RunnerEnds)
    else if !docker then Do(Do(s, Evaluate), FinishRun)
    else if w.edit != Confirmed then Edited(s, w.edit)
    else
      var tested := TestedBy(Do(Edited(s, w.edit), Evaluate), w.test);
      if w.test != Confirmed then tested else Do(tested, FinishRun)
  }

  function Ran(s: State, id: Id, now: Time, w: Fate): (State, bool) {
    if !Enabled(s, EnterRun(id, now)) then (s, false)
    else (Worked(Do(Do(s, EnterRun(id, now)), Reserve), s.pilots[id].scope.mode == Docker, w), true)
  }

  /** One whole `advance`: a task found implementing was interrupted; a ready one runs its pilot once. */
  function Advanced(s: State, now: Time, w: Fate, matches: bool, files: Files, expires: Time): (State, bool)
    requires s.task.plan.Some?
  {
    if s.task.phase == Implementing then (Do(s, FindInterrupted), true)
    else if !Enabled(s, BeginAdvance(now)) then (s, s.task.phase != Ready)
    else
      var ran := Ran(Apply(s, BeginAdvance(now)), s.task.plan.value.id, now, w).0;
      (if Enabled(ran, FinishAdvance(matches, files, expires)) then Apply(ran, FinishAdvance(matches, files, expires))
       else Do(ran, GiveUpAdvance), true)
  }

  /** The clean-up that recovery asks of the journal: abandon what was never started, reconcile what was. */
  function CleanedUp(s: State, id: Id, absent: bool): State {
    if Enabled(s, Abandon(id)) then Apply(s, Abandon(id))
    else if Enabled(s, Reconcile(id, absent)) then Apply(s, Reconcile(id, absent))
    else s
  }

  lemma CleanUpNeeds(s: State, id: Id, absent: bool)
    ensures Enabled(s, Abandon(id)) ==> id in s.pilots && s.pilots[id].status == Prepared
    ensures Enabled(s, Reconcile(id, absent)) ==> id in s.pilots && s.pilots[id].status == Reserved
  {
  }

  lemma CleanUpKeepsTask(s: State, id: Id, absent: bool)
    ensures CleanedUp(s, id, absent).task == s.task && CleanedUp(s, id, absent).advancing == s.advancing
    ensures id in s.pilots ==> id in CleanedUp(s, id, absent).pilots
  {
    if Enabled(s, Abandon(id)) { PilotFrame(s, Abandon(id)); }
    if Enabled(s, Reconcile(id, absent)) { PilotFrame(s, Reconcile(id, absent)); }
    hide Enabled, Apply;
  }

  lemma RecoverShape(s: State, matches: bool)
    requires s.task.phase == Blocked && !s.advancing && s.task.op == Some(Started)
    requires s.task.plan.Some? && s.task.plan.value.id in s.pilots
    ensures Enabled(s, Action.Recover(matches)) <==>
              Settled(s.pilots[s.task.plan.value.id].status) && s.pilots[s.task.plan.value.id].scope.reloads
    ensures Enabled(s, Action.Recover(matches)) ==>
              var result := Result(s.task.plan.value, Interrupted, Report(s.pilots[s.task.plan.value.id].status, matches), map[]);
              Apply(s, Action.Recover(matches)) == s.(task := Moved(s.task.(result := Some(result), op := Some(Done)), TaskFailed))
  {
  }

  lemma ReserveShape(s: State, id: Id, now: Time)
    requires Enabled(s, EnterRun(id, now))
    ensures var row := s.pilots[id];
            Do(Do(s, EnterRun(id, now)), Reserve) ==
            s.(pilots := s.pilots[id := row.(status := Reserved, revision := row.revision + 1)],
               runner := Some(Runner(id, Writing)),
               workers := if row.scope.mode == Docker then s.workers[id := Workers(row.scope, Planned, Planned, 0)] else s.workers,
               starts := s.starts[id := (if id in s.starts then s.starts[id] else 0) + 1])
  {
    hide Admits;
  }

  lemma EditShape(s: State, reply: Reply)
    requires Enabled(s, DispatchEdit)
    ensures var id := s.runner.value.id;
            Edited(s, reply) ==
            s.(workers := s.workers[id := s.workers[id].(edit := if reply == NoReply then Dispatched else Observed(reply == Confirmed))],
               runner := if reply == Confirmed then s.runner else None)
  {
    var id := s.runner.value.id;
    var e := Apply(s, DispatchEdit);
    assert e.workers[id].edit == Dispatched;
  }

  lemma TestShape(s: State, reply: Reply)
    requires Enabled(s, DispatchTest)
    ensures var id := s.runner.value.id;
            TestedBy(s, reply) ==
            s.(workers := s.workers[id := s.workers[id].(test := if reply == NoReply then Dispatched else Observed(reply == Confirmed))],
               runner := if reply == Confirmed then Some(s.runner.value.(stage := Tested)) else None)
  {
    var id := s.runner.value.id;
    var e := Apply(s, DispatchTest);
    assert e.workers[id].test == Dispatched;
  }

  predicate CanReclaim(s: State, id: Id, revision: nat) {
    && Enabled(s, BeginReclaim(id)) && s.pilots[id].revision == revision
  }

  /** The two commits of a reclamation, or the first of them. */
  function Reclaimed(s: State, id: Id, dies: bool): State
    requires Enabled(s, BeginReclaim(id))
  {
    Apply(Apply(s, BeginReclaim(id)), if dies then DeletionDies else FinishReclaim)
  }

  lemma CanReclaimShape(s: State, id: Id, revision: nat)
    ensures CanReclaim(s, id, revision) <==>
              && s.runner == None && s.deleting == None
              && id in s.pilots && Reclaimable(s.task, s.pilots[id]) && s.pilots[id].scope.reloads
              && (id in s.reclaims ==> !s.reclaims[id].done)
              && (id in s.workers ==> Resolved(s.workers[id]))
              && s.pilots[id].revision == revision
  {
  }

  lemma IntendShape(s: State, id: Id)
    requires Enabled(s, BeginReclaim(id))
    ensures var row := AbandonedRow(s.pilots[id]);
            Apply(s, BeginReclaim(id)) ==
            s.(pilots := s.pilots[id := row], deleting := Some(id),
               reclaims := if id in s.reclaims then s.reclaims else s.reclaims[id := Reclamation(row.status, row.revision, false)])
  {
  }

  lemma EndShape(s: State, id: Id, dies: bool)
    requires Enabled(s, BeginReclaim(id))
    ensures var begun := Apply(s, BeginReclaim(id));
            && id in begun.reclaims
            && Reclaimed(s, id, dies) ==
               begun.(deleting := None,
                      reclaims := if dies then begun.reclaims else begun.reclaims[id := begun.reclaims[id].(done := true)])
  {
  }

  lemma EditedShape(s: State)
    requires Enabled(s, DispatchEdit)
    ensures var e := Edited(s, Confirmed);
            && e == s.(workers := s.workers[s.runner.value.id := s.workers[s.runner.value.id].(edit := Observed(true))])
            && Enabled(e, Evaluate)
  {
  }

  /** A step of a pilot leaves the kernel as it is. */
  lemma DoKeepsTask(s: State, a: Action)
    requires !LeavesRows(a)
    ensures Do(s, a).task == s.task && Do(s, a).advancing == s.advancing
  {
    if Enabled(s, a) { PilotFrame(s, a); }
  }

  lemma EditKeepsTask(s: State, reply: Reply)
    ensures Edited(s, reply).task == s.task && Edited(s, reply).advancing == s.advancing
    ensures TestedBy(s, reply).task == s.task && TestedBy(s, reply).advancing == s.advancing
  {
    hide Do;
    DoKeepsTask(s, DispatchEdit);
    DoKeepsTask(s, DispatchTest);
    DoKeepsTask(Do(s, DispatchEdit), if reply == NoReply then RunnerEnds else ObserveEdit(reply == Confirmed));
    DoKeepsTask(Do(s, DispatchTest), if reply == NoReply then RunnerEnds else ObserveTest(reply == Confirmed));
  }

  lemma WorkedKeepsTask(s: State, docker: bool, w: Fate)
    ensures Worked(s, docker, w).task == s.task && Worked(s, docker, w).advancing == s.advancing
  {
    hide Do, Edited, TestedBy;
    DoKeepsTask(s, RunnerEnds);
    DoKeepsTask(s, Evaluate);
    DoKeepsTask(Do(s, Evaluate), FinishRun);
    EditKeepsTask(s, w.edit);
    var evaluated := Do(Edited(s, w.edit), Evaluate);
    DoKeepsTask(Edited(s, w.edit), Evaluate);
    EditKeepsTask(evaluated, w.test);
    DoKeepsTask(TestedBy(evaluated, w.test), FinishRun);
  }

  lemma RanKeepsTask(s: State, id: Id, now: Time, w: Fate)
    ensures Ran(s, id, now, w).0.task == s.task && Ran(s, id, now, w).0.advancing == s.advancing
  {
    hide Do, Worked;
    DoKeepsTask(s, EnterRun(id, now));
    DoKeepsTask(Do(s, EnterRun(id, now)), Reserve);
    if Enabled(s, EnterRun(id, now)) {
      WorkedKeepsTask(Do(Do(s, EnterRun(id, now)), Reserve), s.pilots[id].scope.mode == Docker, w);
    }
  }

  // ---- What a run leaves ----

  /** The run met no trouble: its process lived, and every worker it called confirmed its work. */
  predicate Untroubled(docker: bool, w: Fate) {
    !w.stops && (docker ==> w.edit == Confirmed && w.test == Confirmed)
  }

  /** The worker journal's entry after a call: what was observed, or that nothing came back. */
  function EntryOf(reply: Reply): Entry {
    match reply
    case Confirmed => Observed(true)
    case Unsure => Observed(false)
    case NoReply => Dispatched
  }

  function JournalOf(scope: Scope, w: Fate): Workers {
    Workers(scope,
            if w.stops then Planned else EntryOf(w.edit),
            if w.stops || w.edit != Confirmed then Planned else EntryOf(w.test),
            0)
  }

  /** The pilot's row when the run has ended: with its outcome and its receipt, or still reserved. */
  function RowOf(row: Row, w: Fate): Row {
    if Untroubled(row.scope.mode == Docker, w) then
      Row(row.scope, row.revision + 2, if row.scope.passes then Passed else Failed,
          Some(Receipt(row.scope, row.scope.passes, row.scope.replacements,
                       if row.scope.mode == Docker then Some(JournalOf(row.scope, w)) else None)))
    else row.(status := Reserved, revision := row.revision + 1)
  }

  function AfterRun(s: State, id: Id, w: Fate): State
    requires id in s.pilots
  {
    var row := s.pilots[id];
    s.(pilots := s.pilots[id := RowOf(row, w)], runner := None,
       workers := if row.scope.mode == Docker then s.workers[id := JournalOf(row.scope, w)] else s.workers,
       starts := s.starts[id := (if id in s.starts then s.starts[id] else 0) + 1])
  }

  lemma FinishShape(s: State)
    requires Enabled(s, FinishRun)
    ensures var id := s.runner.value.id;
            Apply(s, FinishRun) ==
            s.(pilots := s.pilots[id := s.pilots[id].(status := if s.pilots[id].scope.passes then Passed else Failed,
                                                      revision := s.pilots[id].revision + 1, receipt := Some(ReceiptOf(s)))],
               runner := None)
  {
  }

  lemma LocalWork(s: State, w: Fate)
    requires Running(s, Writing) && Current(s).status == Reserved && Current(s).scope.mode == LocalData && !w.stops
    ensures var e := s.(runner := Some(s.runner.value.(stage := Evaluated)));
            Enabled(e, FinishRun) && Worked(s, false, w) == Apply(e, FinishRun)
  {
  }

  lemma EvaluateShape(s: State)
    requires Running(s, Writing) && UsesDocker(s) && s.workers[s.runner.value.id].edit == Observed(true)
    ensures Do(s, Evaluate) == s.(runner := Some(s.runner.value.(stage := Evaluated)))
  {
  }

  lemma TestReady(s: State)
    requires Running(s, Evaluated) && UsesDocker(s) && s.workers[s.runner.value.id].test == Planned
    ensures Enabled(s, DispatchTest)
  {
  }

  lemma FinishReady(s: State)
    requires Running(s, Tested) && Current(s).status == Reserved
    ensures Enabled(s, FinishRun) && Do(s, FinishRun) == Apply(s, FinishRun)
  {
  }

  lemma EditReady(s: State)
    ensures Enabled(s, DispatchEdit) <==> Running(s, Writing) && UsesDocker(s) && s.workers[s.runner.value.id].edit == Planned
  {
  }

  lemma DockerWork(s: State, w: Fate)
    requires Enabled(s, DispatchEdit) && Current(s).status == Reserved && s.workers[s.runner.value.id].test == Planned && !w.stops
    ensures w.edit != Confirmed ==> Worked(s, true, w) == Edited(s, w.edit)
    ensures w.edit == Confirmed ==>
              var e := Edited(s, Confirmed).(runner := Some(s.runner.value.(stage := Evaluated)));
              && Enabled(e, DispatchTest)
              && (w.test != Confirmed ==> Worked(s, true, w) == TestedBy(e, w.test))
              && (w.test == Confirmed ==> Enabled(TestedBy(e, Confirmed), FinishRun) && Worked(s, true, w) == Apply(TestedBy(e, Confirmed), FinishRun))
  {
    EditReady(s);
    if w.edit == Confirmed {
      EditShape(s, Confirmed);
      hide Edited, TestedBy, Do, Enabled, Apply;
      EvaluateShape(Edited(s, Confirmed));
      var e := Edited(s, Confirmed).(runner := Some(s.runner.value.(stage := Evaluated)));
      TestReady(e);
      TestShape(e, w.test);
      if w.test == Confirmed { FinishReady(TestedBy(e, Confirmed)); }
    }
  }

  /** A whole run, from its admission to its receipt or to where it stopped. */
  lemma RanShape(s: State, id: Id, now: Time, w: Fate)
    requires Enabled(s, EnterRun(id, now))
    ensures Ran(s, id, now, w) == (AfterRun(s, id, w), true)
  {
    ReserveShape(s, id, now);
    var r := Do(Do(s, EnterRun(id, now)), Reserve);
    var row := s.pilots[id];
    StopShape(r);
    hide Do, Admits;
    if row.scope.mode == Docker {
      DockerRan(s, id, r, w);
    } else {
      LocalRan(s, id, r, w);
    }
  }

  lemma StopShape(r: State)
    ensures r.runner.Some? ==> Do(r, RunnerEnds) == r.(runner := None)
  {
  }

  /** The state in which the work begins. */
  predicate Begun(s: State, id: Id, r: State) {
    && id in s.pilots && s.runner == None && s.pilots[id].status == Prepared
    && var row := s.pilots[id];
       r == s.(pilots := s.pilots[id := row.(status := Reserved, revision := row.revision + 1)],
               runner := Some(Runner(id, Writing)),
               workers := if row.scope.mode == Docker then s.workers[id := Workers(row.scope, Planned, Planned, 0)] else s.workers,
               starts := s.starts[id := (if id in s.starts then s.starts[id] else 0) + 1])
  }

  lemma LocalRan(s: State, id: Id, r: State, w: Fate)
    requires Begun(s, id, r) && s.pilots[id].scope.mode == LocalData
    ensures Worked(r, false, w) == AfterRun(s, id, w)
  {
    if w.stops {
      StopShape(r);
    } else {
      LocalWork(r, w);
      FinishShape(r.(runner := Some(r.runner.value.(stage := Evaluated))));
      hide Worked, Apply, Enabled, Do;
    }
    assert AfterRun(s, id, w).pilots == s.pilots[id := RowOf(s.pilots[id], w)];
  }

  lemma DockerRan(s: State, id: Id, r: State, w: Fate)
    requires Begun(s, id, r) && s.pilots[id].scope.mode == Docker
    ensures Worked(r, true, w) == AfterRun(s, id, w)
  {
    EditReady(r);
    if w.stops {
      StopShape(r);
    } else if w.edit != Confirmed {
      DockerWork(r, w);
      EditShape(r, w.edit);
      hide Worked, Apply, Do, Edited, TestedBy, Enabled;
    } else {
      hide Worked, Apply, Do, Edited, TestedBy, Enabled;
      DockerTested(s, id, r, w);
    }
  }

  lemma DockerTested(s: State, id: Id, r: State, w: Fate)
    requires Begun(s, id, r) && s.pilots[id].scope.mode == Docker && Enabled(r, DispatchEdit)
    requires !w.stops && w.edit == Confirmed
    ensures Worked(r, true, w) == AfterRun(s, id, w)
  {
    hide Worked, Apply, Do, Edited, TestedBy, Enabled;
    DockerWork(r, w);
    EditShape(r, Confirmed);
    var e := Edited(r, Confirmed).(runner := Some(Runner(id, Evaluated)));
    TestShape(e, w.test);
    if w.test == Confirmed { FinishShape(TestedBy(e, Confirmed)); }
    assert AfterRun(s, id, w).workers == s.workers[id := JournalOf(s.pilots[id].scope, w)];
  }

  lemma EnteredRow(s: State, id: Id, now: Time)
    requires Enabled(s, EnterRun(id, now))
    ensures id in s.pilots && s.pilots[id].status == Prepared && s.runner == None
  {
  }

  lemma BegunReady(s: State, id: Id, r: State)
    requires Begun(s, id, r)
    ensures Running(r, Writing) && Current(r).status == Reserved && Current(r).scope == s.pilots[id].scope && r.runner.value.id == id
    ensures Current(r).scope.mode == Docker ==> Enabled(r, DispatchEdit) && id in r.workers && r.workers[id].test == Planned
  {
  }

  lemma AfterRow(s: State, id: Id, w: Fate)
    requires id in s.pilots
    ensures var s', row := AfterRun(s, id, w), s.pilots[id];
            && id in s'.pilots && s'.runner == None && s'.pilots[id].scope == row.scope
            && (if Untroubled(row.scope.mode == Docker, w)
                then s'.pilots[id].receipt.Some? && s'.pilots[id].status == (if row.scope.passes then Passed else Failed)
                else s'.pilots[id].status == Reserved && s'.pilots[id].receipt == row.receipt)
  {
  }

  // ---- What a call of `advance` leaves ----

  /** The pilot of a task that is taken up can start: the worker lock is free, and its scope is the plan and has not
      expired. */
  predicate CanStart(s: State, now: Time)
    requires s.task.plan.Some?
  {
    var id := s.task.plan.value.id;
    && s.runner == None && s.deleting == None
    && id in s.pilots && s.pilots[id].scope.expires > now
    && (s.pilots[id].scope.bound ==> s.pilots[id].scope == s.task.plan.value)
  }

  /** Where the task goes: to the pause for its result, or to failure, by the pilot's own checks; and it is blocked
      unless the pilot ended with a receipt that its workspace still matches. */
  function Leads(s: State, now: Time, w: Fate, matches: bool): Phase
    requires s.task.plan.Some? && s.task.plan.value.id in s.pilots
  {
    var scope := s.pilots[s.task.plan.value.id].scope;
    if CanStart(s, now) && Untroubled(scope.mode == Docker, w) && matches then (if scope.passes then AwaitingAction else TaskFailed)
    else Blocked
  }

  lemma BeginShape(s: State, now: Time)
    requires s.task.plan.Some? && Enabled(s, BeginAdvance(now))
    ensures var id := s.task.plan.value.id;
            && id in s.pilots && s.pilots[id].status == Prepared && s.task.phase == Ready
            && Apply(s, BeginAdvance(now)) == s.(task := Moved(s.task.(op := Some(Started)), Implementing), advancing := true)
            && (Enabled(Apply(s, BeginAdvance(now)), EnterRun(id, now)) <==> CanStart(s, now))
  {
  }

  lemma FinishesIff(s: State, matches: bool, files: Files, expires: Time)
    requires s.task.plan.Some? && s.advancing && s.task.phase == Implementing && s.task.plan.value.id in s.pilots
    ensures var status := s.pilots[s.task.plan.value.id].status;
            && (Enabled(s, FinishAdvance(matches, files, expires)) <==> matches && status in {Passed, Failed})
            && (Enabled(s, FinishAdvance(matches, files, expires)) ==>
                  Apply(s, FinishAdvance(matches, files, expires)).task.phase == if status == Passed then AwaitingAction else TaskFailed)
            && Do(s, GiveUpAdvance).task.phase == Blocked
  {
  }

  /** The state in which `advance` looks at what its pilot has become. */
  lemma RanRow(s: State, b: State, now: Time, w: Fate)
    requires s.task.plan.Some? && s.task.plan.value.id in s.pilots && s.pilots[s.task.plan.value.id].status == Prepared
    requires b == s.(task := b.task, advancing := true) && b.task.phase == Implementing && b.task.plan == s.task.plan
    requires Enabled(b, EnterRun(s.task.plan.value.id, now)) <==> CanStart(s, now)
    ensures var id, r := s.task.plan.value.id, Ran(b, s.task.plan.value.id, now, w).0;
            && r.task == b.task && r.advancing && id in r.pilots
            && var scope := s.pilots[id].scope;
               (r.pilots[id].status in {Passed, Failed} <==> CanStart(s, now) && Untroubled(scope.mode == Docker, w))
               && (r.pilots[id].status in {Passed, Failed} ==> r.pilots[id].status == if scope.passes then Passed else Failed)
  {
    var id := s.task.plan.value.id;
    RanKeepsTask(b, id, now, w);
    if Enabled(b, EnterRun(id, now)) {
      RanShape(b, id, now, w);
      AfterRow(b, id, w);
    }
    hide Enabled, Do, Worked, AfterRun;
  }

  /** What is done of it, case by case. */
  lemma AdvancedShape(s: State, now: Time, w: Fate, matches: bool, files: Files, expires: Time)
    requires s.task.plan.Some? && !s.advancing
    ensures var a := Advanced(s, now, w, matches, files, expires);
            if s.task.phase == Implementing then a == (s.(task := Moved(s.task, Blocked)), true)
            else if s.task.phase != Ready then a == (s, true)
            else if !Enabled(s, BeginAdvance(now)) then a == (s, false)
            else
              var b := s.(task := Moved(s.task.(op := Some(Started)), Implementing), advancing := true);
              var r := Ran(b, s.task.plan.value.id, now, w).0;
              && Enabled(r, GiveUpAdvance)
              && a == (if Enabled(r, FinishAdvance(matches, files, expires)) then Apply(r, FinishAdvance(matches, files, expires))
                       else Apply(r, GiveUpAdvance), true)
  {
    if s.task.phase == Implementing {
      assert Do(s, FindInterrupted) == s.(task := Moved(s.task, Blocked));
    } else if Enabled(s, BeginAdvance(now)) {
      BeginShape(s, now);
      RanKeepsTask(Apply(s, BeginAdvance(now)), s.task.plan.value.id, now, w);
      hide Ran, PlanApproved;
    }
  }

  lemma AdvancedLeads(s: State, now: Time, w: Fate, matches: bool, files: Files, expires: Time)
    requires s.task.plan.Some? && s.task.phase == Ready && Enabled(s, BeginAdvance(now))
    ensures s.task.plan.value.id in s.pilots
    ensures Advanced(s, now, w, matches, files, expires).1
    ensures Advanced(s, now, w, matches, files, expires).0.task.phase == Leads(s, now, w, matches)
  {
    BeginShape(s, now);
    var b := Apply(s, BeginAdvance(now));
    hide Enabled, Apply, Do, Ran, CanStart;
    RanRow(s, b, now, w);
    FinishesIff(Ran(b, s.task.plan.value.id, now, w).0, matches, files, expires);
  }

  class Site {
    var task: Task
    var pilots: map<Id, Row>
    var workers: map<Id, Workers>
    var reclaims: map<Id, Reclamation>
    var runner: Option<Runner>
    var deleting: Option<Id>
    var advancing: bool
    var starts: map<Id, nat>

    function Here(): State
      reads this
    {
      State(task, pilots, workers, reclaims, runner, deleting, advancing, starts)
    }

    constructor ()
      ensures Here() == Pilots.Start()
    {
      task := Pilots.Start().task;
      pilots, workers, reclaims, runner, deleting, advancing, starts := map[], map[], map[], None, None, false, map[];
    }

    /** `prepare`: the row is committed, and only then inspected; the caller gets an answer only if it can be read back. */
    method Prepare(scope: Scope) returns (ok: bool)
      requires JournalFree(Here())
      modifies this
      ensures ok == old(Enabled(Here(), Action.Prepare(scope)) && scope.reloads)
      ensures Here() == if old(Enabled(Here(), Action.Prepare(scope))) then Apply(old(Here()), Action.Prepare(scope)) else old(Here())
    {
      if scope.id in pilots { return false; }
      pilots := pilots[scope.id := Row(scope, 0, Prepared, None)];
      ok := scope.reloads;
    }

    /** `abandon`: fenced by the exact revision. */
    method Abandon(id: Id, revision: nat) returns (ok: bool)
      requires JournalFree(Here())
      modifies this
      ensures ok == old(Enabled(Here(), Action.Abandon(id)) && pilots[id].revision == revision)
      ensures Here() == if ok then Apply(old(Here()), Action.Abandon(id)) else old(Here())
      ensures ok ==> id in old(pilots) && old(pilots)[id].status == Prepared
                     && pilots == old(pilots)[id := old(pilots)[id].(status := Abandoned, revision := revision + 1)]
    {
      if id !in pilots || !pilots[id].scope.reloads { return false; }
      if pilots[id].revision != revision || pilots[id].status != Prepared { return false; }
      pilots := pilots[id := pilots[id].(status := Abandoned, revision := revision + 1)];
      ok := true;
    }

    /** `reconcile`: under the worker lock, and never a retry. */
    method Reconcile(id: Id, revision: nat, absent: bool) returns (ok: bool)
      modifies this
      ensures ok == old(Enabled(Here(), Action.Reconcile(id, absent)) && pilots[id].revision == revision)
      ensures Here() == if ok then Apply(old(Here()), Action.Reconcile(id, absent)) else old(Here())
      ensures ok ==>
                && id in old(pilots) && old(pilots)[id].status == Reserved && old(runner) == None && starts == old(starts)
                && var row := old(pilots)[id];
                   && pilots == old(pilots)[id := row.(status := if row.scope.mode == LocalData || absent then Interrupted else Reserved,
                                                       revision := revision + 1)]
                   && (row.scope.mode == LocalData ==> workers == old(workers))
    {
      if runner.Some? || deleting.Some? { return false; }
      if id !in pilots || !pilots[id].scope.reloads { return false; }
      if pilots[id].revision != revision || pilots[id].status != Reserved || revision >= REVISION_CAP { return false; }
      var row := pilots[id];
      var status := Interrupted;
      if row.scope.mode == Docker {
        if id !in workers { return false; }
        workers := workers[id := workers[id].(cleanup := workers[id].cleanup + 1)];
        if !absent { status := Reserved; }
      }
      pilots := pilots[id := row.(status := status, revision := revision + 1)];
      ok := true;
    }

    /** The first commit of `reclaim`: the review, the abandonment it may imply, and the intent. */
    method Intend(id: Id, revision: nat) returns (ok: bool)
      modifies this
      ensures ok == old(CanReclaim(Here(), id, revision))
      ensures Here() == if ok then Apply(old(Here()), BeginReclaim(id)) else old(Here())
    {
      CanReclaimShape(Here(), id, revision);
      if CanReclaim(Here(), id, revision) { IntendShape(Here(), id); }
      hide CanReclaim, Enabled, Apply;
      if runner.Some? || deleting.Some? || id !in pilots || !pilots[id].scope.reloads { return false; }
      if pilots[id].revision != revision { return false; }
      var row := pilots[id];
      if row.status == Reserved || (row.status == Prepared && !row.scope.bound) { return false; }
      if row.scope.bound && (task.plan != Some(row.scope) || !Terminal(task.phase)) { return false; }
      if id in reclaims && reclaims[id].done { return false; }
      if id in workers && !Resolved(workers[id]) { return false; }
      if row.status == Prepared { row := row.(status := Abandoned, revision := revision + 1); }
      pilots := pilots[id := row];
      if id !in reclaims { reclaims := reclaims[id := Reclamation(row.status, row.revision, false)]; }
      deleting := Some(id);
      ok := true;
    }

    /** `reclaim`: nothing is deleted before the intent is committed, and only a complete deletion is recorded as one. */
    method Reclaim(id: Id, revision: nat, dies: bool) returns (ok: bool)
      modifies this
      ensures ok == old(CanReclaim(Here(), id, revision))
      ensures Here() == if ok then Reclaimed(old(Here()), id, dies) else old(Here())
      ensures ok ==>
                && id in old(pilots) && old(pilots)[id].status != Reserved && deleting == None
                && pilots == old(pilots)[id := AbandonedRow(old(pilots)[id])]
                && id in reclaims && reclaims[id].done == !dies && (id in old(reclaims) ==> !old(reclaims)[id].done)
    {
      if CanReclaim(Here(), id, revision) { IntendShape(Here(), id); EndShape(Here(), id, dies); }
      hide CanReclaim, Enabled, Apply;
      ok := Intend(id, revision);
      if !ok { return; }
      if !dies { reclaims := reclaims[id := reclaims[id].(done := true)]; }
      deleting := None;
    }

    /** `_dispatch`: the entry is saved before the call and after it. */
    method Edit(reply: Reply)
      requires Enabled(Here(), DispatchEdit)
      modifies this
      ensures Here() == Edited(old(Here()), reply)
    {
      EditShape(Here(), reply);
      hide Edited;
      var id := runner.value.id;
      workers := workers[id := workers[id].(edit := Dispatched)];
      if reply == NoReply {
        runner := None;
      } else {
        workers := workers[id := workers[id].(edit := Observed(reply == Confirmed))];
        if reply == Unsure { runner := None; }
      }
    }

    method Test(reply: Reply)
      requires Enabled(Here(), DispatchTest)
      modifies this
      ensures Here() == TestedBy(old(Here()), reply)
    {
      TestShape(Here(), reply);
      hide TestedBy;
      var id := runner.value.id;
      workers := workers[id := workers[id].(test := Dispatched)];
      if reply == NoReply {
        runner := None;
      } else {
        workers := workers[id := workers[id].(test := Observed(reply == Confirmed))];
        runner := if reply == Unsure then None else Some(runner.value.(stage := Tested));
      }
    }

    /** The receipt, bound to the worker journal as it stands now. */
    method Finish()
      requires Enabled(Here(), FinishRun)
      modifies this
      ensures Here() == Apply(old(Here()), FinishRun)
    {
      var id := runner.value.id;
      var row := pilots[id];
      var journal := if row.scope.mode == Docker && id in workers then Some(workers[id]) else None;
      var receipt := Receipt(row.scope, row.scope.passes, row.scope.replacements, journal);
      pilots := pilots[id := row.(status := if row.scope.passes then Passed else Failed, revision := row.revision + 1,
                                  receipt := Some(receipt))];
      runner := None;
    }

    /** The reservation is durable before anything is written or started. */
    method ReserveRun(id: Id, now: Time) returns (ok: bool)
      modifies this
      ensures ok == old(Enabled(Here(), EnterRun(id, now)))
      ensures Here() == if ok then Do(Do(old(Here()), EnterRun(id, now)), Reserve) else old(Here())
    {
      hide Admits, Apply, Do;
      if runner.Some? || deleting.Some? || id !in pilots || !pilots[id].scope.reloads { return false; }
      if pilots[id].status != Prepared { return false; }
      var scope := pilots[id].scope;
      if scope.bound && !Admits(task, scope, now) { return false; }
      if scope.expires <= now { return false; }
      assert Enabled(Here(), EnterRun(id, now));
      ReserveShape(Here(), id, now);
      hide Enabled;
      pilots := pilots[id := pilots[id].(status := Reserved, revision := pilots[id].revision + 1)];
      if scope.mode == Docker { workers := workers[id := Workers(scope, Planned, Planned, 0)]; }
      starts := starts[id := (if id in starts then starts[id] else 0) + 1];
      runner := Some(Runner(id, Writing));
      ok := true;
    }

    /** The worker's test, on the workspace as the edit left it. */
    method Verify(docker: bool, w: Fate)
      requires Running(Here(), Evaluated) && Current(Here()).status == Reserved && docker == (Current(Here()).scope.mode == Docker)
      requires docker ==> Enabled(Here(), DispatchTest)
      modifies this
      ensures Here() == if !docker then Do(old(Here()), FinishRun)
                        else if w.test != Confirmed then TestedBy(old(Here()), w.test)
                        else Do(TestedBy(old(Here()), w.test), FinishRun)
    {
      if docker {
        Test(w.test);
        if w.test != Confirmed { return; }
      }
      Finish();
    }

    method Work(w: Fate)
      requires Running(Here(), Writing) && Current(Here()).status == Reserved
      requires Current(Here()).scope.mode == Docker ==>
                 Enabled(Here(), DispatchEdit) && workers[runner.value.id].test == Planned
      modifies this
      ensures Here() == Worked(old(Here()), old(Current(Here()).scope.mode == Docker), w)
    {
      if w.stops {
        runner := None;
        return;
      }
      var docker := pilots[runner.value.id].scope.mode == Docker;
      if docker {
        EditedShape(Here());
        hide Edited;
        Edit(w.edit);
        if w.edit != Confirmed { return; }
      }
      assert Enabled(Here(), Evaluate);
      runner := Some(runner.value.(stage := Evaluated));
      hide TestedBy;
      Verify(docker, w);
    }

    method Run(id: Id, now: Time, w: Fate) returns (ok: bool)
      modifies this
      ensures (Here(), ok) == old(Ran(Here(), id, now, w))
      ensures ok <==> old(Enabled(Here(), EnterRun(id, now)))
      ensures ok ==> Here() == old(AfterRun(Here(), id, w))
      ensures !ok ==> Here() == old(Here())
      ensures ok ==>
                && old(id in pilots && pilots[id].status == Prepared) && id in pilots && runner == None
                && (if Untroubled(pilots[id].scope.mode == Docker, w)
                    then pilots[id].receipt.Some? && pilots[id].status == (if pilots[id].scope.passes then Passed else Failed)
                    else pilots[id].status == Reserved && pilots[id].receipt == old(pilots)[id].receipt)
    {
      ghost var start := Here();
      ok := ReserveRun(id, now);
      if ok {
        EnteredRow(start, id, now);
        ReserveShape(start, id, now);
        BegunReady(start, id, Here());
        RanShape(start, id, now, w);
        AfterRow(start, id, w);
        hide Enabled, Apply, Do, Worked, AfterRun;
        Work(w);
      }
    }

    /** The result, the end of the operation and the next request are one commit. */
    method FinishTask(matches: bool, files: Files, expires: Time)
      requires advancing && task.phase == Implementing && task.plan.Some?
      modifies this
      ensures Here() == if old(Enabled(Here(), FinishAdvance(matches, files, expires)))
                        then Apply(old(Here()), FinishAdvance(matches, files, expires))
                        else Apply(old(Here()), GiveUpAdvance)
    {
      var scope := task.plan.value;
      advancing := false;
      if !matches || scope.id !in pilots || pilots[scope.id].status !in {Passed, Failed} {
        task := Moved(task, Blocked);
        return;
      }
      var status := pilots[scope.id].status;
      var result := Result(scope, status, Report(status, matches), files);
      task := task.(result := Some(result), op := Some(Done));
      if status == Passed {
        task := Moved(Requesting(task, OfResult(result), expires), AwaitingAction);
      } else {
        task := Moved(task, TaskFailed);
      }
    }

    method Advance(now: Time, w: Fate, matches: bool, files: Files, expires: Time) returns (ok: bool)
      requires !advancing && task.plan.Some?
      modifies this
      ensures (Here(), ok) == old(Advanced(Here(), now, w, matches, files, expires))
      ensures old(task.phase) == Implementing ==> ok && task.phase == Blocked && pilots == old(pilots) && workers == old(workers)
      ensures old(task.phase) == Ready && ok ==> old(task.plan.value.id in pilots) && task.phase == old(Leads(Here(), now, w, matches))
    {
      ghost var start := Here();
      AdvancedShape(start, now, w, matches, files, expires);
      if task.phase == Ready && Enabled(start, BeginAdvance(now)) { AdvancedLeads(start, now, w, matches, files, expires); }
      hide Leads, Advanced, Enabled, Apply, Ran;
      if task.phase == Implementing {
        task := Moved(task, Blocked);
        return true;
      }
      if task.phase != Ready { return true; }
      if !Enabled(Here(), BeginAdvance(now)) { return false; }
      task, advancing := Moved(task.(op := Some(Started)), Implementing), true;
      ghost var begun := Here();
      RanKeepsTask(begun, task.plan.value.id, now, w);
      var _ := Run(task.plan.value.id, now, w);
      FinishTask(matches, files, expires);
      ok := true;
    }

    method ApproveResult(approve: bool, expectedRevision: nat, now: Time) returns (ok: bool)
      requires !advancing
      modifies this
      ensures ok == old(task.revision == expectedRevision && Enabled(Here(), Action.ApproveResult(approve, now)))
      ensures Here() == if ok then Apply(old(Here()), Action.ApproveResult(approve, now)) else old(Here())
      ensures ok ==>
                && task.phase == (if approve then Completed else Cancelled) && old(task.phase) == AwaitingAction && task.pending == None
                && old(task).pending.Some? && task.actionDecision == Some(Decision(old(task).pending.value, approve))
                && task.result == old(task).result && ResultPasses(task) && pilots == old(pilots)
    {
      if task.revision != expectedRevision || task.phase != AwaitingAction || task.pending.None? || task.result.None? { return false; }
      var q := task.pending.value;
      if q.subject != OfResult(task.result.value) || q.revision != expectedRevision || q.expires <= now { return false; }
      if !ResultPasses(task) { return false; }
      task := task.(actionDecision := Some(Decision(q, approve)), pending := None);
      task := Moved(task, if approve then Completed else Cancelled);
      ok := true;
    }

    method CleanUp(id: Id, absent: bool)
      requires JournalFree(Here()) && id in pilots
      modifies this
      ensures Here() == CleanedUp(old(Here()), id, absent)
    {
      CleanUpNeeds(Here(), id, absent);
      hide Enabled, Apply;
      if pilots[id].status == Prepared {
        var _ := Abandon(id, pilots[id].revision);
      } else if pilots[id].status == Reserved {
        var _ := Reconcile(id, pilots[id].revision, absent);
      }
    }

    /** Recovery of a blocked task: the journal is settled first, in its own commit, and only then the kernel. */
    method Recover(expectedRevision: nat, absent: bool, matches: bool) returns (ok: bool)
      requires runner == None && !advancing
      modifies this
      ensures old(Enabled'(Here(), expectedRevision)) ==>
                var s := CleanedUp(old(Here()), old(task.plan).value.id, absent);
                && ok == Enabled(s, Action.Recover(matches))
                && Here() == if ok then Apply(s, Action.Recover(matches)) else s
      ensures old(!Enabled'(Here(), expectedRevision)) ==> !ok && Here() == old(Here())
      ensures ok ==>
                && task.phase == TaskFailed && task.op == Some(Done) && task.plan == old(task).plan && task.plan.Some?
                && task.result.Some? && task.result.value.outcome == Interrupted && task.result.value.snapshots == map[]
                && task.plan.value.id in pilots && Settled(pilots[task.plan.value.id].status)
      ensures !ok ==> task == old(task)
    {
      if task.phase != Blocked || task.revision != expectedRevision || task.op != Some(Started) { return false; }
      if task.plan.None? || task.plan.value.id !in pilots { return false; }
      var id := task.plan.value.id;
      CleanUpKeepsTask(Here(), id, absent);
      hide CleanedUp, Enabled, Apply;
      CleanUp(id, absent);
      RecoverShape(Here(), matches);
      if !pilots[id].scope.reloads || !Settled(pilots[id].status) { return false; }
      var result := Result(task.plan.value, Interrupted, Report(pilots[id].status, matches), map[]);
      task := Moved(task.(result := Some(result), op := Some(Done)), TaskFailed);
      ok := true;
    }
  }

  /** What recovery asks of the kernel before it touches the journal. */
  predicate Enabled'(s: State, expectedRevision: nat) {
    && s.task.phase == Blocked && s.task.revision == expectedRevision && s.task.op == Some(Started)
    && s.task.plan.Some? && s.task.plan.value.id in s.pilots
  }

  /** A reachable blocked task, with nothing running, can be recovered once its containers are proved absent, exactly
      unless its pilot has used up its reconciliations. */
  lemma BlockedCanBeSettled(ss: seq<State>, acts: seq<Action>, i: nat, matches: bool)
    requires Pilots.Run(ss, acts) && i <= |acts|
    requires ss[i].task.phase == Blocked && ss[i].runner == None && ss[i].deleting == None && !ss[i].advancing
    ensures Enabled'(ss[i], ss[i].task.revision)
    ensures var id := ss[i].task.plan.value.id;
            Enabled(CleanedUp(ss[i], id, true), Action.Recover(matches)) <==>
              !(ss[i].pilots[id].status == Reserved && ss[i].pilots[id].revision >= REVISION_CAP)
  {
    PilotRuns.RunKeepsInv(ss, acts, i);
    var s := ss[i];
    var id := s.task.plan.value.id;
    PilotRuns.RowsPassInspection(ss, acts, i, id);
    assert s.pilots[id].scope == s.task.plan.value && s.task.plan.value.reloads;
    hide RowsOk, StartsOk, BoundOk, ReclaimsOk;
    var c := CleanedUp(s, id, true);
    CleanUpKeepsTask(s, id, true);
    RecoverShape(c, matches);
    CleanUpSettles(s, id);
    hide Inv, PhaseOk, PlanPilotOk, InspectOk, CleanedUp, Enabled, Apply;
  }

  /** On proof of absence the clean-up settles a pilot, unless its reconciliations are used up. */
  lemma CleanUpSettles(s: State, id: Id)
    requires id in s.pilots && Inspects(id, s.pilots[id], s.workers) && s.runner == None && s.deleting == None
    ensures id in CleanedUp(s, id, true).pilots && CleanedUp(s, id, true).pilots[id].scope.reloads
    ensures Settled(CleanedUp(s, id, true).pilots[id].status) <==>
              !(s.pilots[id].status == Reserved && s.pilots[id].revision >= REVISION_CAP)
  {
  }
}
