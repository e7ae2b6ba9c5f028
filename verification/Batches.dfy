/** Serial batches: a checkpointed runner that advances reviewed tasks one after another, and stops at trouble. */
module Batches {
  import opened Basics

  const STEP_CAP: nat := 40

  datatype Standing = Working | AtPause | Completed | Cancelled | Failed | Blocked

  /** A task snapshot: the runner compares digests, which stand for the snapshots themselves. */
  datatype Snapshot = Snapshot(version: nat, standing: Standing)

  datatype Status = Pending | Running | Stopped | Abandoned

  /** `reviewed` is the snapshot the operator reviewed. The last two fields are history: which call of `run`
      reserved the entry, and the advances made for it, each from one durable snapshot to the next. */
  datatype Entry = Entry(
    task: nat, reviewed: Snapshot, status: Status, last: Snapshot, result: Option<Standing>, steps: nat,
    runner: Option<nat>, advances: seq<(Snapshot, Snapshot)>)

  /** A live `run`: its entry, and a completed advance that it has not saved yet. */
  datatype Live = Live(call: nat, index: nat, unsaved: Option<Snapshot>)

  datatype State = State(revision: nat, entries: seq<Entry>, tasks: map<nat, Snapshot>, live: Option<Live>, calls: nat)

  predicate Paused(p: Standing) { p != Working }

  predicate NeedsReview(p: Standing) { p in {Failed, Blocked} }

  /** An entry that stops the batch until someone reviews it. */
  predicate Troubled(e: Entry) {
    e.status == Running || (e.status == Stopped && e.result.Some? && NeedsReview(e.result.value))
  }

  predicate Waiting(e: Entry) { e.status in {Pending, Abandoned} }

  datatype Action =
    | TaskChanges(task: nat, to: Snapshot)
    | Begin(revision: nat)
    | Skip
    | Reserve
    | Advance(to: Snapshot)
    | Save
    | Finish
    | End
    | Abandon(index: nat, revision: nat, expected: Snapshot)

  predicate AtEntry(s: State) {
    s.live.Some? && s.live.value.index < |s.entries|
  }

  function Here(s: State): Entry
    requires AtEntry(s)
  {
    s.entries[s.live.value.index]
  }

  predicate Executing(s: State) {
    AtEntry(s) && Here(s).status == Running && s.live.value.unsaved == None
  }

  predicate Enabled(s: State, a: Action) {
    match a
    case TaskChanges(task, to) => task in s.tasks
    case Begin(revision) =>
      s.live == None && s.revision == revision && forall i :: 0 <= i < |s.entries| ==> !Troubled(s.entries[i])
    case Skip => AtEntry(s) && Here(s).status != Pending && !Troubled(Here(s))
    case Reserve => AtEntry(s) && Here(s).status == Pending
    case Advance(to) =>
      && Executing(s) && Here(s).steps < STEP_CAP
      && Here(s).task in s.tasks && s.tasks[Here(s).task] == Here(s).last
    case Save => AtEntry(s) && Here(s).status == Running && s.live.value.unsaved.Some?
    case Finish => AtEntry(s) && Here(s).status == Stopped && !Troubled(Here(s))
    case End => s.live.Some?
    case Abandon(index, revision, expected) =>
      && s.live == None && s.revision == revision && index < |s.entries|
      && (s.entries[index].status == Pending || Troubled(s.entries[index]))
      && s.entries[index].task in s.tasks && s.tasks[s.entries[index].task] == expected
  }

  function WithEntry(s: State, i: nat, e: Entry): State
    requires i < |s.entries|
  {
    s.(entries := s.entries[i := e])
  }

  function Saved(e: Entry, to: Snapshot): Entry {
    var e' := e.(steps := e.steps + 1, last := to);
    if Paused(to.standing) then e'.(status := Stopped, result := Some(to.standing)) else e'
  }

  function Apply(s: State, a: Action): State
    requires Enabled(s, a)
  {
    match a
    case TaskChanges(task, to) => s.(tasks := s.tasks[task := to])
    case Begin(revision) => s.(live := Some(Live(s.calls, 0, None)), calls := s.calls + 1)
    case Skip => s.(live := Some(s.live.value.(index := s.live.value.index + 1)))
    case Reserve =>
      WithEntry(s, s.live.value.index, Here(s).(status := Running, runner := Some(s.live.value.call))).(revision := s.revision + 1)
    case Advance(to) =>
      WithEntry(s, s.live.value.index, Here(s).(advances := Here(s).advances + [(s.tasks[Here(s).task], to)])).(
        tasks := s.tasks[Here(s).task := to],
        live := Some(s.live.value.(unsaved := Some(to))))
    case Save =>
      WithEntry(s, s.live.value.index, Saved(Here(s), s.live.value.unsaved.value)).(
        revision := s.revision + 1,
        live := Some(s.live.value.(unsaved := None)))
    case Finish => s.(live := Some(s.live.value.(index := s.live.value.index + 1)))
    case End => s.(live := None)
    case Abandon(index, revision, expected) =>
      WithEntry(s, index, s.entries[index].(status := Abandoned, result := None, last := expected)).(revision := s.revision + 1)
  }

  /** A batch as it is created: every entry pending at the snapshot just taken. */
  predicate Created(s: State) {
    && s.revision == 0 && s.live == None && s.calls == 0
    && forall i :: 0 <= i < |s.entries| ==>
         s.entries[i] == Entry(s.entries[i].task, s.entries[i].reviewed, Pending, s.entries[i].reviewed, None, 0, None, [])
  }

  ghost predicate Run(ss: seq<State>, acts: seq<Action>) {
    && |ss| == |acts| + 1
    && Created(ss[0])
    && forall i :: 0 <= i < |acts| ==> Enabled(ss[i], acts[i]) && ss[i + 1] == Apply(ss[i], acts[i])
  }

  // ---- What every saved batch satisfies ----

  /** The checks that `_load` makes of one entry. */
  predicate LoadOk(e: Entry) {
    && e.steps <= STEP_CAP
    && (e.status == Pending ==> e.steps == 0 && e.result == None && e.last == e.reviewed)
    && (e.status == Stopped ==> e.result.Some? && Paused(e.result.value))
    && (e.status != Stopped ==> e.result == None)
  }

  /** Trouble stops everything behind it, and nothing waits before it. */
  predicate InOrder(es: seq<Entry>) {
    && (forall i, j :: 0 <= i < j < |es| && (Troubled(es[i]) || es[i].status == Pending) ==> Waiting(es[j]))
    && (forall i, j :: 0 <= i < j < |es| && Troubled(es[j]) ==> es[i].status != Pending && !Troubled(es[i]))
  }

  /** The advances lead from the reviewed snapshot, each from where the one before it ended. */
  predicate Unbroken(e: Entry) {
    forall k :: 0 <= k < |e.advances| ==> Follows(e, k)
  }

  predicate Follows(e: Entry, k: nat)
    requires k < |e.advances|
  {
    e.advances[k].0 == if k == 0 then e.reviewed else e.advances[k - 1].1
  }

  lemma UnbrokenGrows(e: Entry, to: Snapshot, e': Entry)
    requires Unbroken(e) && e'.reviewed == e.reviewed
    ensures e'.advances == e.advances + [(Reached(e), to)] ==> Unbroken(e')
    ensures e'.advances == e.advances ==> Unbroken(e')
  {
    forall k | 0 <= k < |e'.advances| && e'.advances == e.advances ensures Follows(e', k) { assert Follows(e, k); }
    forall k | 0 <= k < |e'.advances| && e'.advances == e.advances + [(Reached(e), to)] ensures Follows(e', k) {
      if k < |e.advances| { assert Follows(e, k); }
    }
  }

  function Reached(e: Entry): Snapshot {
    if e.advances == [] then e.reviewed else e.advances[|e.advances| - 1].1
  }

  /** All advances but perhaps the last are saved, and what is saved is where they led. */
  predicate Checkpointed(e: Entry) {
    && e.steps <= |e.advances| <= e.steps + 1
    && |e.advances| <= STEP_CAP
    && (e.status in {Pending, Running, Stopped} && |e.advances| == e.steps ==> e.last == Reached(e))
    && (e.status == Stopped ==> |e.advances| == e.steps)
    && (e.status == Pending ==> e.runner == None && e.advances == [])
    && (e.runner == None ==> e.advances == [])
    && (e.status in {Running, Stopped} ==> e.runner.Some?)
  }

  predicate EntryOk(e: Entry) {
    LoadOk(e) && Unbroken(e) && Checkpointed(e)
  }

  predicate LiveOk(s: State) {
    && (forall i :: 0 <= i < |s.entries| && s.entries[i].runner.Some? ==> s.entries[i].runner.value < s.calls)
    && (s.live.Some? ==>
          && s.live.value.call < s.calls
          && s.live.value.index <= |s.entries|
          && (forall i :: 0 <= i < s.live.value.index ==> s.entries[i].status != Pending && !Troubled(s.entries[i]))
          && (forall i :: 0 <= i < |s.entries| && Troubled(s.entries[i]) ==>
                i == s.live.value.index && s.entries[i].runner == Some(s.live.value.call)
                && (s.entries[i].status == Running ==>
                      |s.entries[i].advances| == s.entries[i].steps + if s.live.value.unsaved.Some? then 1 else 0))
          && (s.live.value.unsaved.Some? ==>
                AtEntry(s) && Here(s).status == Running && s.live.value.unsaved == Some(Reached(Here(s)))))
  }

  ghost predicate Inv(s: State) {
    && (forall i :: 0 <= i < |s.entries| ==> EntryOk(s.entries[i]))
    && InOrder(s.entries)
    && LiveOk(s)
  }

  lemma CreatedInv(s: State)
    requires Created(s)
    ensures Inv(s)
  {
  }

  lemma QuietKeeps(s: State, a: Action)
    requires Inv(s) && Enabled(s, a) && (a.TaskChanges? || a.Begin? || a.Skip? || a.Finish? || a.End?)
    ensures Inv(Apply(s, a))
  {
  }

  lemma ReserveKeeps(s: State)
    requires Inv(s) && Enabled(s, Reserve)
    ensures Inv(Apply(s, Reserve))
  {
    var i := s.live.value.index;
    var es := Apply(s, Reserve).entries;
    assert forall k :: 0 <= k < |es| && k != i ==> es[k] == s.entries[k];
    assert EntryOk(es[i]);
  }

  lemma AdvanceKeeps(s: State, to: Snapshot)
    requires Inv(s) && Enabled(s, Advance(to))
    ensures Inv(Apply(s, Advance(to)))
  {
    var i := s.live.value.index;
    var es := Apply(s, Advance(to)).entries;
    assert forall k :: 0 <= k < |es| && k != i ==> es[k] == s.entries[k];
    assert EntryOk(s.entries[i]);
    UnbrokenGrows(s.entries[i], to, es[i]);
    assert EntryOk(es[i]);
  }

  lemma SaveKeeps(s: State)
    requires Inv(s) && Enabled(s, Save)
    ensures Inv(Apply(s, Save))
  {
    var i := s.live.value.index;
    var es := Apply(s, Save).entries;
    assert forall k :: 0 <= k < |es| && k != i ==> es[k] == s.entries[k];
    assert EntryOk(s.entries[i]);
    UnbrokenGrows(s.entries[i], s.entries[i].last, es[i]);
    assert EntryOk(es[i]);
  }

  lemma AbandonKeeps(s: State, a: Action)
    requires Inv(s) && Enabled(s, a) && a.Abandon?
    ensures Inv(Apply(s, a))
  {
    var es := Apply(s, a).entries;
    assert forall k :: 0 <= k < |es| && k != a.index ==> es[k] == s.entries[k];
    assert EntryOk(s.entries[a.index]);
    UnbrokenGrows(s.entries[a.index], a.expected, es[a.index]);
    assert EntryOk(es[a.index]);
  }

  lemma StepKeeps(s: State, a: Action)
    requires Inv(s) && Enabled(s, a)
    ensures Inv(Apply(s, a))
  {
    match a {
      case Reserve => ReserveKeeps(s);
      case Advance(to) => AdvanceKeeps(s, to);
      case Save => SaveKeeps(s);
      case Abandon(_, _, _) => AbandonKeeps(s, a);
      case _ => QuietKeeps(s, a);
    }
  }

  lemma {:induction false} RunKeeps(ss: seq<State>, acts: seq<Action>, i: nat)
    requires Run(ss, acts) && i <= |acts|
    ensures Inv(ss[i])
  {
    hide Inv, Enabled, Apply;
    if i == 0 {
      CreatedInv(ss[0]);
    } else {
      RunKeeps(ss, acts, i - 1);
      StepKeeps(ss[i - 1], acts[i - 1]);
    }
  }

  /** In every batch ever saved, at most one entry needs attention, and what comes after it has not begun or was given up. */
  lemma OneTroubledEntry(ss: seq<State>, acts: seq<Action>, i: nat, j: nat, k: nat)
    requires Run(ss, acts) && i <= |acts| && j < |ss[i].entries| && k < |ss[i].entries| && Troubled(ss[i].entries[j])
    ensures Troubled(ss[i].entries[k]) ==> k == j
    ensures j < k ==> Waiting(ss[i].entries[k])
    ensures k < j ==> ss[i].entries[k].status != Pending
  {
    RunKeeps(ss, acts, i);
  }

  /** Every saved entry passes the checks that loading makes, and its advances form one chain of snapshots from
      the reviewed one; all but perhaps the last are checkpointed. */
  lemma AdvancesUnbroken(ss: seq<State>, acts: seq<Action>, i: nat, j: nat)
    requires Run(ss, acts) && i <= |acts| && j < |ss[i].entries|
    ensures EntryOk(ss[i].entries[j])
  {
    RunKeeps(ss, acts, i);
  }

  lemma RunnerStays(s: State, a: Action, j: nat)
    requires Inv(s) && Enabled(s, a) && j < |s.entries|
    ensures var s' := Apply(s, a);
            && j < |s'.entries|
            && (s.entries[j].runner.Some? ==> s'.entries[j].runner == s.entries[j].runner)
            && (s'.entries[j].advances != s.entries[j].advances ==>
                  s.live.Some? && s.entries[j].runner == Some(s.live.value.call))
  {
    assert EntryOk(s.entries[j]);
  }

  /** An entry belongs to the first call of `run` that reserved it: no other call ever advances it. */
  lemma {:induction false} OneRunPerEntry(ss: seq<State>, acts: seq<Action>, i: nat, k: nat, j: nat)
    requires Run(ss, acts) && i <= k < |acts| && j < |ss[i].entries| && ss[i].entries[j].runner.Some?
    ensures j < |ss[k].entries| && j < |ss[k + 1].entries|
    ensures ss[k].entries[j].runner == ss[i].entries[j].runner
    ensures ss[k + 1].entries[j].advances != ss[k].entries[j].advances ==>
              ss[k].live.Some? && ss[i].entries[j].runner == Some(ss[k].live.value.call)
    decreases k - i
  {
    hide Inv, Enabled, Apply;
    if i < k {
      OneRunPerEntry(ss, acts, i, k - 1, j);
      RunKeeps(ss, acts, k - 1);
      RunnerStays(ss[k - 1], acts[k - 1], j);
    }
    RunKeeps(ss, acts, k);
    RunnerStays(ss[k], acts[k], j);
  }

  // ---- The runner ----

  /** The actions lead from one state to the other. */
  predicate Path(s: State, acts: seq<Action>, s': State)
    decreases |acts|
  {
    if acts == [] then s == s'
    else Enabled(s, acts[0]) && Path(Apply(s, acts[0]), acts[1..], s')
  }

  lemma {:induction false} PathThen(s: State, acts: seq<Action>, m: State, a: Action)
    requires Path(s, acts, m) && Enabled(m, a)
    ensures Path(s, acts + [a], Apply(m, a))
    decreases |acts|
  {
    hide Enabled, Apply;
    if acts == [] {
      assert (acts + [a])[1..] == [];
      assert Path(Apply(m, a), [], Apply(m, a));
    } else {
      PathThen(Apply(s, acts[0]), acts[1..], m, a);
      assert (acts + [a])[1..] == acts[1..] + [a];
    }
  }

  lemma {:induction false} PathJoins(s: State, a: seq<Action>, m: State, b: seq<Action>, e: State)
    requires Path(s, a, m) && Path(m, b, e)
    ensures Path(s, a + b, e)
    decreases |a|
  {
    hide Enabled, Apply;
    if a == [] {
      assert a + b == b;
    } else {
      PathJoins(Apply(s, a[0]), a[1..], m, b, e);
      assert (a + b)[1..] == a[1..] + b;
    }
  }

  /** What a call of `advance` does: it may move the task, be refused, or not come back after it has moved it. */
  datatype Reply = Moves(to: Snapshot) | Refused | Lost(to: Snapshot)

  // ---- How far a run has come with an entry ----

  /** The entry's `steps` saved advances were the first replies, of which only the last may have paused the task. */
  predicate Trail(e: Entry, e': Entry, replies: nat -> Reply) {
    && e'.task == e.task && e'.reviewed == e.reviewed && e'.steps <= STEP_CAP
    && (forall k :: 0 <= k < e'.steps ==> replies(k).Moves?)
    && (forall k :: 0 <= k < e'.steps - 1 ==> !Paused(replies(k).to.standing))
    && e'.last == if e'.steps == 0 then e.last else replies(e'.steps - 1).to
  }

  /** It stopped at a pause, and says which. */
  predicate PausedAt(e': Entry, replies: nat -> Reply)
    requires forall k :: 0 <= k < e'.steps ==> replies(k).Moves?
  {
    && e'.status == Stopped && e'.steps > 0
    && Paused(replies(e'.steps - 1).to.standing)
    && e'.result == Some(replies(e'.steps - 1).to.standing)
  }

  predicate Moving(e': Entry, replies: nat -> Reply)
    requires forall k :: 0 <= k < e'.steps ==> replies(k).Moves?
  {
    && e'.status == Running && e'.result == None
    && (e'.steps > 0 ==> !Paused(replies(e'.steps - 1).to.standing))
  }

  predicate Mismatched(e: Entry, tasks: map<nat, Snapshot>) {
    e.task !in tasks || tasks[e.task] != e.last
  }

  /** It was left running: refused, lost, never at its reviewed snapshot, or with its steps used up. */
  predicate LeftRunning(e': Entry, replies: nat -> Reply, tasks: map<nat, Snapshot>)
    requires forall k :: 0 <= k < e'.steps ==> replies(k).Moves?
  {
    && Moving(e', replies)
    && (e'.steps == STEP_CAP || replies(e'.steps).Refused? || replies(e'.steps).Lost? || (e'.steps == 0 && Mismatched(e', tasks)))
  }

  /** The run has dealt with the entry and goes on to the next. */
  predicate Passed(e: Entry, e': Entry, replies: nat -> Reply) {
    if e.status == Pending then Trail(e, e', replies) && PausedAt(e', replies) && !NeedsReview(e'.result.value)
    else e' == e && !Troubled(e)
  }

  /** The run ends at the entry, and this is why. */
  predicate EndsAt(e: Entry, e': Entry, replies: nat -> Reply, tasks: map<nat, Snapshot>) {
    && e.status == Pending && Trail(e, e', replies)
    && (LeftRunning(e', replies, tasks) || (PausedAt(e', replies) && NeedsReview(e'.result.value)))
  }

  /** Up to entry `m` the run passed everything; if it ended before the last, it was at `m`; behind it nothing changed. */
  predicate CameTo(es: seq<Entry>, es': seq<Entry>, m: nat, replies: nat -> nat -> Reply, tasks: map<nat, Snapshot>) {
    && |es'| == |es| && m <= |es|
    && (forall i :: 0 <= i < m ==> Passed(es[i], es'[i], replies(i)))
    && (m < |es| ==> EndsAt(es[m], es'[m], replies(m), tasks))
    && (forall i :: m < i < |es| ==> es'[i] == es[i])
  }

  /** A run moves the tasks of the entries it deals with, and no other: not that of an entry it ended at before the
      first advance came back. */
  predicate TasksKept(es: seq<Entry>, es': seq<Entry>, m: nat, replies: nat -> nat -> Reply, tasks: map<nat, Snapshot>, tasks': map<nat, Snapshot>)
    requires |es'| == |es|
  {
    && tasks'.Keys == tasks.Keys
    && forall t :: t in tasks && (forall i :: 0 <= i <= m && i < |es| && es[i].status == Pending && es[i].task == t ==>
                                    i == m && es'[m].steps == 0 && !replies(m)(0).Lost?)
         ==> tasks'[t] == tasks[t]
  }

  /** Every reply moves its task to a pause that needs no review, and every waiting task is at its reviewed snapshot. */
  predicate Smooth(es: seq<Entry>, tasks: map<nat, Snapshot>, replies: nat -> nat -> Reply) {
    && (forall i :: 0 <= i < |es| && es[i].status == Pending ==>
          && replies(i)(0).Moves? && Paused(replies(i)(0).to.standing) && !NeedsReview(replies(i)(0).to.standing)
          && !Mismatched(es[i], tasks))
    && (forall i, j :: 0 <= i < j < |es| && es[i].status == Pending && es[j].status == Pending ==> es[i].task != es[j].task)
  }

  /** Then the run passes every entry, each with the one advance of its reply. */
  lemma SmoothPassesAll(es: seq<Entry>, tasks: map<nat, Snapshot>, replies: nat -> nat -> Reply, es': seq<Entry>, m: nat, tasks': map<nat, Snapshot>)
    requires Smooth(es, tasks, replies) && CameTo(es, es', m, replies, tasks')
    requires TasksKept(es, es', m, replies, tasks, tasks')
    ensures m == |es|
    ensures forall i :: 0 <= i < |es| && es[i].status == Pending ==>
              es'[i].status == Stopped && es'[i].steps == 1 && es'[i].last == replies(i)(0).to && es'[i].result == Some(replies(i)(0).to.standing)
    ensures forall i :: 0 <= i < |es| ==> es'[i].status != Pending
  {
    if m < |es| { SmoothDoesNotEnd(es[m], es'[m], replies(m), tasks'); }
    forall i | 0 <= i < |es| && i < m && es[i].status == Pending
      ensures es'[i].status == Stopped && es'[i].steps == 1 && es'[i].last == replies(i)(0).to && es'[i].result == Some(replies(i)(0).to.standing)
    {
      OneStep(es[i], es'[i], replies(i));
    }
    forall i | 0 <= i < m && i < |es| ensures es'[i].status != Pending { assert Passed(es[i], es'[i], replies(i)); }
  }

  lemma OneStep(e: Entry, e': Entry, replies: nat -> Reply)
    requires Trail(e, e', replies) && replies(0).Moves? && Paused(replies(0).to.standing)
    ensures e'.steps <= 1
  {
  }

  /** An entry at its snapshot whose reply pauses its task without need of review does not end the run. */
  lemma SmoothDoesNotEnd(e: Entry, e': Entry, replies: nat -> Reply, tasks: map<nat, Snapshot>)
    requires replies(0).Moves? && Paused(replies(0).to.standing) && !NeedsReview(replies(0).to.standing)
    requires e'.steps == 0 ==> !Mismatched(e, tasks)
    ensures !EndsAt(e, e', replies, tasks)
  {
    if Trail(e, e', replies) { OneStep(e, e', replies); }
  }

  /** The work on an entry that was reserved, taken for the entry as it waited. */
  lemma WorkedIs(e: Entry, r: Entry, e': Entry, replies: nat -> Reply, tasks: map<nat, Snapshot>, alive: bool)
    requires e.status == Pending && r == e.(status := Running, runner := r.runner) && Trail(r, e', replies)
    requires if alive then PausedAt(e', replies) || (Moving(e', replies) && e'.steps == STEP_CAP) else LeftRunning(e', replies, tasks)
    ensures if alive && !Troubled(e') then Passed(e, e', replies) else EndsAt(e, e', replies, tasks)
  {
  }

  lemma SameLength(es: seq<Entry>, es': seq<Entry>, m: nat, replies: nat -> nat -> Reply, tasks: map<nat, Snapshot>)
    requires CameTo(es, es', m, replies, tasks)
    ensures |es'| == |es|
  {
  }

  lemma CanEnd(s: State)
    requires s.live.Some?
    ensures Enabled(s, End) && Apply(s, End) == s.(live := None)
  {
  }

  lemma CanFinish(s: State, e: Entry, replies: nat -> Reply)
    requires AtEntry(s) && e.status == Pending && Passed(e, Here(s), replies)
    ensures Enabled(s, Finish) && Apply(s, Finish) == s.(live := Some(s.live.value.(index := s.live.value.index + 1)))
  {
  }

  /** The tasks of waiting entries before `n` are all that moved. */
  predicate TasksPassed(es: seq<Entry>, n: nat, tasks: map<nat, Snapshot>, tasks': map<nat, Snapshot>) {
    && tasks'.Keys == tasks.Keys
    && forall t :: t in tasks && (forall i :: 0 <= i < n && i < |es| && es[i].status == Pending ==> es[i].task != t) ==> tasks'[t] == tasks[t]
  }

  /** One more entry: what its visit says of the tasks, put behind what the earlier ones said. */
  lemma TasksVisited(es: seq<Entry>, es': seq<Entry>, n: nat, replies: nat -> nat -> Reply, a: map<nat, Snapshot>, b: map<nat, Snapshot>, c: map<nat, Snapshot>)
    requires n < |es| && |es'| == |es| && TasksPassed(es, n, a, b) && c.Keys == b.Keys
    requires forall t :: t in c && (t == es[n].task && es[n].status == Pending ==> es'[n].steps == 0 && !replies(n)(0).Lost?) ==> c[t] == b[t]
    ensures TasksPassed(es, n + 1, a, c) && TasksKept(es, es', n, replies, a, c)
  {
    forall t | t in a && (forall i :: 0 <= i <= n && i < |es| && es[i].status == Pending && es[i].task == t ==>
                            i == n && es'[n].steps == 0 && !replies(n)(0).Lost?)
      ensures c[t] == a[t]
    {
      assert b[t] == a[t];
    }
  }

  lemma AllVisited(es: seq<Entry>, es': seq<Entry>, replies: nat -> nat -> Reply, a: map<nat, Snapshot>, b: map<nat, Snapshot>)
    requires |es'| == |es| && TasksPassed(es, |es|, a, b)
    ensures TasksKept(es, es', |es|, replies, a, b)
  {
    forall t | t in a && (forall i :: 0 <= i <= |es| && i < |es| && es[i].status == Pending && es[i].task == t ==> i == |es|)
      ensures b[t] == a[t]
    {
      assert forall i :: 0 <= i < |es| && es[i].status == Pending ==> es[i].task != t;
    }
  }

  class Host {
    var revision: nat
    var entries: seq<Entry>
    var tasks: map<nat, Snapshot>
    var live: Option<Live>
    var calls: nat

    function Now(): State
      reads this
    {
      State(revision, entries, tasks, live, calls)
    }

    constructor (reviewed: seq<(nat, Snapshot)>, tasks: map<nat, Snapshot>)
      ensures Created(Now()) && |entries| == |reviewed|
      ensures forall i :: 0 <= i < |reviewed| ==> entries[i].task == reviewed[i].0 && entries[i].reviewed == reviewed[i].1
    {
      this.revision, this.tasks, this.live, this.calls := 0, tasks, None, 0;
      this.entries := seq(|reviewed|, i requires 0 <= i < |reviewed| =>
                        Entry(reviewed[i].0, reviewed[i].1, Pending, reviewed[i].1, None, 0, None, []));
    }

    /** One advance, against the last checkpoint, and the checkpoint of where it led. */
    method Once(reply: Reply) returns (ghost acts: seq<Action>)
      requires Executing(Now()) && Here(Now()).steps < STEP_CAP
      modifies this
      ensures |entries| == |old(entries)| && forall k :: 0 <= k < |entries| && k != old(live).value.index ==> entries[k] == old(entries[k])
      ensures Path(old(Now()), acts, Now())
      ensures live.Some? ==> live == old(live) && AtEntry(Now()) && entries[live.value.index].status in {Running, Stopped}
                             && entries[live.value.index].steps == old(Here(Now()).steps) + 1
      ensures var i, e := old(live).value.index, old(Here(Now()));
              var answers := !old(Mismatched(Here(Now()), tasks)) && !reply.Refused?;
              && (live.Some? <==> answers && reply.Moves?)
              && entries[i].steps == (if live.Some? then e.steps + 1 else e.steps)
              && entries[i].last == (if live.Some? then reply.to else e.last)
              && entries[i].status == (if live.Some? && Paused(reply.to.standing) then Stopped else e.status)
              && entries[i].result == (if live.Some? && Paused(reply.to.standing) then Some(reply.to.standing) else e.result)
              && entries[i].task == e.task && entries[i].reviewed == e.reviewed
              && tasks == if answers then old(tasks)[e.task := reply.to] else old(tasks)
    {
      var i := live.value.index;
      var e := entries[i];
      ghost var start := Now();
      if e.task !in tasks || tasks[e.task] != e.last || reply.Refused? {
        PathThen(start, [], start, End);
        acts := [End];
        live := None;
        return;
      }
      PathThen(start, [], start, Action.Advance(reply.to));
      acts := [Action.Advance(reply.to)];
      entries := entries[i := e.(advances := e.advances + [(tasks[e.task], reply.to)])];
      tasks := tasks[e.task := reply.to];
      live := Some(live.value.(unsaved := Some(reply.to)));
      if reply.Lost? {
        PathThen(start, acts, Now(), End);
        acts := acts + [End];
        live := None;
        return;
      }
      PathThen(start, acts, Now(), Save);
      acts := acts + [Save];
      entries := entries[i := Saved(entries[i], reply.to)];
      revision, live := revision + 1, Some(live.value.(unsaved := None));
    }

    /** One reserved entry, until it pauses, is refused or has used its steps. */
    method Work(replies: nat -> Reply) returns (ghost acts: seq<Action>)
      requires Executing(Now()) && Here(Now()).steps == 0 && Here(Now()).result == None
      modifies this
      ensures |entries| == |old(entries)| && forall k :: 0 <= k < |entries| && k != old(live).value.index ==> entries[k] == old(entries[k])
      ensures Path(old(Now()), acts, Now())
      ensures var i, e := old(live).value.index, old(Here(Now()));
              && i < |entries| && Trail(e, entries[i], replies)
              && (if live.Some? then PausedAt(entries[i], replies) || (Moving(entries[i], replies) && entries[i].steps == STEP_CAP)
                  else LeftRunning(entries[i], replies, tasks))
              && tasks.Keys == old(tasks).Keys
              && (forall t :: t in tasks && (t == e.task ==> entries[i].steps == 0 && !replies(0).Lost?) ==> tasks[t] == old(tasks)[t])
      ensures live.Some? ==> live == old(live) && AtEntry(Now()) && entries[live.value.index].status in {Running, Stopped}
    {
      acts := [];
      ghost var start := Now();
      var i := live.value.index;
      var n := 0;
      while n < STEP_CAP && live.Some? && entries[i].status == Running
        invariant i == old(live).value.index < |entries| && |entries| == |old(entries)|
        invariant Trail(old(Here(Now())), entries[i], replies)
        invariant live.Some? ==> live.value.unsaved == None && (PausedAt(entries[i], replies) || Moving(entries[i], replies))
        invariant live.Some? && n > 0 ==> !Mismatched(entries[i], tasks)
        invariant live.None? ==> LeftRunning(entries[i], replies, tasks)
        invariant tasks.Keys == old(tasks).Keys
        invariant forall t :: t in tasks && (t == old(Here(Now())).task ==> entries[i].steps == 0 && !replies(0).Lost?) ==> tasks[t] == old(tasks)[t]
        invariant live.Some? ==> live == old(live) && entries[i].status in {Running, Stopped} && entries[i].steps == n
        invariant Path(start, acts, Now())
        invariant forall k :: 0 <= k < |entries| && k != i ==> entries[k] == old(entries[k])
        decreases STEP_CAP - n
      {
        hide Path;
        ghost var before := Now();
        ghost var once := Once(replies(n));
        PathJoins(start, acts, before, once, Now());
        acts := acts + once;
        n := n + 1;
      }
    }

    /** The entry the runner has come to: passed over, or reserved durably before the first advance. */
    method Visit(replies: nat -> Reply) returns (ghost acts: seq<Action>)
      requires AtEntry(Now()) && live.value.unsaved == None && !Troubled(Here(Now()))
      requires Here(Now()).status == Pending ==> Here(Now()).steps == 0 && Here(Now()).result == None
      modifies this
      ensures |entries| == |old(entries)| && forall k :: 0 <= k < |entries| && k != old(live).value.index ==> entries[k] == old(entries[k])
      ensures var i, e := old(live).value.index, old(Here(Now()));
              && (if live.Some? then Passed(e, entries[i], replies) else EndsAt(e, entries[i], replies, tasks))
              && tasks.Keys == old(tasks).Keys
              && (forall t :: t in tasks && (t == e.task && e.status == Pending ==> entries[i].steps == 0 && !replies(0).Lost?) ==> tasks[t] == old(tasks)[t])
      ensures Path(old(Now()), acts, Now())
      ensures live.Some? ==> live.value.unsaved == None && live.value.index == old(live).value.index + 1
    {
      var i := live.value.index;
      ghost var start := Now();
      if entries[i].status == Pending {
        acts := [Reserve];
        entries := entries[i := entries[i].(status := Running, runner := Some(live.value.call))];
        revision := revision + 1;
        ghost var reserved := Now();
        assert Path(start, [Reserve], reserved) by { PathThen(start, [], start, Reserve); }
        hide Path, Enabled, Apply, Trail, PausedAt, Moving, LeftRunning, EndsAt, Passed, Troubled;
        ghost var worked := Work(replies);
        PathJoins(start, acts, reserved, worked, Now());
        acts := acts + worked;
        WorkedIs(start.entries[i], reserved.entries[i], entries[i], replies, tasks, live.Some?);
        if live == None { return; }
        ghost var last := Now();
        if Troubled(entries[i]) {
          PathThen(start, acts, last, End) by { CanEnd(last); }
          acts := acts + [End];
          live := None;
          assert Now() == Apply(last, End) by { CanEnd(last); }
          return;
        }
        PathThen(start, acts, last, Finish) by { CanFinish(last, start.entries[i], replies); }
        acts := acts + [Finish];
        live := Some(live.value.(index := i + 1));
        assert Now() == Apply(last, Finish) by { CanFinish(last, start.entries[i], replies); }
        return;
      } else {
        PathThen(start, [], start, Skip);
        acts := [Skip];
      }
      live := Some(live.value.(index := i + 1));
    }

    /** Every entry in turn, until one ends the run. */
    method VisitAll(replies: nat -> nat -> Reply) returns (ghost acts: seq<Action>, ghost at: nat)
      requires live.Some? && live.value.index == 0 && live.value.unsaved == None
      requires forall i :: 0 <= i < |entries| ==> !Troubled(entries[i]) && (entries[i].status == Pending ==> LoadOk(entries[i]))
      modifies this
      ensures live == None && Path(old(Now()), acts, Now())
      ensures CameTo(old(entries), entries, at, replies, tasks)
      ensures TasksKept(old(entries), entries, at, replies, old(tasks), tasks)
    {
      acts, at := [], 0;
      ghost var start := Now();
      assert TasksPassed(start.entries, 0, start.tasks, tasks);
      while live.Some? && live.value.index < |entries|
        invariant live.Some? ==> live.value.index <= |entries| && live.value.unsaved == None
        invariant Path(start, acts, Now()) && |entries| == |start.entries|
        invariant live.Some? ==> forall k :: live.value.index <= k < |entries| ==> entries[k] == start.entries[k]
        invariant live.Some? ==> at == live.value.index && forall k :: 0 <= k < at ==> Passed(start.entries[k], entries[k], replies(k))
        invariant live.None? ==> at < |entries| && CameTo(start.entries, entries, at, replies, tasks)
        invariant live.Some? ==> TasksPassed(start.entries, at, start.tasks, tasks)
        invariant live.None? ==> TasksKept(start.entries, entries, at, replies, start.tasks, tasks)
        decreases if live.Some? then |entries| - live.value.index else -1
      {
        hide Path, Enabled, Apply, Passed, EndsAt, TasksPassed, TasksKept;
        ghost var before := Now();
        at := live.value.index;
        ghost var visit := Visit(replies(live.value.index));
        PathJoins(start, acts, before, visit, Now());
        acts := acts + visit;
        TasksVisited(start.entries, entries, at, replies, start.tasks, before.tasks, tasks);
        if live.Some? { at := live.value.index; }
      }
      hide Passed, EndsAt, TasksPassed, TasksKept;
      if live.Some? {
        AllVisited(start.entries, entries, replies, start.tasks, tasks);
        PathThen(start, acts, Now(), End);
        acts := acts + [End];
        live := None;
      }
    }

    /** `run`: refused while another call runs or anything needs review, and unless the batch is `current`: within its
        review window, and bound to this source, store and runtime. Otherwise every waiting entry in turn, until trouble. */
    method Run(expected: nat, current: bool, replies: nat -> nat -> Reply) returns (ok: bool, ghost acts: seq<Action>, ghost at: nat)
      requires forall i :: 0 <= i < |entries| && entries[i].status == Pending ==> LoadOk(entries[i])
      modifies this
      ensures ok == (current && old(Enabled(Now(), Begin(expected))))
      ensures !ok ==> Now() == old(Now())
      ensures ok ==> live == None && Path(old(Now()), acts, Now())
      ensures ok ==> CameTo(old(entries), entries, at, replies, tasks)
                     && TasksKept(old(entries), entries, at, replies, old(tasks), tasks)
      ensures ok && old(Smooth(entries, tasks, replies)) ==>
                |entries| == |old(entries)| && forall i :: 0 <= i < |entries| ==>
                  && entries[i].status != Pending
                  && (old(entries)[i].status == Pending ==>
                        entries[i].status == Stopped && entries[i].steps == 1 && entries[i].last == replies(i)(0).to
                        && entries[i].result == Some(replies(i)(0).to.standing))
    {
      acts, at := [], 0;
      ok := live == None && current && revision == expected && !exists i | 0 <= i < |entries| :: Troubled(entries[i]);
      if !ok { return; }
      ghost var start := Now();
      PathThen(start, acts, Now(), Begin(expected));
      acts := acts + [Begin(expected)];
      live, calls := Some(Live(calls, 0, None)), calls + 1;
      ghost var begun := Now();
      assert Path(start, acts, begun);
      hide Path, Enabled, Apply, CameTo, TasksKept, Smooth, LoadOk, Troubled;
      ghost var visits;
      visits, at := VisitAll(replies);
      PathJoins(start, acts, begun, visits, Now());
      acts := acts + visits;
      if Smooth(start.entries, start.tasks, replies) {
        SmoothPassesAll(start.entries, start.tasks, replies, entries, at, tasks);
      }
      assert |entries| == |start.entries| by { SameLength(start.entries, entries, at, replies, tasks); }
    }

    /** Giving up an entry that is waiting or in trouble, against the snapshot just looked at; `idle` says that no
        task of the store is being advanced, and that this one names no active operation, invocation or container. */
    method Abandon(index: nat, expected: nat, snapshot: Snapshot, idle: bool) returns (ok: bool)
      modifies this
      ensures ok == old(idle && Enabled(Now(), Action.Abandon(index, expected, snapshot)))
      ensures Now() == if ok then Apply(old(Now()), Action.Abandon(index, expected, snapshot)) else old(Now())
      ensures ok ==>
                && index < |old(entries)| && |entries| == |old(entries)| && live == None && tasks == old(tasks)
                && entries[index].status == Status.Abandoned && entries[index].result == None && entries[index].last == snapshot
                && entries[index].task in tasks && tasks[entries[index].task] == snapshot
                && old(entries)[index].status != Status.Abandoned
                && forall k :: 0 <= k < |entries| && k != index ==> entries[k] == old(entries)[k]
    {
      if live.Some? || revision != expected || index >= |entries| { return false; }
      var e := entries[index];
      if e.status != Pending && !Troubled(e) { return false; }
      if e.task !in tasks || tasks[e.task] != snapshot || !idle { return false; }
      entries := entries[index := e.(status := Status.Abandoned, result := None, last := snapshot)];
      revision := revision + 1;
      ok := true;
    }
  }

  lemma {:induction false} PathKeeps(s: State, acts: seq<Action>, s': State)
    requires Inv(s) && Path(s, acts, s')
    ensures Inv(s')
    decreases |acts|
  {
    hide Inv, Enabled, Apply;
    if acts != [] {
      StepKeeps(s, acts[0]);
      PathKeeps(Apply(s, acts[0]), acts[1..], s');
    }
  }
}
