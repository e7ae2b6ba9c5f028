/** Staging as it reads: one predecessor file after another, while only its own file is locked against writers. */
module JournalReads {
  import opened Basics
  import opened Journals
  import opened JournalSteps
  import opened JournalRuns

  /** A staging under way in the journal whose write lock it holds: the journals it has walked, newest first, the
      predecessor that the last of them names, and how many it has found free of the operation and the task. */
  datatype Staging = Staging(op: OperationId, task: TaskId, sha: Digest, bytes: nat, walked: seq<Path>, link: Option<Path>, checked: nat)

  datatype Host = Host(world: World, stagings: map<Path, Staging>)

  datatype Step =
    | Whole(action: Action)
    | BeginStage(p: Path, op: OperationId, task: TaskId, sha: Digest, bytes: nat)
    | ReadLink(p: Path)
    | ReadRows(p: Path)
    | CommitStage(p: Path)
    | GiveUp(p: Path)

  /** The file whose write lock a transaction takes. */
  function Locks(a: Action): Option<Path> {
    match a
    case Reserve(p, _, _, _) => Some(p)
    case Withdraw(p, _, _) => Some(p)
    case Upgrade(p) => Some(p)
    case LinkHeir(_, heir) => Some(heir)
    case CloseRetired(p, _) => Some(p)
    case _ => None
  }

  predicate AllChecked(st: Staging) {
    st.link == None && st.checked == |st.walked|
  }

  ghost predicate Can(h: Host, s: Step) {
    var d := h.world.disk;
    match s
    case Whole(a) =>
      && Enabled(h.world, a)
      && !a.Stage?
      && (Locks(a).Some? ==> Locks(a).value !in h.stagings)
    case BeginStage(p, op, task, sha, bytes) =>
      && p in d && p !in h.stagings
      && bytes <= ScopeLimit(h.world.family)
      && !Taken(d[p], op, task)
      && d[p].retired == None
    case ReadLink(p) =>
      && p in h.stagings
      && var st := h.stagings[p];
         && st.walked != []
         && st.link.Some?
         && st.link.value !in st.walked
         && |st.walked| <= CHAIN_LIMIT
         && st.link.value in d
         && d[st.link.value].retired == Some(Last(st.walked))
    case ReadRows(p) =>
      && p in h.stagings
      && var st := h.stagings[p];
         && st.link == None
         && st.checked < |st.walked|
         && st.walked[st.checked] in d
         && !Taken(d[st.walked[st.checked]], st.op, st.task)
    case CommitStage(p) =>
      && p in h.stagings && p in d
      && AllChecked(h.stagings[p])
      && HasRoom(d[p], h.stagings[p].bytes)
    case GiveUp(p) => p in h.stagings
  }

  ghost function Do(h: Host, s: Step): Host
    requires Can(h, s)
  {
    var d := h.world.disk;
    match s
    case Whole(a) => h.(world := Apply(h.world, a))
    case BeginStage(p, op, task, sha, bytes) =>
      h.(stagings := h.stagings[p := Staging(op, task, sha, bytes, [p], d[p].follows, 1)])
    case ReadLink(p) =>
      var st := h.stagings[p];
      h.(stagings := h.stagings[p := st.(walked := st.walked + [st.link.value], link := d[st.link.value].follows)])
    case ReadRows(p) => h.(stagings := h.stagings[p := h.stagings[p].(checked := h.stagings[p].checked + 1)])
    case CommitStage(p) =>
      var st := h.stagings[p];
      Host(h.world.(disk := d[p := StagedIn(d[p], st.op, st.task, st.sha, st.bytes)]), h.stagings - {p})
    case GiveUp(p) => h.(stagings := h.stagings - {p})
  }

  ghost predicate Runs(hs: seq<Host>, steps: seq<Step>) {
    && |hs| == |steps| + 1
    && hs[0].world.disk == map[] && hs[0].world.calls == {} && hs[0].stagings == map[]
    && forall i :: 0 <= i < |steps| ==> Can(hs[i], steps[i]) && hs[i + 1] == Do(hs[i], steps[i])
  }

  /** The test that the heir's recheck omits: an heir that is claimed has not itself been retired. */
  ghost predicate FreshHeir(h: Host, s: Step) {
    s.Whole? && s.action.LinkHeir? && s.action.heir in h.world.disk ==> h.world.disk[s.action.heir].retired == None
  }

  ghost predicate FreshHeirs(hs: seq<Host>, steps: seq<Step>)
    requires |hs| == |steps| + 1
  {
    forall i :: 0 <= i < |steps| ==> FreshHeir(hs[i], steps[i])
  }

  // ---- A staging's reads stay true until it commits ----

  /** What was read of the walk: each journal is named by the one behind it, in both files. */
  ghost predicate WalkOk(d: Disk, p: Path, walked: seq<Path>) {
    && walked != [] && walked[0] == p && |walked| <= CHAIN_LIMIT + 1
    && (forall i :: 0 <= i < |walked| ==> walked[i] in d)
    && (forall i :: 1 <= i < |walked| ==> d[walked[i]].retired == Some(walked[i - 1]))
    && (forall i :: 0 <= i < |walked| - 1 ==> d[walked[i]].follows == Some(walked[i + 1]))
  }

  ghost predicate RowsFree(d: Disk, st: Staging) {
    forall i :: 1 <= i < st.checked && i < |st.walked| && st.walked[i] in d ==> !Taken(d[st.walked[i]], st.op, st.task)
  }

  ghost predicate StagingOk(w: World, p: Path, st: Staging) {
    && WalkOk(w.disk, p, st.walked)
    && w.disk[p].retired == None
    && !Taken(w.disk[p], st.op, st.task)
    && st.bytes <= ScopeLimit(w.family)
    && st.link == w.disk[Last(st.walked)].follows
    && 1 <= st.checked <= |st.walked|
    && (st.checked > 1 ==> st.link == None)
    && RowsFree(w.disk, st)
  }

  ghost predicate StagingsOk(h: Host) {
    forall p :: p in h.stagings ==> StagingOk(h.world, p, h.stagings[p])
  }

  lemma {:induction false} LinksMakeChain(d: Disk, walked: seq<Path>)
    requires walked != [] && (forall i :: 0 <= i < |walked| ==> walked[i] in d)
    requires forall i :: 1 <= i < |walked| ==> d[walked[i]].retired == Some(walked[i - 1])
    requires forall i :: 0 <= i < |walked| - 1 ==> d[walked[i]].follows == Some(walked[i + 1])
    requires d[Last(walked)].follows == None
    ensures IsChain(d, walked)
    decreases |walked|
  {
    if |walked| > 1 {
      var rest := walked[1..];
      assert forall i :: 0 <= i < |rest| ==> rest[i] == walked[i + 1];
      LinksMakeChain(d, rest);
      assert Linked(d, walked[0], walked[1]);
    }
  }

  /** So what commits is exactly a staging that would be admitted if everything were read at that instant. */
  lemma CommitIsAdmitted(h: Host, p: Path)
    requires StagingsOk(h) && Can(h, CommitStage(p))
    ensures var st := h.stagings[p];
            && Enabled(h.world, Stage(p, st.op, st.task, st.sha, st.bytes))
            && !Restaged(h.world.disk[p], st.op, st.task, st.sha)
            && Admits(h.world.disk, p, st.op, st.task)
  {
    var st, d := h.stagings[p], h.world.disk;
    assert StagingOk(h.world, p, st);
    LinksMakeChain(d, st.walked);
    assert Walks(d, p, st.walked);
    forall q | q in st.walked[1..] && q in d ensures !Taken(d[q], st.op, st.task) {
      var i :| 0 <= i < |st.walked[1..]| && st.walked[1..][i] == q;
      assert st.walked[i + 1] == q;
    }
    assert NoneTaken(d, st.walked[1..], st.op, st.task);
  }

  /** What one file keeps while another's staging relies on it: answered links, and rows that only settle. */
  ghost predicate Keeps(d: Disk, d': Disk, q: Path) {
    q in d ==>
      && q in d'
      && (d[q].follows.Some? ==> d'[q].follows == d[q].follows)
      && (d[q].retired.Some? ==> d'[q].retired == d[q].retired && d'[q].follows == d[q].follows)
      && (d[q].retired.Some? ==> forall op, task :: Taken(d'[q], op, task) ==> Taken(d[q], op, task))
  }

  lemma SettledKeeps(j: Journal, j': Journal)
    requires RowsSettle(j, j')
    ensures forall op, task :: Taken(j', op, task) ==> Taken(j, op, task)
  {
  }

  lemma WholeKeeps(h: Host, a: Action, q: Path)
    requires Can(h, Whole(a)) && FreshHeir(h, Whole(a))
    ensures Keeps(h.world.disk, Apply(h.world, a).disk, q)
  {
    if q in h.world.disk && a.Reserve? && q == a.p {
      SettledKeeps(h.world.disk[q], Apply(h.world, a).disk[q]);
    }
    if q in h.world.disk && a.Withdraw? && q == a.p {
      SettledKeeps(h.world.disk[q], Apply(h.world, a).disk[q]);
    }
  }

  /** A staging's own file is locked: only what takes no lock, or another's, happens beside it. */
  lemma LockedKept(h: Host, a: Action, p: Path)
    requires Can(h, Whole(a)) && p in h.stagings && p in h.world.disk
    ensures p in Apply(h.world, a).disk && Apply(h.world, a).disk[p] == h.world.disk[p]
    ensures Apply(h.world, a).family == h.world.family
  {
  }

  lemma StagingKept(w: World, w': World, p: Path, st: Staging)
    requires StagingOk(w, p, st) && w'.family == w.family
    requires p in w'.disk && w'.disk[p] == w.disk[p]
    requires forall q :: Keeps(w.disk, w'.disk, q)
    ensures StagingOk(w', p, st)
  {
    hide Taken;
    var d, d' := w.disk, w'.disk;
    forall i | 1 <= i < |st.walked|
      ensures st.walked[i] in d' && d'[st.walked[i]].retired == Some(st.walked[i - 1]) && d'[st.walked[i]].follows == d[st.walked[i]].follows
    {
      assert Keeps(d, d', st.walked[i]);
    }
    assert st.walked[0] == p;
    forall i | 0 <= i < |st.walked| - 1 ensures d'[st.walked[i]].follows == Some(st.walked[i + 1]) {
      assert i == 0 || 1 <= i;
    }
    forall i | 1 <= i < st.checked ensures !Taken(d'[st.walked[i]], st.op, st.task) {
      assert d[st.walked[i]].retired == Some(st.walked[i - 1]);
      assert Keeps(d, d', st.walked[i]);
      assert !Taken(d[st.walked[i]], st.op, st.task);
    }
    assert |st.walked| > 1 ==> Last(st.walked) == st.walked[|st.walked| - 1];
  }

  lemma WholeStagings(h: Host, a: Action)
    requires StagingsOk(h) && Can(h, Whole(a)) && FreshHeir(h, Whole(a))
    ensures StagingsOk(Do(h, Whole(a)))
  {
    var w' := Apply(h.world, a);
    forall q ensures Keeps(h.world.disk, w'.disk, q) { WholeKeeps(h, a, q); }
    forall p | p in h.stagings ensures StagingOk(w', p, h.stagings[p]) {
      assert StagingOk(h.world, p, h.stagings[p]);
      LockedKept(h, a, p);
      hide Enabled, Apply, StagingOk, Keeps;
      StagingKept(h.world, w', p, h.stagings[p]);
    }
  }

  lemma CommitStagings(h: Host, p: Path)
    requires StagingsOk(h) && Can(h, CommitStage(p))
    ensures StagingsOk(Do(h, CommitStage(p)))
  {
    var h' := Do(h, CommitStage(p));
    assert StagingOk(h.world, p, h.stagings[p]);
    forall q ensures Keeps(h.world.disk, h'.world.disk, q) { }
    forall q | q in h'.stagings ensures StagingOk(h'.world, q, h'.stagings[q]) {
      assert StagingOk(h.world, q, h.stagings[q]);
      hide StagingOk, Keeps;
      StagingKept(h.world, h'.world, q, h.stagings[q]);
    }
  }

  lemma ReadStagings(h: Host, s: Step)
    requires StagingsOk(h) && Can(h, s) && (s.BeginStage? || s.ReadLink? || s.ReadRows? || s.GiveUp?)
    ensures StagingsOk(Do(h, s))
  {
    var h' := Do(h, s);
    forall p | p in h'.stagings ensures StagingOk(h'.world, p, h'.stagings[p]) {
      if p in h.stagings { assert StagingOk(h.world, p, h.stagings[p]); }
      if p == s.p && s.ReadLink? { LinkRead(h, p); }
    }
  }

  lemma LinkRead(h: Host, p: Path)
    requires Can(h, ReadLink(p)) && StagingOk(h.world, p, h.stagings[p])
    ensures StagingOk(h.world, p, Do(h, ReadLink(p)).stagings[p])
  {
    hide Taken;
  }

  // ---- Every such run is a run of whole transactions ----

  /** What a step is when a staging is taken to happen where it commits. */
  ghost function Seen(h: Host, s: Step): Action
    requires Can(h, s)
  {
    match s
    case Whole(a) => a
    case CommitStage(p) =>
      var st := h.stagings[p];
      Stage(p, st.op, st.task, st.sha, st.bytes)
    case _ => Look
  }

  lemma StepRefines(h: Host, s: Step)
    requires StagingsOk(h) && Can(h, s) && FreshHeir(h, s)
    ensures StagingsOk(Do(h, s))
    ensures Next(h.world, Seen(h, s), Do(h, s).world) && ClearHeir(h.world, Seen(h, s))
  {
    hide StagingsOk, StagingOk;
    match s {
      case Whole(a) =>
        WholeStagings(h, a);
        if a.LinkHeir? { UnretiredHeirIsClear(h.world.disk, a.heir); }
      case CommitStage(p) =>
        CommitStagings(h, p);
        CommitIsAdmitted(h, p);
      case _ => ReadStagings(h, s);
    }
  }

  lemma {:induction false} RunKeepsStagings(hs: seq<Host>, steps: seq<Step>, i: nat)
    requires Runs(hs, steps) && FreshHeirs(hs, steps) && i <= |steps|
    ensures StagingsOk(hs[i])
  {
    hide Can, Do, StagingsOk;
    if i == 0 {
      NoStagings(hs[0]);
    } else {
      RunKeepsStagings(hs, steps, i - 1);
      StepRefines(hs[i - 1], steps[i - 1]);
    }
  }

  lemma NoStagings(h: Host)
    requires h.stagings == map[]
    ensures StagingsOk(h)
  {
  }

  ghost function Worlds(hs: seq<Host>): seq<World> {
    seq(|hs|, i requires 0 <= i < |hs| => hs[i].world)
  }

  ghost function Actions(hs: seq<Host>, steps: seq<Step>): seq<Action>
    requires Runs(hs, steps)
  {
    seq(|steps|, i requires 0 <= i < |steps| => Seen(hs[i], steps[i]))
  }

  /** Refinement: whatever is read between, the journals change as if each staging were one instant. */
  lemma RunRefines(hs: seq<Host>, steps: seq<Step>)
    requires Runs(hs, steps) && FreshHeirs(hs, steps)
    ensures Run(Worlds(hs), Actions(hs, steps)) && ClearHeirs(Worlds(hs), Actions(hs, steps))
  {
    var ws, acts := Worlds(hs), Actions(hs, steps);
    forall i | 0 <= i < |acts| ensures Next(ws[i], acts[i], ws[i + 1]) && ClearHeir(ws[i], acts[i]) {
      RunKeepsStagings(hs, steps, i);
      hide StagingsOk;
      StepRefines(hs[i], steps[i]);
    }
  }

  // ---- So the chain-wide results hold of the runs as they are read ----

  /** Over every run whose heirs are fresh, an identifier lives in one journal of a chain, and a task has one live
      operation in it. */
  lemma ReadGuarantee(hs: seq<Host>, steps: seq<Step>, i: nat, root: Path, p: Path, x: OperationId, q: Path, y: OperationId)
    requires Runs(hs, steps) && FreshHeirs(hs, steps) && i <= |steps|
    requires HeldBy(hs[i].world.disk, root, p, x) && HeldBy(hs[i].world.disk, root, q, y)
    ensures x == y ==> p == q
    ensures var d := hs[i].world.disk;
            Live(d[p].intents[x]) && Live(d[q].intents[y]) && d[p].intents[x].task == d[q].intents[y].task ==> p == q && x == y
  {
    RunRefines(hs, steps);
    ChainGuarantee(Worlds(hs), Actions(hs, steps), i, root, p, x, q, y);
  }

  /** And for all time a task consumes at most one reservation anywhere in a chain. */
  lemma ReadOneReservation(hs: seq<Host>, steps: seq<Step>, i: nat, k: nat, root: Path, p: Path, x: OperationId, q: Path, y: OperationId)
    requires Runs(hs, steps) && FreshHeirs(hs, steps) && i <= k <= |steps|
    requires HeldBy(hs[i].world.disk, root, p, x) && hs[i].world.disk[p].intents[x].state == Uncertain
    requires HeldBy(hs[k].world.disk, root, q, y) && hs[k].world.disk[q].intents[y].state == Uncertain
    requires hs[i].world.disk[p].intents[x].task == hs[k].world.disk[q].intents[y].task
    ensures x == y
  {
    RunRefines(hs, steps);
    OneReservationEver(Worlds(hs), Actions(hs, steps), i, k, root, p, x, q, y);
  }

  /** Each commit is the one ledger's own step, and every read between two a stutter. */
  lemma ReadRefinesLedger(hs: seq<Host>, steps: seq<Step>, i: nat, root: Path)
    requires Runs(hs, steps) && FreshHeirs(hs, steps) && i < |steps|
    ensures Enabled(hs[i].world, Seen(hs[i], steps[i]))
    ensures LedgerNext(LedgerOf(hs[i].world.disk, root), EventOf(hs[i].world, Seen(hs[i], steps[i]), root),
                       LedgerOf(hs[i + 1].world.disk, root))
  {
    RunRefines(hs, steps);
    RunStepRefines(Worlds(hs), Actions(hs, steps), i, root);
  }

  /** No staging commits behind an orphan, however early it began to read. */
  lemma ReadOrphanNeverAdmits(hs: seq<Host>, steps: seq<Step>, i: nat, k: nat, s: Path, f: seq<Path>)
    requires Runs(hs, steps) && FreshHeirs(hs, steps) && i <= k < |steps| && Orphan(hs[i].world, s)
    requires JournalRuns.Follows(hs[k].world.disk, f) && Last(f) == s
    ensures steps[k] != CommitStage(f[0])
  {
    RunRefines(hs, steps);
    if steps[k] == CommitStage(f[0]) {
      RunKeepsStagings(hs, steps, k);
      CommitIsAdmitted(hs[k], f[0]);
      var st := hs[k].stagings[f[0]];
      OrphanNeverAdmits(Worlds(hs), Actions(hs, steps), i, k, s, f, st.op, st.task);
    }
  }
}
