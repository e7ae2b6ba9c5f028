/** Every committed transaction on a journal, and the interruption of a retirement between two of them. A staging
    reads its predecessors here at one instant; `JournalReads` has it read them one file after another, and `Look` is
    what such a read is here: no change. */
module JournalSteps {
  import opened Basics
  import opened Journals

  datatype Action =
    | OpenJournal(p: Path)
    | Stage(p: Path, op: OperationId, task: TaskId, sha: Digest, bytes: nat)
    | Reserve(p: Path, op: OperationId, sha: Digest, at: Time)
    | Withdraw(p: Path, op: OperationId, sha: Digest)
    | Upgrade(p: Path)
    | BeginRetire(p: Path, heir: Path)
    | LinkHeir(p: Path, heir: Path)
    | CloseRetired(p: Path, heir: Path)
    | Interrupt(call: Call)
    | Look

  /** The walk of `predecessors` succeeds: a verified chain within the inspection bound. */
  ghost predicate Walks(d: Disk, p: Path, c: seq<Path>) {
    ChainFrom(d, c, p) && |c| <= CHAIN_LIMIT + 1
  }

  /** Admission of a new identifier: open, walked, and held live by no predecessor. */
  ghost predicate Admits(d: Disk, p: Path, op: OperationId, task: TaskId) {
    && p in d
    && d[p].retired == None
    && exists c :: Walks(d, p, c) && NoneTaken(d, c[1..], op, task)
  }

  ghost predicate NoneTaken(d: Disk, c: seq<Path>, op: OperationId, task: TaskId) {
    forall q :: q in c && q in d ==> !Taken(d[q], op, task)
  }

  ghost predicate Enabled(w: World, a: Action) {
    match a
    case OpenJournal(p) => p !in w.disk
    case Stage(p, op, task, sha, bytes) =>
      && p in w.disk
      && bytes <= ScopeLimit(w.family)
      && (Restaged(w.disk[p], op, task, sha)
          || (!Taken(w.disk[p], op, task) && Admits(w.disk, p, op, task) && HasRoom(w.disk[p], bytes)))
    case Reserve(p, op, sha, at) =>
      && p in w.disk
      && op in w.disk[p].intents
      && w.disk[p].intents[op].state == Prepared
      && w.disk[p].intents[op].sha == sha
    case Withdraw(p, op, sha) =>
      && p in w.disk
      && w.disk[p].version == 3
      && op in w.disk[p].intents
      && w.disk[p].intents[op].state == Prepared
      && w.disk[p].intents[op].sha == sha
    case Upgrade(p) => p in w.disk && w.disk[p].version < 3
    case BeginRetire(p, heir) => p in w.disk && p != heir && w.disk[p].retired == None && heir !in w.disk
    case LinkHeir(p, heir) =>
      // The recheck asks that the heir is empty and follows nobody, and nothing more.
      && Call(p, heir, false) in w.calls
      && heir in w.disk
      && w.disk[heir].intents == map[]
      && w.disk[heir].follows == None
    case CloseRetired(p, heir) =>
      Call(p, heir, true) in w.calls && p in w.disk && w.disk[p].retired == None
    case Interrupt(call) => call in w.calls
    case Look => true
  }

  function Installed(version: nat): nat { if version < 2 then 2 else version }

  function WithRow(j: Journal, op: OperationId, row: Intent): Journal {
    j.(intents := j.intents[op := row])
  }

  function StagedIn(j: Journal, op: OperationId, task: TaskId, sha: Digest, bytes: nat): Journal {
    WithRow(j, op, Intent(task, sha, bytes, Prepared, None)).(scopeBytes := j.scopeBytes + bytes)
  }

  ghost function Apply(w: World, a: Action): World
    requires Enabled(w, a)
  {
    match a
    case OpenJournal(p) => w.(disk := w.disk[p := FRESH])
    case Stage(p, op, task, sha, bytes) =>
      if Restaged(w.disk[p], op, task, sha) then w
      else w.(disk := w.disk[p := StagedIn(w.disk[p], op, task, sha, bytes)])
    case Reserve(p, op, sha, at) =>
      var row := w.disk[p].intents[op];
      w.(disk := w.disk[p := WithRow(w.disk[p], op, row.(state := Uncertain, reservedAt := Some(at)))])
    case Withdraw(p, op, sha) =>
      var j := w.disk[p];
      var j' := WithRow(j, op, j.intents[op].(state := Withdrawn));
      w.(disk := w.disk[p := j'.(withdrawals := j.withdrawals[op := sha])])
    case Upgrade(p) => w.(disk := w.disk[p := w.disk[p].(version := 3)])
    case BeginRetire(p, heir) => w.(calls := w.calls + {Call(p, heir, false)})
    case LinkHeir(p, heir) =>
      var j := w.disk[heir];
      World(w.family,
            w.disk[heir := LinkedHeir(j, p)],
            w.calls - {Call(p, heir, false)} + {Call(p, heir, true)})
    case CloseRetired(p, heir) =>
      var j := w.disk[p];
      World(w.family,
            w.disk[p := ClosedFor(j, heir)],
            w.calls - {Call(p, heir, true)})
    case Interrupt(call) => w.(calls := w.calls - {call})
    case Look => w
  }

  /** Every journal that a verified chain places behind this one is empty. */
  ghost predicate NothingBehind(d: Disk, heir: Path) {
    forall c :: IsChain(d, c) && Last(c) == heir ==> c[0] in d && d[c[0]].intents == map[]
  }

  /** The guard a retirement would need at the heir's commit, and that the source's recheck omits. */
  ghost predicate ClearHeir(w: World, a: Action) {
    a.LinkHeir? ==> NothingBehind(w.disk, a.heir)
  }

  ghost predicate Next(w: World, a: Action, w': World) {
    Enabled(w, a) && w' == Apply(w, a)
  }

  // ---- Each transaction keeps the invariant ----

  ghost predicate SameLinks(d: Disk, d': Disk) {
    d.Keys == d'.Keys && forall p :: p in d ==> d'[p].follows == d[p].follows && d'[p].retired == d[p].retired
  }

  lemma SameLinksSameChains(d: Disk, d': Disk, c: seq<Path>)
    requires SameLinks(d, d') && IsChain(d, c)
    ensures IsChain(d', c)
  {
    ChainMembers(d, c);
    ChainFrame(d, d', c);
  }

  lemma FileChange(d: Disk, p: Path, j: Journal)
    requires FilesOk(d) && FileOk(j)
    ensures FilesOk(d[p := j])
  {
    var d' := d[p := j];
    forall q | q in d' ensures FileOk(d'[q]) {
      if q == p { assert d'[q] == j; } else { assert d'[q] == d[q]; }
    }
  }

  ghost predicate Disjoint(d: Disk, p: Path, j: Journal, c: seq<Path>) {
    forall q :: q in c && q != p && q in d ==> NoConflict(j, d[q])
  }

  /** An update of one file's rows that shares no new identifier or live task with its chain. */
  lemma RowsAgree(d: Disk, p: Path, j: Journal, c: seq<Path>)
    requires ChainsAgree(d) && p in d && IsChain(d, c)
    requires p in c ==> Disjoint(d, p, j, c)
    ensures Agree(d[p := j], c)
  {
    var d' := d[p := j];
    assert Agree(d, c);
    forall i, k | 0 <= i < k < |c| ensures c[i] in d' && c[k] in d' && NoConflict(d'[c[i]], d'[c[k]]) {
      ChainDistinct(d, c, i, k);
      assert c[i] in c && c[k] in c;
      assert NoConflict(d[c[i]], d[c[k]]);
    }
  }

  lemma RowsChange(d: Disk, p: Path, j: Journal)
    requires Backed(d) && OrphansEmpty(d) && ChainsAgree(d) && p in d
    requires j.follows == d[p].follows && j.retired == d[p].retired
    requires j.intents != map[] ==> Verified(d, p)
    requires forall c :: IsChain(d, c) && p in c ==> Disjoint(d, p, j, c)
    ensures Backed(d[p := j]) && OrphansEmpty(d[p := j]) && ChainsAgree(d[p := j])
  {
    var d' := d[p := j];
    assert SameLinks(d, d') && SameLinks(d', d);
    forall q | q in d' && d'[q].intents != map[] ensures Verified(d', q) {
      assert Verified(d, q);
      var c :| ChainFrom(d, c, q);
      SameLinksSameChains(d, d', c);
      assert ChainFrom(d', c, q);
    }
    forall c | IsChain(d', c) ensures Agree(d', c) {
      SameLinksSameChains(d', d, c);
      RowsAgree(d, p, j, c);
    }
  }

  ghost predicate RowsSettle(j: Journal, j': Journal) {
    && j'.follows == j.follows
    && j'.retired == j.retired
    && j'.intents.Keys == j.intents.Keys
    && forall o :: o in j'.intents ==>
         j'.intents[o].task == j.intents[o].task && (Live(j'.intents[o]) ==> Live(j.intents[o]))
  }

  lemma SettleNoConflict(j: Journal, j': Journal, other: Journal)
    requires RowsSettle(j, j') && (NoConflict(j, other) || NoConflict(other, j))
    ensures NoConflict(j', other)
  {
  }

  /** A row already in the file may change state: it takes no identifier and frees or keeps its task. */
  lemma StateChange(d: Disk, p: Path, j: Journal)
    requires FilesOk(d) && Backed(d) && OrphansEmpty(d) && ChainsAgree(d) && p in d && FileOk(j)
    requires RowsSettle(d[p], j)
    ensures DiskInv(d[p := j])
  {
    assert d[p].intents == map[] ==> d[p].intents.Keys == {};
    assert j.intents.Keys == {} ==> j.intents == map[];
    forall c | IsChain(d, c) && p in c ensures Disjoint(d, p, j, c) {
      assert Agree(d, c);
      var i :| 0 <= i < |c| && c[i] == p;
      forall q | q in c && q != p && q in d ensures NoConflict(j, d[q]) {
        var k :| 0 <= k < |c| && c[k] == q;
        SettleNoConflict(d[p], j, d[q]);
      }
    }
    RowsChange(d, p, j);
    FileChange(d, p, j);
  }

  lemma StagedNoConflict(j: Journal, op: OperationId, task: TaskId, sha: Digest, bytes: nat, other: Journal)
    requires NoConflict(j, other) && !Taken(other, op, task)
    ensures NoConflict(StagedIn(j, op, task, sha, bytes), other)
  {
  }

  lemma StagedFileOk(j: Journal, op: OperationId, task: TaskId, sha: Digest, bytes: nat)
    requires FileOk(j) && !Taken(j, op, task) && HasRoom(j, bytes)
    ensures FileOk(StagedIn(j, op, task, sha, bytes))
  {
  }

  lemma StageKeeps(d: Disk, p: Path, op: OperationId, task: TaskId, sha: Digest, bytes: nat)
    requires FilesOk(d) && Backed(d) && OrphansEmpty(d) && ChainsAgree(d) && p in d
    requires !Taken(d[p], op, task) && Admits(d, p, op, task) && HasRoom(d[p], bytes)
    ensures DiskInv(d[p := StagedIn(d[p], op, task, sha, bytes)])
  {
    var j := StagedIn(d[p], op, task, sha, bytes);
    StagedFileOk(d[p], op, task, sha, bytes);
    hide FileOk, HasRoom;
    var c0 :| Walks(d, p, c0) && NoneTaken(d, c0[1..], op, task);
    assert Verified(d, p);
    forall c | IsChain(d, c) && p in c ensures Disjoint(d, p, j, c) {
      UnretiredIsNewest(d, c, p);
      ChainUnique(d, c, c0);
      assert Agree(d, c);
      forall q | q in c && q != p && q in d ensures NoConflict(j, d[q]) {
        var k :| 0 <= k < |c| && c[k] == q;
        assert q == c0[1..][k - 1];
        assert NoConflict(d[c[0]], d[c[k]]);
        StagedNoConflict(d[p], op, task, sha, bytes, d[q]);
      }
    }
    RowsChange(d, p, j);
    FileChange(d, p, j);
  }

  lemma OpenChains(d: Disk, p: Path, c: seq<Path>)
    requires Backed(d) && p !in d
    ensures IsChain(d[p := FRESH], c) <==> IsChain(d, c) || c == [p]
  {
    var d' := d[p := FRESH];
    if IsChain(d', c) {
      if p in c {
        UnretiredIsNewest(d', c, p);
      } else {
        ChainMembers(d', c);
        ChainFrame(d', d, c);
      }
    }
    if IsChain(d, c) {
      ChainMembers(d, c);
      ChainFrame(d, d', c);
    }
  }

  lemma OpenLinks(d: Disk, p: Path)
    requires Backed(d) && p !in d
    ensures Backed(d[p := FRESH])
  {
  }

  lemma OpenKeeps(d: Disk, p: Path)
    requires FilesOk(d) && Backed(d) && OrphansEmpty(d) && ChainsAgree(d) && p !in d
    ensures DiskInv(d[p := FRESH])
  {
    var d' := d[p := FRESH];
    FileChange(d, p, FRESH);
    OpenLinks(d, p);
    forall c | IsChain(d', c) ensures Agree(d', c) {
      OpenChains(d, p, c);
      if c != [p] { ChainMembers(d, c); assert Agree(d, c); }
    }
    forall q | q in d' && d'[q].intents != map[] ensures Verified(d', q) {
      assert Verified(d, q);
      var c :| ChainFrom(d, c, q);
      OpenChains(d, p, c);
      assert ChainFrom(d', c, q);
    }
  }

  function LinkedHeir(j: Journal, p: Path): Journal {
    j.(version := Installed(j.version), follows := Some(p))
  }

  /** Chains after the heir's commit are exactly the earlier chains that did not end at the heir. */
  lemma LinkChains(d: Disk, p: Path, heir: Path, c: seq<Path>)
    requires Backed(d) && p in d && heir in d && d[heir].follows == None
    ensures IsChain(d[heir := LinkedHeir(d[heir], p)], c) <==> IsChain(d, c) && Last(c) != heir
  {
    var d' := d[heir := LinkedHeir(d[heir], p)];
    if IsChain(d', c) {
      if heir in c {
        var i :| 0 <= i < |c| && c[i] == heir;
        ChainTail(d', c, i);
        // The next link would need the predecessor to name the heir already, and then the heir to follow it.
        assert false;
      }
      ChainMembers(d', c);
      ChainFrame(d', d, c);
    }
    if IsChain(d, c) && Last(c) != heir {
      ChainMembers(d, c);
      if heir in c { FollowerlessIsLast(d, c, heir); }
      ChainFrame(d, d', c);
    }
  }

  lemma ClearLinkKeeps(d: Disk, p: Path, heir: Path)
    requires OrphansEmpty(d) && ChainsAgree(d) && Backed(d)
    requires p in d && heir in d && d[heir].intents == map[] && d[heir].follows == None
    requires NothingBehind(d, heir)
    ensures OrphansEmpty(d[heir := LinkedHeir(d[heir], p)])
    ensures ChainsAgree(d[heir := LinkedHeir(d[heir], p)])
  {
    var d' := d[heir := LinkedHeir(d[heir], p)];
    forall q | q in d' && d'[q].intents != map[] ensures Verified(d', q) {
      assert Verified(d, q);
      var c :| ChainFrom(d, c, q);
      LinkChains(d, p, heir, c);
      assert ChainFrom(d', c, q);
    }
    forall c | IsChain(d', c) ensures Agree(d', c) {
      LinkChains(d, p, heir, c);
      assert Agree(d, c);
    }
  }

  lemma UnclearLinkBreaks(d: Disk, p: Path, heir: Path, c: seq<Path>)
    requires Backed(d)
    requires p in d && heir in d && d[heir].intents == map[] && d[heir].follows == None
    requires IsChain(d, c) && Last(c) == heir && d[c[0]].intents != map[]
    ensures !OrphansEmpty(d[heir := LinkedHeir(d[heir], p)])
  {
    var d' := d[heir := LinkedHeir(d[heir], p)];
    if OrphansEmpty(d') {
      assert Verified(d', c[0]);
      var b :| ChainFrom(d', b, c[0]);
      LinkChains(d, p, heir, b);
      ChainUnique(d, b, c);
      assert false;
    }
  }

  /** Exactly when the heir's commit is safe: nothing chained behind the heir holds a row. */
  lemma HeirCommitExact(d: Disk, p: Path, heir: Path)
    requires DiskInv(d) && p in d && heir in d && d[heir].intents == map[] && d[heir].follows == None
    ensures DiskInv(d[heir := LinkedHeir(d[heir], p)]) <==> NothingBehind(d, heir)
  {
    if NothingBehind(d, heir) {
      ClearLinkKeeps(d, p, heir);
      LinkFiles(d, p, heir);
    } else {
      var c :| IsChain(d, c) && Last(c) == heir && !(c[0] in d && d[c[0]].intents == map[]);
      UnclearLinkBreaks(d, p, heir, c);
    }
  }

  lemma LinkBacked(d: Disk, p: Path, heir: Path)
    requires Backed(d) && p in d && heir in d && d[heir].follows == None
    ensures Backed(d[heir := LinkedHeir(d[heir], p)])
  {
  }

  lemma LinkFile(j: Journal, p: Path)
    requires FileOk(j)
    ensures FileOk(LinkedHeir(j, p))
  {
  }

  lemma LinkFiles(d: Disk, p: Path, heir: Path)
    requires FilesOk(d) && Backed(d)
    requires p in d && heir in d && d[heir].follows == None
    ensures FilesOk(d[heir := LinkedHeir(d[heir], p)])
    ensures Backed(d[heir := LinkedHeir(d[heir], p)])
  {
    assert FileOk(d[heir]);
    LinkFile(d[heir], p);
    FileChange(d, heir, LinkedHeir(d[heir], p));
    LinkBacked(d, p, heir);
    hide FileOk, FilesOk, Backed;
  }

  /** An heir that is not retired has nothing behind it, so the omitted test would have been enough. */
  lemma UnretiredHeirIsClear(d: Disk, heir: Path)
    requires heir in d && d[heir].retired == None && d[heir].intents == map[]
    ensures NothingBehind(d, heir)
  {
    forall c | IsChain(d, c) && Last(c) == heir ensures c[0] in d && d[c[0]].intents == map[] {
      if |c| > 1 { ChainLink(d, c, |c| - 1); }
    }
  }

  function ClosedFor(j: Journal, heir: Path): Journal {
    j.(version := Installed(j.version), retired := Some(heir))
  }

  lemma {:induction false} CloseKeepsChain(d: Disk, p: Path, heir: Path, c: seq<Path>)
    requires p in d && d[p].retired == None && IsChain(d, c)
    ensures IsChain(d[p := ClosedFor(d[p], heir)], c)
    decreases |c|
  {
    if |c| > 1 {
      CloseKeepsChain(d, p, heir, c[1..]);
    }
  }

  /** A chain that closing completes: its newer part was orphaned, hence empty, and its older part a chain. */
  lemma {:induction false} CloseChain(d: Disk, p: Path, heir: Path, c: seq<Path>)
    requires p in d && d[p].retired == None
    requires IsChain(d[p := ClosedFor(d[p], heir)], c)
    ensures forall q :: q in c ==> q in d
    ensures IsChain(d, c) || !Verified(d, c[0])
    decreases |c|
  {
    var d' := d[p := ClosedFor(d[p], heir)];
    ChainMembers(d', c);
    if |c| > 1 && Verified(d, c[0]) {
      var b :| ChainFrom(d, b, c[0]);
      CloseKeepsChain(d, p, heir, b);
      ChainUnique(d', b, c);
    }
  }

  lemma {:induction false} CloseAgree(d: Disk, p: Path, heir: Path, c: seq<Path>)
    requires p in d && d[p].retired == None && OrphansEmpty(d) && ChainsAgree(d)
    requires IsChain(d[p := ClosedFor(d[p], heir)], c)
    ensures Agree(d[p := ClosedFor(d[p], heir)], c)
    decreases |c|
  {
    var d' := d[p := ClosedFor(d[p], heir)];
    CloseChain(d, p, heir, c);
    if IsChain(d, c) {
      assert Agree(d, c);
    } else if |c| > 1 {
      CloseAgree(d, p, heir, c[1..]);
      assert d[c[0]].intents == map[];
      forall i, k | 0 <= i < k < |c| ensures c[i] in d' && c[k] in d' && NoConflict(d'[c[i]], d'[c[k]]) {
        if i > 0 { assert c[i] == c[1..][i - 1] && c[k] == c[1..][k - 1]; }
      }
    }
  }

  lemma CloseKeeps(d: Disk, p: Path, heir: Path)
    requires FilesOk(d) && Backed(d) && OrphansEmpty(d) && ChainsAgree(d)
    requires p in d && heir in d && d[p].retired == None && d[heir].follows == Some(p)
    ensures DiskInv(d[p := ClosedFor(d[p], heir)])
  {
    var d' := d[p := ClosedFor(d[p], heir)];
    assert FileOk(d[p]);
    FileChange(d, p, ClosedFor(d[p], heir));
    forall c | IsChain(d', c) ensures Agree(d', c) { CloseAgree(d, p, heir, c); }
    CloseOrphans(d, p, heir);
  }

  lemma CloseOrphans(d: Disk, p: Path, heir: Path)
    requires OrphansEmpty(d) && p in d && d[p].retired == None
    ensures OrphansEmpty(d[p := ClosedFor(d[p], heir)])
  {
    var d' := d[p := ClosedFor(d[p], heir)];
    forall q | q in d' && d'[q].intents != map[] ensures Verified(d', q) {
      assert Verified(d, q);
      var c :| ChainFrom(d, c, q);
      CloseKeepsChain(d, p, heir, c);
      assert ChainFrom(d', c, q);
    }
  }

  lemma CallsKept(w: World, a: Action, w': World)
    requires CallsOk(w) && Backed(w.disk) && Next(w, a, w')
    ensures CallsOk(w')
  {
  }

  /** Replacing a row keeps the count, and frees or keeps the one live row of its task. */
  lemma RowReplaced(j: Journal, op: OperationId, row: Intent)
    requires FileOk(j) && op in j.intents && Live(j.intents[op]) && row.task == j.intents[op].task
    ensures OneLive(WithRow(j, op, row)) && |WithRow(j, op, row).intents| == |j.intents|
    ensures RowsSettle(j, WithRow(j, op, row))
  {
    assert WithRow(j, op, row).intents.Keys == j.intents.Keys;
    assert |WithRow(j, op, row).intents.Keys| == |j.intents.Keys|;
  }

  lemma ReserveOk(j: Journal, op: OperationId, row: Intent)
    requires FileOk(j) && op in j.intents && j.intents[op].state == Prepared
    requires row.task == j.intents[op].task && row.sha == j.intents[op].sha
    requires row.state == Uncertain && row.reservedAt.Some?
    ensures FileOk(WithRow(j, op, row)) && RowsSettle(j, WithRow(j, op, row))
  {
    RowReplaced(j, op, row);
    hide OneLive;
  }

  lemma WithdrawOk(j: Journal, op: OperationId, row: Intent)
    requires FileOk(j) && op in j.intents && j.intents[op].state == Prepared && j.version == 3
    requires row.task == j.intents[op].task && row.sha == j.intents[op].sha
    requires row.state == Withdrawn && row.reservedAt.None?
    ensures var j' := WithRow(j, op, row).(withdrawals := j.withdrawals[op := row.sha]);
            FileOk(j') && RowsSettle(j, j')
  {
    RowReplaced(j, op, row);
    WithdrawalRecorded(j, op, row);
    OneLiveSame(WithRow(j, op, row), WithRow(j, op, row).(withdrawals := j.withdrawals[op := row.sha]));
    hide OneLive, WithdrawalsOk, ReservationsOk;
  }

  lemma WithdrawalRecorded(j: Journal, op: OperationId, row: Intent)
    requires WithdrawalsOk(j) && ReservationsOk(j) && op in j.intents && row.sha == j.intents[op].sha
    requires row.state == Withdrawn && row.reservedAt.None?
    ensures var j' := WithRow(j, op, row).(withdrawals := j.withdrawals[op := row.sha]);
            WithdrawalsOk(j') && ReservationsOk(j')
  {
  }

  lemma OneLiveSame(j: Journal, j': Journal)
    requires OneLive(j) && j'.intents == j.intents
    ensures OneLive(j')
  {
  }

  /** Every transaction, and every interruption between two, keeps the invariant. */
  lemma StepKeepsInv(w: World, a: Action, w': World)
    requires Inv(w) && Next(w, a, w') && ClearHeir(w, a)
    ensures Inv(w')
  {
    CallsKept(w, a, w');
    var d := w.disk;
    match a
    case OpenJournal(p) => OpenKeeps(d, p);
    case Stage(p, op, task, sha, bytes) =>
      if !Restaged(d[p], op, task, sha) { StageKeeps(d, p, op, task, sha, bytes); }
    case Reserve(p, op, sha, at) =>
      assert FileOk(d[p]);
      ReserveOk(d[p], op, d[p].intents[op].(state := Uncertain, reservedAt := Some(at)));
      StateChange(d, p, w'.disk[p]);
    case Withdraw(p, op, sha) =>
      assert FileOk(d[p]);
      WithdrawOk(d[p], op, d[p].intents[op].(state := Withdrawn));
      StateChange(d, p, w'.disk[p]);
    case Upgrade(p) =>
      assert FileOk(d[p]);
      StateChange(d, p, w'.disk[p]);
    case BeginRetire(p, heir) =>
    case LinkHeir(p, heir) => HeirCommitExact(d, p, heir);
    case CloseRetired(p, heir) => CloseKeeps(d, p, heir);
    case Interrupt(call) =>
    case Look =>
  }
}
