/** What holds over every run: the chain-wide guarantee, the ledger a chain refines, and orphan heirs. */
module JournalRuns {
  import opened Basics
  import opened Journals
  import opened JournalSteps

  ghost predicate Run(ws: seq<World>, acts: seq<Action>) {
    && |ws| == |acts| + 1
    && ws[0].disk == map[]
    && ws[0].calls == {}
    && forall i :: 0 <= i < |acts| ==> Next(ws[i], acts[i], ws[i + 1])
  }

  /** Every heir that a retirement claims has nothing with rows chained behind it. */
  ghost predicate ClearHeirs(ws: seq<World>, acts: seq<Action>)
    requires |ws| == |acts| + 1
  {
    forall i :: 0 <= i < |acts| ==> ClearHeir(ws[i], acts[i])
  }

  lemma EmptyDisk(d: Disk)
    requires d == map[]
    ensures DiskInv(d)
  {
  }

  lemma {:induction false} RunKeepsInv(ws: seq<World>, acts: seq<Action>, i: nat)
    requires Run(ws, acts) && ClearHeirs(ws, acts) && i <= |acts|
    ensures Inv(ws[i])
  {
    if i == 0 {
      assert ws[0].disk == map[];
      EmptyDisk(ws[0].disk);
    } else {
      RunKeepsInv(ws, acts, i - 1);
      StepKeepsInv(ws[i - 1], acts[i - 1], ws[i]);
    }
  }

  // ---- One identifier, one live operation, across a whole chain ----

  ghost predicate HeldBy(d: Disk, root: Path, p: Path, op: OperationId) {
    p in d && op in d[p].intents && Rooted(d, p, root)
  }

  /** Two journals of one chain: the same one, or without a common identifier or live task. */
  lemma SameRootAgree(d: Disk, root: Path, p: Path, q: Path)
    requires ChainsAgree(d) && Rooted(d, p, root) && Rooted(d, q, root) && p in d && q in d
    ensures p == q || NoConflict(d[p], d[q]) || NoConflict(d[q], d[p])
  {
    var a :| ChainFrom(d, a, p) && Last(a) == root;
    var b :| ChainFrom(d, b, q) && Last(b) == root;
    if |a| <= |b| {
      ChainsNested(d, a, b);
      assert p == b[|b| - |a|];
      assert Agree(d, b);
    } else {
      ChainsNested(d, b, a);
      assert q == a[|a| - |b|];
      assert Agree(d, a);
    }
  }

  lemma OneHolder(d: Disk, root: Path, p: Path, q: Path, op: OperationId)
    requires ChainsAgree(d) && HeldBy(d, root, p, op) && HeldBy(d, root, q, op)
    ensures p == q
  {
    SameRootAgree(d, root, p, q);
  }

  /** The chain-wide guarantee: an identifier lives in one journal, a task has one live operation. */
  lemma ChainGuarantee(ws: seq<World>, acts: seq<Action>, i: nat, root: Path,
                       p: Path, x: OperationId, q: Path, y: OperationId)
    requires Run(ws, acts) && ClearHeirs(ws, acts) && i <= |acts|
    requires HeldBy(ws[i].disk, root, p, x) && HeldBy(ws[i].disk, root, q, y)
    ensures x == y ==> p == q
    ensures (Live(ws[i].disk[p].intents[x]) && Live(ws[i].disk[q].intents[y])
             && ws[i].disk[p].intents[x].task == ws[i].disk[q].intents[y].task) ==> p == q && x == y
  {
    RunKeepsInv(ws, acts, i);
    SameRootAgree(ws[i].disk, root, p, q);
    assert FileOk(ws[i].disk[p]);
  }

  // ---- The ledger that a chain refines ----

  type Ledger = map<OperationId, Intent>

  datatype Event = Stutter | Add(op: OperationId, row: Intent) | Consume(op: OperationId, at: Time) | Release(op: OperationId)

  /** One unbounded book that forgets nothing. */
  ghost predicate LedgerNext(l: Ledger, e: Event, l': Ledger) {
    match e
    case Stutter => l' == l
    case Add(op, row) =>
      && op !in l
      && (forall o :: o in l && Live(l[o]) ==> l[o].task != row.task)
      && row.state == Prepared
      && row.reservedAt == None
      && l' == l[op := row]
    case Consume(op, at) =>
      && op in l
      && l[op].state == Prepared
      && l' == l[op := l[op].(state := Uncertain, reservedAt := Some(at))]
    case Release(op) =>
      && op in l
      && l[op].state == Prepared
      && l' == l[op := l[op].(state := Withdrawn)]
  }

  ghost function AllOperations(d: Disk): set<OperationId> {
    set p, o | p in d && o in d[p].intents :: o
  }

  ghost predicate Held(d: Disk, root: Path, op: OperationId) {
    exists p :: HeldBy(d, root, p, op)
  }

  ghost function Holder(d: Disk, root: Path, op: OperationId): Path
    requires Held(d, root, op)
    ensures HeldBy(d, root, Holder(d, root, op), op)
  {
    var p :| HeldBy(d, root, p, op);
    p
  }

  /** Everything the journals chained to one root retain. */
  ghost function LedgerOf(d: Disk, root: Path): Ledger {
    map op | op in AllOperations(d) && Held(d, root, op) :: d[Holder(d, root, op)].intents[op]
  }

  lemma LedgerHas(d: Disk, root: Path, p: Path, op: OperationId)
    requires ChainsAgree(d) && HeldBy(d, root, p, op)
    ensures op in LedgerOf(d, root) && LedgerOf(d, root)[op] == d[p].intents[op]
  {
    assert Held(d, root, op);
    OneHolder(d, root, p, Holder(d, root, op), op);
  }

  lemma LedgerFrom(d: Disk, root: Path, op: OperationId) returns (p: Path)
    requires op in LedgerOf(d, root)
    ensures HeldBy(d, root, p, op) && LedgerOf(d, root)[op] == d[p].intents[op]
  {
    p := Holder(d, root, op);
  }

  /** In the ledger of a chain, too, a task has at most one operation that is not withdrawn. */
  lemma LedgerOneLive(d: Disk, root: Path, x: OperationId, y: OperationId)
    requires ChainsAgree(d) && FilesOk(d)
    requires x in LedgerOf(d, root) && y in LedgerOf(d, root)
    requires Live(LedgerOf(d, root)[x]) && Live(LedgerOf(d, root)[y])
    requires LedgerOf(d, root)[x].task == LedgerOf(d, root)[y].task
    ensures x == y
  {
    var p := LedgerFrom(d, root, x);
    var q := LedgerFrom(d, root, y);
    HoldersOneLive(d, root, p, x, q, y);
  }

  lemma HoldersOneLive(d: Disk, root: Path, p: Path, x: OperationId, q: Path, y: OperationId)
    requires ChainsAgree(d) && FilesOk(d) && HeldBy(d, root, p, x) && HeldBy(d, root, q, y)
    requires Live(d[p].intents[x]) && Live(d[q].intents[y]) && d[p].intents[x].task == d[q].intents[y].task
    ensures x == y
  {
    SameRootAgree(d, root, p, q);
    assert FileOk(d[p]);
  }

  /** The ledger's view of a transaction. */
  ghost function EventOf(w: World, a: Action, root: Path): Event
    requires Enabled(w, a)
  {
    match a
    case Stage(p, op, task, sha, bytes) =>
      if Rooted(w.disk, p, root) && !Restaged(w.disk[p], op, task, sha) then
        Add(op, Intent(task, sha, bytes, Prepared, None))
      else Stutter
    case Reserve(p, op, sha, at) => if Rooted(w.disk, p, root) then Consume(op, at) else Stutter
    case Withdraw(p, op, sha) => if Rooted(w.disk, p, root) then Release(op) else Stutter
    case _ => Stutter
  }

  lemma SameLinksSameRoots(d: Disk, d': Disk, p: Path, root: Path)
    requires SameLinks(d, d') && Rooted(d, p, root)
    ensures Rooted(d', p, root)
  {
    var c :| ChainFrom(d, c, p) && Last(c) == root;
    SameLinksSameChains(d, d', c);
    assert ChainFrom(d', c, p);
  }

  ghost predicate SameEntry(l: Ledger, m: Ledger, o: OperationId) {
    (o in l <==> o in m) && (o in l ==> l[o] == m[o])
  }

  lemma LedgersEqual(l: Ledger, m: Ledger)
    requires forall o :: SameEntry(l, m, o)
    ensures l == m
  {
    forall o ensures (o in l <==> o in m) && (o in l ==> l[o] == m[o]) { assert SameEntry(l, m, o); }
  }

  ghost function Written(d: Disk, root: Path, p: Path, op: OperationId, row: Intent): Ledger {
    if Rooted(d, p, root) then LedgerOf(d, root)[op := row] else LedgerOf(d, root)
  }

  ghost predicate OneRowWritten(d: Disk, d': Disk, p: Path, op: OperationId, row: Intent) {
    && SameLinks(d, d')
    && SameLinks(d', d)
    && p in d
    && (forall q :: q in d && q != p ==> d'[q] == d[q])
    && d'[p].intents == d[p].intents[op := row]
  }

  lemma LedgerWriteGains(d: Disk, d': Disk, root: Path, p: Path, op: OperationId, row: Intent, o: OperationId)
    requires ChainsAgree(d) && ChainsAgree(d') && OneRowWritten(d, d', p, op, row)
    ensures o in LedgerOf(d', root) ==>
              o in Written(d, root, p, op, row) && Written(d, root, p, op, row)[o] == LedgerOf(d', root)[o]
  {
    if o in LedgerOf(d', root) {
      var q := LedgerFrom(d', root, o);
      SameLinksSameRoots(d', d, q, root);
      if q != p || o != op {
        LedgerHas(d, root, q, o);
        if o == op && Rooted(d, p, root) {
          SameLinksSameRoots(d, d', p, root);
          OneHolder(d', root, p, q, op);
        }
      }
    }
  }

  lemma LedgerWriteKeeps(d: Disk, d': Disk, root: Path, p: Path, op: OperationId, row: Intent, o: OperationId)
    requires ChainsAgree(d) && ChainsAgree(d') && OneRowWritten(d, d', p, op, row)
    ensures o in Written(d, root, p, op, row) ==> o in LedgerOf(d', root)
  {
    if o == op && Rooted(d, p, root) {
      SameLinksSameRoots(d, d', p, root);
      LedgerHas(d', root, p, op);
    } else if o in LedgerOf(d, root) {
      var q := LedgerFrom(d, root, o);
      SameLinksSameRoots(d, d', q, root);
      LedgerHas(d', root, q, o);
    }
  }

  /** One row written in one file is one entry written in the ledger of that file's chain, and in no other. */
  lemma LedgerWrite(d: Disk, d': Disk, root: Path, p: Path, op: OperationId, row: Intent)
    requires ChainsAgree(d) && ChainsAgree(d') && OneRowWritten(d, d', p, op, row)
    ensures LedgerOf(d', root) == Written(d, root, p, op, row)
  {
    forall o ensures SameEntry(LedgerOf(d', root), Written(d, root, p, op, row), o) {
      LedgerWriteGains(d, d', root, p, op, row, o);
      LedgerWriteKeeps(d, d', root, p, op, row, o);
    }
    LedgersEqual(LedgerOf(d', root), Written(d, root, p, op, row));
  }

  /** Steps that move only links keep the ledger when no journal with rows changes its root. */
  lemma LedgerKept(d: Disk, d': Disk, root: Path)
    requires ChainsAgree(d) && ChainsAgree(d') && OnlyLinks(d, d', root)
    ensures LedgerOf(d', root) == LedgerOf(d, root)
  {
    forall o ensures SameEntry(LedgerOf(d', root), LedgerOf(d, root), o) { LedgerKeptAt(d, d', root, o); }
    LedgersEqual(LedgerOf(d', root), LedgerOf(d, root));
  }

  ghost predicate OnlyLinks(d: Disk, d': Disk, root: Path) {
    && (forall p :: p in d ==> p in d' && d'[p].intents == d[p].intents)
    && (forall p :: p in d' && p !in d ==> d'[p].intents == map[])
    && (forall p :: p in d && d[p].intents != map[] ==> (Rooted(d, p, root) <==> Rooted(d', p, root)))
  }

  lemma LedgerKeptAt(d: Disk, d': Disk, root: Path, o: OperationId)
    requires ChainsAgree(d) && ChainsAgree(d') && OnlyLinks(d, d', root)
    ensures SameEntry(LedgerOf(d', root), LedgerOf(d, root), o)
  {
    if o in LedgerOf(d', root) {
      var q := LedgerFrom(d', root, o);
      LedgerHas(d, root, q, o);
    }
    if o in LedgerOf(d, root) {
      var q := LedgerFrom(d, root, o);
      LedgerHas(d', root, q, o);
    }
  }

  lemma OpenKeepsRoots(d: Disk, p: Path, q: Path, root: Path)
    requires Backed(d) && p !in d && q in d
    ensures Rooted(d, q, root) <==> Rooted(d[p := FRESH], q, root)
  {
    var d' := d[p := FRESH];
    if Rooted(d, q, root) {
      var c :| ChainFrom(d, c, q) && Last(c) == root;
      OpenChains(d, p, c);
      assert ChainFrom(d', c, q);
    }
    if Rooted(d', q, root) {
      var c :| ChainFrom(d', c, q) && Last(c) == root;
      OpenChains(d, p, c);
      assert ChainFrom(d, c, q);
    }
  }

  lemma LinkKeepsRoots(d: Disk, p: Path, heir: Path, q: Path, root: Path)
    requires Backed(d) && p in d && heir in d && d[heir].follows == None && NothingBehind(d, heir)
    requires q in d && d[q].intents != map[]
    ensures Rooted(d, q, root) <==> Rooted(d[heir := LinkedHeir(d[heir], p)], q, root)
  {
    var d' := d[heir := LinkedHeir(d[heir], p)];
    if Rooted(d, q, root) {
      var c :| ChainFrom(d, c, q) && Last(c) == root;
      LinkChains(d, p, heir, c);
      assert ChainFrom(d', c, q);
    }
    if Rooted(d', q, root) {
      var c :| ChainFrom(d', c, q) && Last(c) == root;
      LinkChains(d, p, heir, c);
      assert ChainFrom(d, c, q);
    }
  }

  lemma CloseKeepsRoots(d: Disk, p: Path, heir: Path, q: Path, root: Path)
    requires OrphansEmpty(d) && p in d && d[p].retired == None && q in d && d[q].intents != map[]
    ensures Rooted(d, q, root) <==> Rooted(d[p := ClosedFor(d[p], heir)], q, root)
  {
    var d' := d[p := ClosedFor(d[p], heir)];
    assert Verified(d, q);
    var b :| ChainFrom(d, b, q);
    CloseKeepsChain(d, p, heir, b);
    assert ChainFrom(d', b, q);
    if Rooted(d, q, root) {
      var c :| ChainFrom(d, c, q) && Last(c) == root;
      ChainUnique(d, b, c);
    }
    if Rooted(d', q, root) {
      var c :| ChainFrom(d', c, q) && Last(c) == root;
      ChainUnique(d', b, c);
    }
  }

  lemma AddIsNew(d: Disk, p: Path, root: Path, op: OperationId, task: TaskId)
    requires Rooted(d, p, root) && !Taken(d[p], op, task) && Admits(d, p, op, task)
    ensures op !in LedgerOf(d, root)
    ensures forall o :: o in LedgerOf(d, root) && Live(LedgerOf(d, root)[o]) ==> LedgerOf(d, root)[o].task != task
  {
    var c0 :| Walks(d, p, c0) && NoneTaken(d, c0[1..], op, task);
    var a :| ChainFrom(d, a, p) && Last(a) == root;
    ChainUnique(d, a, c0);
    forall o | o in LedgerOf(d, root)
      ensures o != op && (Live(LedgerOf(d, root)[o]) ==> LedgerOf(d, root)[o].task != task)
    {
      var q := LedgerFrom(d, root, o);
      var b :| ChainFrom(d, b, q) && Last(b) == root;
      OpenIsLongest(d, a, b);
      ChainsNested(d, b, a);
      var k := |a| - |b|;
      assert q == a[k];
      if k > 0 { assert q == c0[1..][k - 1]; }
      assert !Taken(d[q], op, task);
    }
  }

  /** The journal that is still open has the longest chain to its root. */
  lemma OpenIsLongest(d: Disk, a: seq<Path>, b: seq<Path>)
    requires IsChain(d, a) && IsChain(d, b) && Last(a) == Last(b) && d[a[0]].retired == None
    ensures |b| <= |a|
  {
    if |a| < |b| {
      ChainsNested(d, a, b);
      ChainLink(d, b, |b| - |a|);
    }
  }

  /** Refinement: each transaction is the ledger's own step for the chain it touches, and a stutter for all others. */
  lemma StepRefinesLedger(w: World, a: Action, w': World, root: Path)
    requires Inv(w) && Next(w, a, w') && ClearHeir(w, a)
    ensures LedgerNext(LedgerOf(w.disk, root), EventOf(w, a, root), LedgerOf(w'.disk, root))
  {
    StepKeepsInv(w, a, w');
    if a.Stage? || a.Reserve? || a.Withdraw? {
      RowStepRefines(w, a, w', root);
    } else {
      LinkStepKeepsRoots(w, a, w', root);
      LedgerKept(w.disk, w'.disk, root);
    }
  }

  lemma RowStepWrites(w: World, a: Action, w': World)
    requires Next(w, a, w') && (a.Stage? || a.Reserve? || a.Withdraw?)
    requires !(a.Stage? && Restaged(w.disk[a.p], a.op, a.task, a.sha))
    ensures w'.disk != w.disk
  {
    assert a.Stage? ==> a.op !in w.disk[a.p].intents;
    assert a.op in w'.disk[a.p].intents;
    assert !a.Stage? ==> w'.disk[a.p].intents[a.op].state != w.disk[a.p].intents[a.op].state;
  }

  lemma RowStepRefines(w: World, a: Action, w': World, root: Path)
    requires ChainsAgree(w.disk) && ChainsAgree(w'.disk) && Next(w, a, w')
    requires a.Stage? || a.Reserve? || a.Withdraw?
    ensures LedgerNext(LedgerOf(w.disk, root), EventOf(w, a, root), LedgerOf(w'.disk, root))
  {
    var d, d' := w.disk, w'.disk;
    if d' != d {
      var row := d'[a.p].intents[a.op];
      LedgerWrite(d, d', root, a.p, a.op, row);
      if Rooted(d, a.p, root) {
        if a.Stage? {
          AddIsNew(d, a.p, root, a.op, a.task);
        } else {
          LedgerHas(d, root, a.p, a.op);
        }
      }
    } else {
      // Only restaging writes nothing: any other of these steps changes a row.
      assert a.Stage? && Restaged(d[a.p], a.op, a.task, a.sha) by {
        if !(a.Stage? && Restaged(d[a.p], a.op, a.task, a.sha)) { RowStepWrites(w, a, w'); }
      }
    }
  }

  lemma LinkStepKeepsRoots(w: World, a: Action, w': World, root: Path)
    requires Backed(w.disk) && OrphansEmpty(w.disk) && CallsOk(w) && Next(w, a, w') && ClearHeir(w, a)
    requires !a.Stage? && !a.Reserve? && !a.Withdraw?
    ensures OnlyLinks(w.disk, w'.disk, root)
  {
    var d, d' := w.disk, w'.disk;
    forall q | q in d && d[q].intents != map[] ensures Rooted(d, q, root) <==> Rooted(d', q, root) {
      match a
      case OpenJournal(p) => OpenKeepsRoots(d, p, q, root);
      case Upgrade(p) =>
        assert SameLinks(d, d') && SameLinks(d', d);
        if Rooted(d, q, root) { SameLinksSameRoots(d, d', q, root); }
        if Rooted(d', q, root) { SameLinksSameRoots(d', d, q, root); }
      case LinkHeir(p, heir) => LinkKeepsRoots(d, p, heir, q, root);
      case CloseRetired(p, heir) => CloseKeepsRoots(d, p, heir, q, root);
      case BeginRetire(p, heir) =>
      case Interrupt(call) =>
      case Look =>
    }
  }

  ghost predicate Remembers(l: Ledger, l': Ledger, op: OperationId) {
    op in l ==>
      && op in l'
      && l'[op].task == l[op].task
      && l'[op].sha == l[op].sha
      && (l[op].state != Prepared ==> l'[op] == l[op])
  }

  lemma LedgerStepRemembers(l: Ledger, e: Event, l': Ledger, op: OperationId)
    requires LedgerNext(l, e, l')
    ensures Remembers(l, l', op)
  {
  }

  lemma {:induction false} RemembersAlong(ls: seq<Ledger>, i: nat, k: nat, op: OperationId)
    requires i <= k < |ls|
    requires forall j :: i <= j < k ==> Remembers(ls[j], ls[j + 1], op)
    ensures Remembers(ls[i], ls[k], op)
    decreases k - i
  {
    if i < k {
      RemembersAlong(ls, i, k - 1, op);
      RemembersTransitive(ls[i], ls[k - 1], ls[k], op);
    }
  }

  /** Nothing is forgotten: entries stay, and a consumed attempt stays exactly as it was recorded. */
  lemma LedgerRemembers(ws: seq<World>, acts: seq<Action>, i: nat, k: nat, root: Path, op: OperationId)
    requires Run(ws, acts) && ClearHeirs(ws, acts) && i <= k <= |acts|
    ensures Remembers(LedgerOf(ws[i].disk, root), LedgerOf(ws[k].disk, root), op)
  {
    var ls := seq(|ws|, j requires 0 <= j < |ws| => LedgerOf(ws[j].disk, root));
    forall j | i <= j < k ensures Remembers(ls[j], ls[j + 1], op) { RunStepRemembers(ws, acts, j, root, op); }
    RemembersAlong(ls, i, k, op);
  }

  lemma RemembersTransitive(l: Ledger, m: Ledger, n: Ledger, op: OperationId)
    requires Remembers(l, m, op) && Remembers(m, n, op)
    ensures Remembers(l, n, op)
  {
  }

  lemma RunStepRemembers(ws: seq<World>, acts: seq<Action>, i: nat, root: Path, op: OperationId)
    requires Run(ws, acts) && ClearHeirs(ws, acts) && i < |acts|
    ensures Remembers(LedgerOf(ws[i].disk, root), LedgerOf(ws[i + 1].disk, root), op)
  {
    RunStepRefines(ws, acts, i, root);
    LedgerStepRemembers(LedgerOf(ws[i].disk, root), EventOf(ws[i], acts[i], root), LedgerOf(ws[i + 1].disk, root), op);
  }

  lemma RunStepRefines(ws: seq<World>, acts: seq<Action>, i: nat, root: Path)
    requires Run(ws, acts) && ClearHeirs(ws, acts) && i < |acts|
    ensures Enabled(ws[i], acts[i])
    ensures LedgerNext(LedgerOf(ws[i].disk, root), EventOf(ws[i], acts[i], root), LedgerOf(ws[i + 1].disk, root))
  {
    RunKeepsInv(ws, acts, i);
    StepRefinesLedger(ws[i], acts[i], ws[i + 1], root);
  }

  /** For all time, a task consumes at most one reservation anywhere in a chain. */
  lemma OneReservationEver(ws: seq<World>, acts: seq<Action>, i: nat, k: nat, root: Path,
                           p: Path, x: OperationId, q: Path, y: OperationId)
    requires Run(ws, acts) && ClearHeirs(ws, acts) && i <= k <= |acts|
    requires HeldBy(ws[i].disk, root, p, x) && ws[i].disk[p].intents[x].state == Uncertain
    requires HeldBy(ws[k].disk, root, q, y) && ws[k].disk[q].intents[y].state == Uncertain
    requires ws[i].disk[p].intents[x].task == ws[k].disk[q].intents[y].task
    ensures x == y
  {
    RunKeepsInv(ws, acts, i);
    RunKeepsInv(ws, acts, k);
    LedgerHas(ws[i].disk, root, p, x);
    LedgerHas(ws[k].disk, root, q, y);
    LedgerRemembers(ws, acts, i, k, root, x);
    LedgerOneLive(ws[k].disk, root, x, y);
  }

  // ---- Interrupted retirements ----

  /** At most one journal chained to a root is open to new work. */
  lemma OneOpenJournal(d: Disk, root: Path, p: Path, q: Path)
    requires Rooted(d, p, root) && Rooted(d, q, root) && p in d && q in d
    requires d[p].retired == None && d[q].retired == None
    ensures p == q
  {
    var a :| ChainFrom(d, a, p) && Last(a) == root;
    var b :| ChainFrom(d, b, q) && Last(b) == root;
    OpenIsLongest(d, a, b);
    OpenIsLongest(d, b, a);
    ChainsNested(d, a, b);
  }

  /** A heir whose predecessor does not name it, and that no call in progress can still make it name. */
  ghost predicate Orphan(w: World, s: Path) {
    && s in w.disk
    && w.disk[s].follows.Some?
    && var p := w.disk[s].follows.value;
       && p in w.disk
       && w.disk[p].retired != Some(s)
       && (Call(p, s, true) in w.calls ==> w.disk[p].retired.Some?)
  }

  /** Follow the `follows` records alone, whether or not they are answered. */
  ghost predicate Follows(d: Disk, f: seq<Path>)
    decreases |f|
  {
    && |f| > 0
    && f[0] in d
    && (|f| > 1 ==> d[f[0]].follows == Some(f[1]) && Follows(d, f[1..]))
  }

  /** A retirement that stops between its two commits leaves its heir an orphan. */
  lemma InterruptedHeirIsOrphan(w: World, p: Path, s: Path, w': World)
    requires CallsOk(w) && Next(w, Interrupt(Call(p, s, true)), w') && w.disk[p].retired == None
    ensures Orphan(w', s)
  {
  }

  /** A retirement retried with another heir makes an orphan of every earlier heir. */
  lemma RetriedHeirIsOrphan(w: World, p: Path, s: Path, s': Path, w': World)
    requires Next(w, CloseRetired(p, s'), w')
    requires s in w.disk && s != s' && s != p && w.disk[s].follows == Some(p)
    ensures Orphan(w', s)
  {
  }

  lemma OrphanStays(w: World, a: Action, w': World, s: Path)
    requires Next(w, a, w') && Orphan(w, s)
    ensures Orphan(w', s)
  {
  }

  lemma {:induction false} NoChainThroughOrphan(w: World, s: Path, f: seq<Path>, c: seq<Path>)
    requires Orphan(w, s) && Follows(w.disk, f) && Last(f) == s && IsChain(w.disk, c)
    ensures c[0] != f[0]
    decreases |f|
  {
    if c[0] == f[0] {
      if |f| == 1 {
        assert false;
      } else {
        assert |c| > 1 && c[1] == f[1];
        NoChainThroughOrphan(w, s, f[1..], c[1..]);
      }
    }
  }

  /** From then on, neither the orphan nor any journal chained behind it admits anything, whatever happens. */
  lemma {:induction false} OrphanNeverAdmits(ws: seq<World>, acts: seq<Action>, i: nat, k: nat, s: Path, f: seq<Path>,
                                             op: OperationId, task: TaskId)
    requires Run(ws, acts) && i <= k <= |acts| && Orphan(ws[i], s)
    requires Follows(ws[k].disk, f) && Last(f) == s
    ensures !Admits(ws[k].disk, f[0], op, task)
  {
    OrphanForever(ws, acts, i, k, s);
    if Admits(ws[k].disk, f[0], op, task) {
      var c :| Walks(ws[k].disk, f[0], c) && NoneTaken(ws[k].disk, c[1..], op, task);
      NoChainThroughOrphan(ws[k], s, f, c);
    }
  }

  lemma {:induction false} OrphanForever(ws: seq<World>, acts: seq<Action>, i: nat, k: nat, s: Path)
    requires Run(ws, acts) && i <= k <= |acts| && Orphan(ws[i], s)
    ensures Orphan(ws[k], s)
    decreases k - i
  {
    if i < k {
      OrphanForever(ws, acts, i, k - 1, s);
      OrphanStays(ws[k - 1], acts[k - 1], ws[k], s);
    }
  }
}
