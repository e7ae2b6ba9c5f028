/** The bounded operation journals, their rows and their succession links.

    A journal is one SQLite file; `Disk` is every journal file of one family on the host.
    Each function below is one committed transaction, so a run may stop between any two. */
module Journals {
  import opened Basics

  // Opaque names: the source only ever compares these for equality.
  type Path = nat
  type OperationId = nat
  type TaskId = nat
  type Digest = nat
  type Time = nat

  const MAX_RECORDS: nat := 1000
  const MAX_TOTAL_SCOPE_BYTES: nat := 16 * 1024 * 1024
  const CHAIN_LIMIT: nat := 16

  datatype Family = GitHub | Jira

  function ScopeLimit(family: Family): nat {
    match family
    case GitHub => 65536
    case Jira => 128 * 1024
  }

  datatype State = Prepared | Uncertain | Withdrawn

  datatype Intent = Intent(task: TaskId, sha: Digest, bytes: nat, state: State, reservedAt: Option<Time>)

  /** `scopeBytes` is the running sum of the rows' sizes; no row is ever removed or resized. */
  datatype Journal = Journal(
    version: nat,
    intents: map<OperationId, Intent>,
    scopeBytes: nat,
    withdrawals: map<OperationId, Digest>,
    follows: Option<Path>,
    retired: Option<Path>)

  type Disk = map<Path, Journal>

  /** A `retire` call in progress: checked at first, and `linked` once the heir's record is committed. */
  datatype Call = Call(journal: Path, heir: Path, linked: bool)

  datatype World = World(family: Family, disk: Disk, calls: set<Call>)

  const FRESH := Journal(1, map[], 0, map[], None, None)

  predicate Live(row: Intent) { row.state != Withdrawn }

  /** The live query: an identifier is taken in any state, a task only by a row not withdrawn. */
  predicate Taken(j: Journal, op: OperationId, task: TaskId) {
    op in j.intents || exists o :: o in j.intents && j.intents[o].task == task && Live(j.intents[o])
  }

  /** Restaging: the live query finds exactly this operation, not withdrawn and with the same scope. */
  predicate Restaged(j: Journal, op: OperationId, task: TaskId, sha: Digest) {
    && op in j.intents
    && Live(j.intents[op])
    && j.intents[op].sha == sha
    && forall o :: o in j.intents && o != op ==> !(j.intents[o].task == task && Live(j.intents[o]))
  }

  predicate HasRoom(j: Journal, bytes: nat) {
    |j.intents| < MAX_RECORDS && j.scopeBytes + bytes <= MAX_TOTAL_SCOPE_BYTES
  }

  // ---- Chains ----

  ghost predicate Linked(d: Disk, child: Path, parent: Path) {
    && child in d
    && parent in d
    && d[child].follows == Some(parent)
    && d[parent].retired == Some(child)
  }

  /** A verified chain, newest first: each link is named in both files and the last follows nobody. */
  ghost predicate IsChain(d: Disk, c: seq<Path>)
    decreases |c|
  {
    && |c| > 0
    && c[0] in d
    && if |c| == 1 then d[c[0]].follows == None else Linked(d, c[0], c[1]) && IsChain(d, c[1..])
  }

  ghost predicate ChainFrom(d: Disk, c: seq<Path>, p: Path) {
    IsChain(d, c) && c[0] == p
  }

  ghost predicate Verified(d: Disk, p: Path) {
    exists c :: ChainFrom(d, c, p)
  }

  function Last(c: seq<Path>): Path
    requires |c| > 0
  {
    c[|c| - 1]
  }

  ghost predicate Rooted(d: Disk, p: Path, root: Path) {
    exists c :: ChainFrom(d, c, p) && Last(c) == root
  }

  lemma {:induction false} ChainTail(d: Disk, c: seq<Path>, k: nat)
    requires IsChain(d, c) && k < |c|
    ensures IsChain(d, c[k..]) && Last(c[k..]) == Last(c)
    decreases k
  {
    if k == 0 {
      assert c[0..] == c;
    } else {
      ChainTail(d, c[1..], k - 1);
      assert c[1..][k - 1..] == c[k..];
    }
  }

  lemma ChainLink(d: Disk, c: seq<Path>, k: nat)
    requires IsChain(d, c) && 0 < k < |c|
    ensures Linked(d, c[k - 1], c[k])
  {
    ChainTail(d, c, k - 1);
    assert c[k - 1..][1] == c[k];
  }

  lemma ChainMember(d: Disk, c: seq<Path>, k: nat)
    requires IsChain(d, c) && k < |c|
    ensures c[k] in d
  {
    ChainTail(d, c, k);
  }

  /** A journal starts at most one verified chain. */
  lemma {:induction false} ChainUnique(d: Disk, a: seq<Path>, b: seq<Path>)
    requires IsChain(d, a) && IsChain(d, b) && a[0] == b[0]
    ensures a == b
    decreases |a|
  {
    if |a| == 1 || |b| == 1 {
      assert a == [a[0]] && b == [b[0]];
    } else {
      ChainUnique(d, a[1..], b[1..]);
      assert a == [a[0]] + a[1..] && b == [b[0]] + b[1..];
    }
  }

  /** No journal occurs twice in a verified chain, so the walk's cycle test never refuses one. */
  lemma ChainDistinct(d: Disk, c: seq<Path>, i: nat, k: nat)
    requires IsChain(d, c) && i < k < |c|
    ensures c[i] != c[k]
  {
    ChainTail(d, c, i);
    ChainTail(d, c, k);
    if c[i] == c[k] {
      ChainUnique(d, c[i..], c[k..]);
      assert false;
    }
  }

  /** Two verified chains with the same root are nested: the shorter is the older part of the longer. */
  lemma {:induction false} ChainsNested(d: Disk, a: seq<Path>, b: seq<Path>)
    requires IsChain(d, a) && IsChain(d, b) && Last(a) == Last(b) && |a| <= |b|
    ensures a == b[|b| - |a|..]
    decreases |a|
  {
    var k := |b| - |a|;
    ChainTail(d, b, k);
    if |a| == 1 {
      assert a == [a[0]] && b[k..] == [Last(b)];
    } else {
      ChainsNested(d, a[1..], b);
      assert b[k..][1..] == b[k + 1..];
      assert a == [a[0]] + a[1..] && b[k..] == [b[k]] + b[k + 1..];
      ChainLink(d, b, k + 1);
    }
  }

  /** Chains depend on nothing but the links of their own members. */
  lemma {:induction false} ChainFrame(d: Disk, d': Disk, c: seq<Path>)
    requires IsChain(d, c)
    requires forall p :: p in c ==> p in d && p in d' && d'[p].follows == d[p].follows && d'[p].retired == d[p].retired
    ensures IsChain(d', c)
    decreases |c|
  {
    if |c| > 1 {
      ChainFrame(d, d', c[1..]);
    }
  }

  lemma ChainMembers(d: Disk, c: seq<Path>)
    requires IsChain(d, c)
    ensures forall p :: p in c ==> p in d
  {
    forall p | p in c ensures p in d {
      var k :| 0 <= k < |c| && c[k] == p;
      ChainMember(d, c, k);
    }
  }

  /** A journal that is not retired can only be the newest of a chain. */
  lemma UnretiredIsNewest(d: Disk, c: seq<Path>, p: Path)
    requires IsChain(d, c) && p in c && p in d && d[p].retired == None
    ensures c[0] == p
  {
    var i :| 0 <= i < |c| && c[i] == p;
    if i > 0 { ChainLink(d, c, i); }
  }

  /** A journal that follows nobody can only be the root of a chain. */
  lemma FollowerlessIsLast(d: Disk, c: seq<Path>, p: Path)
    requires IsChain(d, c) && p in c && p in d && d[p].follows == None
    ensures Last(c) == p
  {
    var i :| 0 <= i < |c| && c[i] == p;
    ChainTail(d, c, i);
  }

  // ---- What the files hold ----

  /** No identifier in both journals, and no task live in both. */
  ghost predicate NoConflict(a: Journal, b: Journal) {
    && a.intents.Keys !! b.intents.Keys
    && forall x, y :: x in a.intents && y in b.intents && Live(a.intents[x]) && Live(b.intents[y])
                      ==> a.intents[x].task != b.intents[y].task
  }

  /** One live operation per task in one file: the `one_live_operation` index. */
  ghost predicate OneLive(j: Journal) {
    forall x, y :: x in j.intents && y in j.intents && x != y && Live(j.intents[x]) && Live(j.intents[y])
                   ==> j.intents[x].task != j.intents[y].task
  }

  /** A withdrawal record for exactly the withdrawn rows, of the same scope. */
  ghost predicate WithdrawalsOk(j: Journal) {
    && (forall o :: o in j.withdrawals <==> o in j.intents && j.intents[o].state == Withdrawn)
    && (forall o :: o in j.withdrawals ==> j.withdrawals[o] == j.intents[o].sha)
  }

  /** Exactly the uncertain rows have been reserved. */
  ghost predicate ReservationsOk(j: Journal) {
    forall o :: o in j.intents ==> (j.intents[o].state == Uncertain <==> j.intents[o].reservedAt.Some?)
  }

  /** What the schema, its triggers and the readers' checks ask of a single file. */
  ghost predicate FileOk(j: Journal) {
    && 1 <= j.version <= 3
    && (j.version < 2 ==> j.follows == None && j.retired == None)
    && (j.version < 3 ==> j.withdrawals == map[])
    && WithdrawalsOk(j)
    && ReservationsOk(j)
    && OneLive(j)
    && |j.intents| <= MAX_RECORDS
    && j.scopeBytes <= MAX_TOTAL_SCOPE_BYTES
  }

  /** Within every verified chain, no two journals conflict. */
  ghost predicate Agree(d: Disk, c: seq<Path>) {
    forall i, k :: 0 <= i < k < |c| ==> c[i] in d && c[k] in d && NoConflict(d[c[i]], d[c[k]])
  }

  ghost predicate ChainsAgree(d: Disk) {
    forall c :: IsChain(d, c) ==> Agree(d, c)
  }

  /** A journal with rows has a verified chain: broken links lead only to empty journals. */
  ghost predicate OrphansEmpty(d: Disk) {
    forall p :: p in d && d[p].intents != map[] ==> Verified(d, p)
  }

  ghost predicate Backed(d: Disk) {
    forall p :: p in d && d[p].retired.Some? ==> d[p].retired.value in d && d[d[p].retired.value].follows == Some(p)
  }

  ghost predicate CallsOk(w: World) {
    forall k :: k in w.calls ==>
      && k.journal in w.disk
      && (k.linked ==> k.heir in w.disk && w.disk[k.heir].follows == Some(k.journal))
  }

  ghost predicate FilesOk(d: Disk) {
    forall p :: p in d ==> FileOk(d[p])
  }

  ghost predicate DiskInv(d: Disk) {
    && FilesOk(d)
    && Backed(d)
    && OrphansEmpty(d)
    && ChainsAgree(d)
  }

  ghost predicate Inv(w: World) {
    DiskInv(w.disk) && CallsOk(w)
  }
}
