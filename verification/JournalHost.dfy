/** The journals as the program drives them: each method is one transaction against the files on the host. */
module JournalHost {
  import opened Basics
  import opened Journals
  import opened JournalSteps

  /** Only journal `p` of the disk has changed. */
  predicate OthersKept(d: Disk, d': Disk, p: Path) {
    d'.Keys == d.Keys + {p} && forall q :: q in d && q != p ==> d'[q] == d[q]
  }

  /** Only the row of `op` has changed, and neither the size nor the links. */
  predicate RowsKept(j: Journal, j': Journal, op: OperationId) {
    && j'.intents.Keys == j.intents.Keys + {op}
    && (forall o :: o in j.intents && o != op ==> j'.intents[o] == j.intents[o])
    && j'.follows == j.follows && j'.retired == j.retired && j'.version == j.version
  }

  class Host {
    const family: Family
    var disk: Disk
    var calls: set<Call>

    ghost function Here(): World
      reads this
    {
      World(family, disk, calls)
    }

    constructor (family: Family)
      ensures this.family == family
      ensures Here() == World(family, map[], {})
    {
      this.family := family;
      disk := map[];
      calls := {};
    }

    method Create(p: Path) returns (ok: bool)
      modifies this
      ensures ok <==> Enabled(old(Here()), OpenJournal(p))
      ensures Here() == if ok then Apply(old(Here()), OpenJournal(p)) else old(Here())
      ensures ok ==> p !in old(disk) && OthersKept(old(disk), disk, p) && disk[p].intents == map[] && disk[p].follows == None && disk[p].retired == None
    {
      ok := p !in disk;
      if ok { disk := disk[p := FRESH]; }
    }

    /** The checked walk back: it answers exactly when the journal heads a verified chain within the bound. */
    method Predecessors(p: Path) returns (older: Option<seq<Path>>)
      requires p in disk
      ensures older.Some? ==> Walks(disk, p, [p] + older.value)
      ensures older.None? ==> forall c :: !Walks(disk, p, c)
    {
      var child, link := p, disk[p].follows;
      var seen, found: seq<Path> := {p}, [];
      WalkStarts(disk, p);
      assert [p] + found == [p];
      while link.Some?
        invariant OnTheWay(disk, p, [p] + found, child)
        invariant link == disk[child].follows && |found| <= CHAIN_LIMIT
        invariant forall q :: q in seen <==> q in [p] + found
        decreases CHAIN_LIMIT - |found|
      {
        var q := link.value;
        ghost var walked := [p] + found;
        if q in seen || |found| >= CHAIN_LIMIT || q !in disk || disk[q].retired != Some(child) {
          WalkRefuses(disk, p, walked, child, q);
          return None;
        }
        WalkAdvances(disk, p, walked, child, q);
        seen := seen + {q};
        found := found + [q];
        assert [p] + found == walked + [q];
        child, link := q, disk[q].follows;
      }
      WalkEnds(disk, p, [p] + found, child);
      older := Some(found);
    }

    /** Staging: restage what is held unchanged, or admit a new identifier under the chain's checks. */
    method StageScope(p: Path, op: OperationId, task: TaskId, sha: Digest, bytes: nat) returns (ok: bool)
      modifies this
      ensures ok <==> Enabled(old(Here()), Stage(p, op, task, sha, bytes))
      ensures Here() == if ok then Apply(old(Here()), Stage(p, op, task, sha, bytes)) else old(Here())
      ensures ok ==> p in disk && op in disk[p].intents && disk[p].intents[op].sha == sha && Live(disk[p].intents[op])
      ensures old(p in disk && op in disk[p].intents) ==>
                && disk == old(disk)
                && (old(disk[p].intents[op].sha) != sha || !old(Live(disk[p].intents[op])) ==> !ok)
      ensures old(p in disk && op in disk[p].intents) && bytes <= ScopeLimit(family) ==>
                var row := old(disk)[p].intents[op];
                (ok <==> row.sha == sha && Live(row)
                         && forall o :: o in disk[p].intents && o != op && Live(disk[p].intents[o]) ==> disk[p].intents[o].task != task)
      ensures bytes <= ScopeLimit(family) &&
              old(p in disk && disk[p].retired == None && disk[p].follows == None && !Taken(disk[p], op, task) && HasRoom(disk[p], bytes)) ==>
                ok
      ensures ok && old(op !in disk[p].intents) ==>
                && OthersKept(old(disk), disk, p) && RowsKept(old(disk)[p], disk[p], op)
                && disk[p].intents[op] == Intent(task, sha, bytes, Prepared, None) && disk[p].retired == None
                && (forall o :: o in old(disk)[p].intents && old(disk)[p].intents[o].task == task ==> old(disk)[p].intents[o].state == Withdrawn)
                && |old(disk)[p].intents| < MAX_RECORDS
                && disk[p].scopeBytes == old(disk)[p].scopeBytes + bytes <= MAX_TOTAL_SCOPE_BYTES
    {
      if p !in disk || bytes > ScopeLimit(family) { return false; }
      if disk[p].retired == None && disk[p].follows == None { AloneAdmits(disk, p, op, task); }
      var j := disk[p];
      if Taken(j, op, task) {
        ok := Restaged(j, op, task, sha);
        return;
      }
      var admitted := CheckAdmission(p, op, task);
      if !admitted || |j.intents| >= MAX_RECORDS || bytes > MAX_TOTAL_SCOPE_BYTES - j.scopeBytes { return false; }
      disk := disk[p := StagedIn(j, op, task, sha, bytes)];
      ok := true;
    }

    method CheckAdmission(p: Path, op: OperationId, task: TaskId) returns (ok: bool)
      requires p in disk
      ensures ok <==> Admits(disk, p, op, task)
    {
      if disk[p].retired.Some? { return false; }
      var older := Predecessors(p);
      if older.None? { return false; }
      ghost var walked := [p] + older.value;
      assert walked[1..] == older.value;
      ChainMembers(disk, walked);
      var i := 0;
      while i < |older.value|
        invariant 0 <= i <= |older.value|
        invariant forall k :: 0 <= k < i ==> older.value[k] in disk && !Taken(disk[older.value[k]], op, task)
      {
        assert older.value[i] == walked[i + 1];
        if Taken(disk[older.value[i]], op, task) {
          OnlyOneWalk(disk, p, walked, op, task, i);
          return false;
        }
        i := i + 1;
      }
      assert NoneTaken(disk, walked[1..], op, task);
      ok := true;
    }

    /** Consume the one attempt. */
    method ReserveSlot(p: Path, op: OperationId, sha: Digest, at: Time) returns (ok: bool)
      modifies this
      ensures ok <==> Enabled(old(Here()), Reserve(p, op, sha, at))
      ensures Here() == if ok then Apply(old(Here()), Reserve(p, op, sha, at)) else old(Here())
      ensures ok ==>
                && old(p in disk && op in disk[p].intents) && OthersKept(old(disk), disk, p) && RowsKept(old(disk)[p], disk[p], op)
                && var row := old(disk)[p].intents[op];
                   row.state == Prepared && row.sha == sha && disk[p].intents[op] == Intent(row.task, sha, row.bytes, Uncertain, Some(at))
    {
      if p !in disk || op !in disk[p].intents { return false; }
      var row := disk[p].intents[op];
      if row.sha != sha || row.state != Prepared { return false; }
      row := row.(state := Uncertain, reservedAt := Some(at));
      disk := disk[p := WithRow(disk[p], op, row)];
      ok := true;
    }

    /** Release the task but not the attempt. */
    method WithdrawOperation(p: Path, op: OperationId, sha: Digest) returns (ok: bool)
      modifies this
      ensures ok <==> Enabled(old(Here()), Withdraw(p, op, sha))
      ensures Here() == if ok then Apply(old(Here()), Withdraw(p, op, sha)) else old(Here())
      ensures ok ==>
                && old(p in disk && op in disk[p].intents) && OthersKept(old(disk), disk, p) && RowsKept(old(disk)[p], disk[p], op)
                && var row := old(disk)[p].intents[op];
                   && row.state == Prepared && row.sha == sha
                   && disk[p].intents[op] == Intent(row.task, sha, row.bytes, Withdrawn, row.reservedAt)
                   && disk[p].withdrawals == old(disk)[p].withdrawals[op := sha]
    {
      if p !in disk || disk[p].version != 3 || op !in disk[p].intents { return false; }
      var row := disk[p].intents[op];
      if row.state != Prepared || row.sha != sha { return false; }
      var j := disk[p].(withdrawals := disk[p].withdrawals[op := sha]);
      disk := disk[p := WithRow(j, op, row.(state := Withdrawn))];
      ok := true;
    }

    method UpgradeSchema(p: Path) returns (ok: bool)
      modifies this
      ensures ok <==> Enabled(old(Here()), Upgrade(p))
      ensures Here() == if ok then Apply(old(Here()), Upgrade(p)) else old(Here())
      ensures ok ==> old(p in disk) && OthersKept(old(disk), disk, p) && disk[p] == old(disk)[p].(version := 3)
    {
      ok := p in disk && disk[p].version < 3;
      if ok { disk := disk[p := disk[p].(version := 3)]; }
    }

    /** The checks `retire` makes before it opens the heir. */
    method BeginRetirement(p: Path, heir: Path) returns (ok: bool)
      modifies this
      ensures ok <==> Enabled(old(Here()), BeginRetire(p, heir))
      ensures Here() == if ok then Apply(old(Here()), BeginRetire(p, heir)) else old(Here())
      ensures ok ==> disk == old(disk) && p in disk && disk[p].retired == None && heir !in disk && p != heir
    {
      ok := p in disk && p != heir && disk[p].retired == None && heir !in disk;
      if ok { calls := calls + {Call(p, heir, false)}; }
    }

    /** First commit: the heir names its predecessor. */
    method ClaimHeir(p: Path, heir: Path) returns (ok: bool)
      modifies this
      ensures ok <==> Enabled(old(Here()), LinkHeir(p, heir))
      ensures Here() == if ok then Apply(old(Here()), LinkHeir(p, heir)) else old(Here())
      ensures ok ==>
                && old(heir in disk && disk[heir].intents == map[] && disk[heir].follows == None) && OthersKept(old(disk), disk, heir)
                && disk[heir].follows == Some(p) && disk[heir].intents == map[] && disk[heir].retired == old(disk)[heir].retired
    {
      if Call(p, heir, false) !in calls || heir !in disk { return false; }
      if disk[heir].intents != map[] || disk[heir].follows.Some? { return false; }
      disk := disk[heir := disk[heir].(version := Installed(disk[heir].version), follows := Some(p))];
      calls := calls - {Call(p, heir, false)} + {Call(p, heir, true)};
      ok := true;
    }

    /** Second commit: the predecessor closes and names its heir. */
    method CloseJournal(p: Path, heir: Path) returns (ok: bool)
      modifies this
      ensures ok <==> Enabled(old(Here()), CloseRetired(p, heir))
      ensures Here() == if ok then Apply(old(Here()), CloseRetired(p, heir)) else old(Here())
      ensures ok ==>
                && old(p in disk && disk[p].retired == None) && OthersKept(old(disk), disk, p)
                && disk[p].retired == Some(heir) && disk[p].follows == old(disk)[p].follows && disk[p].intents == old(disk)[p].intents
    {
      if Call(p, heir, true) !in calls || p !in disk || disk[p].retired.Some? { return false; }
      disk := disk[p := disk[p].(version := Installed(disk[p].version), retired := Some(heir))];
      calls := calls - {Call(p, heir, true)};
      ok := true;
    }
  }

  /** An open journal that follows nobody has no predecessor to ask. */
  lemma AloneAdmits(d: Disk, p: Path, op: OperationId, task: TaskId)
    requires p in d && d[p].retired == None && d[p].follows == None
    ensures Admits(d, p, op, task)
  {
    assert Walks(d, p, [p]) && NoneTaken(d, [p][1..], op, task);
  }

  /** A verified chain that starts with what was walked goes on with the journal its last member follows. */
  lemma Continues(d: Disk, c: seq<Path>, walked: seq<Path>, child: Path, q: Path)
    requires IsChain(d, c) && |walked| > 0 && child == Last(walked)
    requires |c| >= |walked| && c[..|walked|] == walked
    requires child in d && d[child].follows == Some(q)
    ensures |c| > |walked| && c[|walked|] == q && q !in walked && Linked(d, child, q)
    ensures c[..|walked| + 1] == walked + [q]
  {
    var n := |walked|;
    assert c[n - 1] == walked[n - 1];
    ChainTail(d, c, n - 1);
    assert |c[n - 1..]| > 1;
    ChainLink(d, c, n);
    if q in walked {
      var i :| 0 <= i < n && walked[i] == q;
      assert c[i] == walked[i];
      ChainDistinct(d, c, i, n);
    }
  }

  /** The walk so far: every verified chain of the journal begins with it, and any chain of its end completes it. */
  ghost predicate OnTheWay(d: Disk, p: Path, walked: seq<Path>, child: Path) {
    && |walked| > 0
    && child == Last(walked)
    && child in d
    && (forall c :: ChainFrom(d, c, p) ==> |c| >= |walked| && c[..|walked|] == walked)
    && (forall t :: ChainFrom(d, t, child) ==> ChainFrom(d, walked[..|walked| - 1] + t, p))
  }

  lemma WalkStarts(d: Disk, p: Path)
    requires p in d
    ensures OnTheWay(d, p, [p], p)
  {
    forall t | ChainFrom(d, t, p) ensures ChainFrom(d, [p][..0] + t, p) { assert [p][..0] + t == t; }
  }

  lemma WalkRefuses(d: Disk, p: Path, walked: seq<Path>, child: Path, q: Path)
    requires OnTheWay(d, p, walked, child) && d[child].follows == Some(q)
    requires q in walked || |walked| > CHAIN_LIMIT || q !in d || d[q].retired != Some(child)
    ensures forall c :: !Walks(d, p, c)
  {
    forall c ensures !Walks(d, p, c) {
      if Walks(d, p, c) { Continues(d, c, walked, child, q); }
    }
  }

  lemma WalkAdvances(d: Disk, p: Path, walked: seq<Path>, child: Path, q: Path)
    requires OnTheWay(d, p, walked, child) && Linked(d, child, q)
    ensures OnTheWay(d, p, walked + [q], q)
  {
    var longer := walked + [q];
    forall c | ChainFrom(d, c, p) ensures |c| >= |longer| && c[..|longer|] == longer {
      Continues(d, c, walked, child, q);
    }
    forall t | ChainFrom(d, t, q) ensures ChainFrom(d, longer[..|walked|] + t, p) {
      var extended := [child] + t;
      assert extended[1..] == t;
      assert ChainFrom(d, extended, child);
      assert walked[..|walked| - 1] + extended == longer[..|walked|] + t;
    }
  }

  lemma WalkEnds(d: Disk, p: Path, walked: seq<Path>, child: Path)
    requires OnTheWay(d, p, walked, child) && d[child].follows == None
    ensures ChainFrom(d, walked, p)
  {
    assert ChainFrom(d, [child], child);
    assert walked[..|walked| - 1] + [child] == walked;
  }

  lemma OnlyOneWalk(d: Disk, p: Path, c: seq<Path>, op: OperationId, task: TaskId, i: nat)
    requires Walks(d, p, c) && i + 1 < |c| && c[i + 1] in c[1..] && c[i + 1] in d && Taken(d[c[i + 1]], op, task)
    ensures !Admits(d, p, op, task)
  {
    if Admits(d, p, op, task) {
      var c0 :| Walks(d, p, c0) && NoneTaken(d, c0[1..], op, task);
      ChainUnique(d, c, c0);
    }
  }
}
