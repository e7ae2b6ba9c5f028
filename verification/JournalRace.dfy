/** Why an heir must be fresh, and not only clear: a staging that has walked past it before it was claimed. */
module JournalRace {
  import opened Basics
  import opened Journals
  import opened JournalSteps
  import opened JournalRuns
  import opened JournalReads
  import opened JournalBreaks

  ghost predicate Reaches(h: Host, steps: seq<Step>, h': Host)
    decreases |steps|
  {
    if steps == [] then h == h'
    else Can(h, steps[0]) && Reaches(Do(h, steps[0]), steps[1..], h')
  }

  lemma {:induction false} OneMore(h: Host, steps: seq<Step>, m: Host, s: Step)
    requires Reaches(h, steps, m) && Can(m, s)
    ensures Reaches(h, steps + [s], Do(m, s))
    decreases |steps|
  {
    hide Can, Do;
    if steps == [] {
      assert [s][1..] == [];
      assert Reaches(Do(m, s), [], Do(m, s));
    } else {
      OneMore(Do(h, steps[0]), steps[1..], m, s);
      assert (steps + [s])[1..] == steps[1..] + [s];
    }
  }

  /** The operation and the task are in no row of the disk. */
  ghost predicate Unused(d: Disk, op: OperationId, task: TaskId) {
    forall j :: j in d ==> op !in d[j].intents && forall o :: o in d[j].intents ==> d[j].intents[o].task != task
  }

  function Read(h: Host, p: Path, st: Staging): Host { h.(stagings := h.stagings[p := st]) }

  /** A staging can walk any verified chain within the bound, link by link. */
  lemma {:induction false} WalkRead(h: Host, c: seq<Path>, op: OperationId, task: TaskId, k: nat) returns (steps: seq<Step>)
    requires c != [] && Walks(h.world.disk, c[0], c) && 1 <= k <= |c|
    requires c[0] !in h.stagings && h.world.disk[c[0]].retired == None && !Taken(h.world.disk[c[0]], op, task)
    requires c[k - 1] in h.world.disk
    ensures Reaches(h, steps, Read(h, c[0], Staging(op, task, 0, 1, c[..k], h.world.disk[c[k - 1]].follows, 1)))
  {
    var d := h.world.disk;
    var m := Read(h, c[0], Staging(op, task, 0, 1, c[..k], d[c[k - 1]].follows, 1));
    if k == 1 {
      var s := BeginStage(c[0], op, task, 0, 1);
      assert c[..1] == [c[0]];
      steps := [s];
      assert Reaches(h, [], h);
      OneMore(h, [], h, s);
      assert [] + [s] == [s];
    } else {
      ChainLink(d, c, k - 1);
      steps := WalkRead(h, c, op, task, k - 1);
      var before := Read(h, c[0], Staging(op, task, 0, 1, c[..k - 1], d[c[k - 2]].follows, 1));
      forall i | 0 <= i < k - 1 ensures c[i] != c[k - 1] { ChainDistinct(d, c, i, k - 1); }
      assert c[..k - 1] + [c[k - 1]] == c[..k];
      assert Last(c[..k - 1]) == c[k - 2];
      assert Can(before, ReadLink(c[0])) && Do(before, ReadLink(c[0])) == m;
      OneMore(h, steps, before, ReadLink(c[0]));
      steps := steps + [ReadLink(c[0])];
    }
  }

  /** And then find every journal of it free of an unused operation and task. */
  lemma {:induction false} RowsRead(h: Host, c: seq<Path>, op: OperationId, task: TaskId, k: nat) returns (steps: seq<Step>)
    requires c != [] && Walks(h.world.disk, c[0], c) && 1 <= k <= |c|
    requires c[0] !in h.stagings && h.world.disk[c[0]].retired == None && Unused(h.world.disk, op, task)
    ensures Reaches(h, steps, Read(h, c[0], Staging(op, task, 0, 1, c, None, k)))
  {
    var d := h.world.disk;
    if k == 1 {
      ChainTail(d, c, |c| - 1);
      assert |c[|c| - 1..]| == 1 && c[|c| - 1..][0] == c[|c| - 1] && c[..|c|] == c;
      assert d[c[|c| - 1]].follows == None;
      steps := WalkRead(h, c, op, task, |c|);
    } else {
      steps := RowsRead(h, c, op, task, k - 1);
      var before := Read(h, c[0], Staging(op, task, 0, 1, c, None, k - 1));
      ChainMember(d, c, k - 1);
      OneMore(h, steps, before, ReadRows(c[0]));
      assert Do(before, ReadRows(c[0])) == Read(h, c[0], Staging(op, task, 0, 1, c, None, k));
      steps := steps + [ReadRows(c[0])];
    }
  }

  // ---- Longer continuations ----

  lemma {:induction false} Then(h: Host, xs: seq<Step>, m: Host, ys: seq<Step>, h': Host)
    requires Reaches(h, xs, m) && Reaches(m, ys, h')
    ensures Reaches(h, xs + ys, h')
    decreases |xs|
  {
    hide Can, Do;
    if xs == [] {
      assert xs + ys == ys;
    } else {
      Then(Do(h, xs[0]), xs[1..], m, ys, h');
      assert (xs + ys)[1..] == xs[1..] + ys;
    }
  }

  function StagedRow(task: TaskId): Intent { Intent(task, 0, 1, Prepared, None) }

  function ReservedRow(task: TaskId): Intent { Intent(task, 0, 1, Uncertain, Some(0)) }

  function WithReserved(j: Journal, op: OperationId, task: TaskId): Journal {
    j.(intents := j.intents[op := ReservedRow(task)], scopeBytes := j.scopeBytes + 1)
  }

  function Put(h: Host, p: Path, j: Journal): Host { h.(world := h.world.(disk := h.world.disk[p := j])) }

  /** A staging that has read everything commits, and its operation is reserved at once. */
  lemma CommitAndReserve(h: Host, c: seq<Path>, op: OperationId, task: TaskId) returns (steps: seq<Step>)
    requires c != [] && c[0] in h.world.disk && HasRoom(h.world.disk[c[0]], 1)
    requires c[0] in h.stagings && h.stagings[c[0]] == Staging(op, task, 0, 1, c, None, |c|)
    ensures Reaches(h, steps, Put(h, c[0], WithReserved(h.world.disk[c[0]], op, task)).(stagings := h.stagings - {c[0]}))
  {
    var p, j := c[0], h.world.disk[c[0]];
    var staged := Do(h, CommitStage(p));
    var reserve := Whole(Reserve(p, op, 0, 0));
    assert staged.world.disk[p].intents[op] == StagedRow(task);
    assert j.intents[op := StagedRow(task)][op := ReservedRow(task)] == j.intents[op := ReservedRow(task)];
    var d := h.world.disk;
    assert d[p := staged.world.disk[p]][p := WithReserved(j, op, task)] == d[p := WithReserved(j, op, task)];
    assert Do(staged, reserve) == Put(h, p, WithReserved(j, op, task)).(stagings := h.stagings - {p});
    assert Reaches(staged, [], staged);
    OneMore(staged, [], staged, reserve);
    assert [] + [reserve] == [reserve] && [CommitStage(p), reserve][1..] == [reserve];
    steps := [CommitStage(p), reserve];
  }

  /** A whole reservation in an open journal with room, for an unused operation and task. */
  lemma ReservedHere(h: Host, a: seq<Path>, op: OperationId, task: TaskId) returns (steps: seq<Step>)
    requires a != [] && Walks(h.world.disk, a[0], a) && h.world.disk[a[0]].retired == None && HasRoom(h.world.disk[a[0]], 1)
    requires a[0] !in h.stagings && Unused(h.world.disk, op, task)
    ensures Reaches(h, steps, Put(h, a[0], WithReserved(h.world.disk[a[0]], op, task)))
  {
    var xs := RowsRead(h, a, op, task, |a|);
    var m := Read(h, a[0], Staging(op, task, 0, 1, a, None, |a|));
    var ys := CommitAndReserve(m, a, op, task);
    assert m.stagings - {a[0]} == h.stagings;
    steps := xs + ys;
    Then(h, xs, m, ys, Put(h, a[0], WithReserved(h.world.disk[a[0]], op, task)));
  }

  // ---- A retired heir ----

  function Claimed(h: Host, p: Path, heir: Path): Host
    requires p in h.world.disk && heir in h.world.disk
  {
    var d := h.world.disk;
    Host(World(h.world.family, d[heir := LinkedHeir(d[heir], p)][p := ClosedFor(d[p], heir)],
               h.world.calls - {Call(p, heir, false)} + {Call(p, heir, true)} - {Call(p, heir, true)}),
         h.stagings)
  }

  /** The two commits of the retirement, beside a staging of another journal. */
  lemma ClaimAndClose(h: Host, p: Path, heir: Path) returns (steps: seq<Step>)
    requires Can(h, Whole(LinkHeir(p, heir))) && p in h.world.disk && p != heir && h.world.disk[p].retired == None && p !in h.stagings
    ensures Reaches(h, steps, Claimed(h, p, heir))
  {
    var link, close := Whole(LinkHeir(p, heir)), Whole(CloseRetired(p, heir));
    var m := Do(h, link);
    assert m.world.disk[p] == h.world.disk[p];
    assert Reaches(h, [], h);
    OneMore(h, [], h, link);
    assert [] + [link] == [link];
    OneMore(h, [link], m, close);
    steps := [link] + [close];
  }

  /** Open to new admission, with room, and not locked by a staging. */
  ghost predicate Open(h: Host, p: Path) {
    p in h.world.disk && h.world.disk[p].retired == None && HasRoom(h.world.disk[p], 1) && p !in h.stagings
  }

  function WalkedOf(c: seq<Path>, x: OperationId, task: TaskId): Staging { Staging(x, task, 0, 1, c, None, |c|) }

  /** First the newest journal's staging reads everything; then the old journal reserves the same task. */
  function ReadAndReserved(h: Host, p: Path, c: seq<Path>, x: OperationId, y: OperationId, task: TaskId): Host
    requires c != [] && p in h.world.disk
  {
    Put(Read(h, c[0], WalkedOf(c, x, task)), p, WithReserved(h.world.disk[p], y, task))
  }

  lemma ReadThenReserve(h: Host, c: seq<Path>, a: seq<Path>, x: OperationId, y: OperationId, task: TaskId) returns (steps: seq<Step>)
    requires c != [] && a != [] && c[0] != a[0]
    requires Walks(h.world.disk, c[0], c) && Open(h, c[0]) && Walks(h.world.disk, a[0], a) && Open(h, a[0])
    requires Unused(h.world.disk, x, task) && Unused(h.world.disk, y, task)
    ensures Reaches(h, steps, ReadAndReserved(h, a[0], c, x, y, task))
  {
    hide HasRoom, Reaches, Walks;
    var s1 := RowsRead(h, c, x, task, |c|);
    var m := Read(h, c[0], WalkedOf(c, x, task));
    var s2 := ReservedHere(m, a, y, task);
    steps := s1 + s2;
    Then(h, s1, m, s2, ReadAndReserved(h, a[0], c, x, y, task));
  }

  /** Where the run ends: the old journal closed for the heir, and one more reservation behind it. */
  function Broken(h: Host, p: Path, heir: Path, z: Path, x: OperationId, task: TaskId): Host
    requires p in h.world.disk && heir in h.world.disk && z in h.world.disk
  {
    Put(Claimed(h, p, heir), z, WithReserved(h.world.disk[z], x, task)).(stagings := h.stagings - {z})
  }

  lemma ClaimThenCommit(h: Host, p: Path, heir: Path, c: seq<Path>, x: OperationId, task: TaskId) returns (steps: seq<Step>)
    requires Can(h, Whole(LinkHeir(p, heir))) && p in h.world.disk && h.world.disk[p].retired == None && p !in h.stagings
    requires c != [] && c[0] in h.world.disk && c[0] != p && c[0] != heir && p != heir && HasRoom(h.world.disk[c[0]], 1)
    requires c[0] in h.stagings && h.stagings[c[0]] == WalkedOf(c, x, task)
    ensures Reaches(h, steps, Broken(h, p, heir, c[0], x, task))
  {
    hide HasRoom, Reaches;
    var s1 := ClaimAndClose(h, p, heir);
    var m := Claimed(h, p, heir);
    assert m.world.disk[c[0]] == h.world.disk[c[0]];
    var s2 := CommitAndReserve(m, c, x, task);
    steps := s1 + s2;
    Then(h, s1, m, s2, Broken(h, p, heir, c[0], x, task));
  }

  /** A state in which a retirement claims an heir that has itself been retired, clear or not, while its own journal and
      the newest one chained behind the heir are open with room. A staging of that newest journal that has read its
      whole chain by then ends, together with one in the old journal, in two reservations of one task in one chain. */
  lemma RetiredHeirBreaks(h: Host, p: Path, heir: Path, c: seq<Path>, a: seq<Path>, x: OperationId, y: OperationId, task: TaskId)
      returns (steps: seq<Step>, h': Host)
    requires Can(h, Whole(LinkHeir(p, heir)))
    requires |c| >= 2 && Walks(h.world.disk, c[0], c) && Last(c) == heir && Open(h, c[0])
    requires Walks(h.world.disk, p, a) && heir !in a && Open(h, p)
    requires Unused(h.world.disk, x, task) && Unused(h.world.disk, y, task)
    ensures Reaches(h, steps, h') && c[0] != p
    ensures var d := h'.world.disk;
            && HeldBy(d, Last(a), c[0], x) && HeldBy(d, Last(a), p, y)
            && d[c[0]].intents[x] == d[p].intents[y] == ReservedRow(task)
  {
    RootApart(h.world.disk, c, a);
    ChainDistinct(h.world.disk, c, 0, |c| - 1);
    var m := ReadAndReserved(h, p, c, x, y, task);
    StillClaimable(h, p, heir, c, x, y, task);
    BrokenHolds(h, p, heir, c, a, x, y, task);
    h' := Broken(m, p, heir, c[0], x, task);
    var s1 := ReadThenReserve(h, c, a, x, y, task);
    hide *;
    var s2 := ClaimThenCommit(m, p, heir, c, x, task);
    steps := s1 + s2;
    Then(h, s1, m, s2, h');
  }

  lemma StillClaimable(h: Host, p: Path, heir: Path, c: seq<Path>, x: OperationId, y: OperationId, task: TaskId)
    requires Can(h, Whole(LinkHeir(p, heir))) && Open(h, p) && p != heir
    requires c != [] && Open(h, c[0]) && c[0] != p && c[0] != heir
    ensures var m := ReadAndReserved(h, p, c, x, y, task);
            && Can(m, Whole(LinkHeir(p, heir))) && p in m.world.disk && m.world.disk[p].retired == None && p !in m.stagings
            && c[0] in m.world.disk && HasRoom(m.world.disk[c[0]], 1)
            && c[0] in m.stagings && m.stagings[c[0]] == WalkedOf(c, x, task)
  {
    hide HasRoom;
  }

  /** The final state's one verified chain, and the two rows in it. */
  lemma BrokenHolds(h: Host, p: Path, heir: Path, c: seq<Path>, a: seq<Path>, x: OperationId, y: OperationId, task: TaskId)
    requires a != [] && p == a[0] && c != [] && c[0] != p && c[0] != heir && p != heir && heir in h.world.disk
    requires IsChain(h.world.disk, c) && Last(c) == heir && IsChain(h.world.disk, a) && heir !in a
    requires Open(h, c[0]) && Open(h, p)
    ensures var d := Broken(ReadAndReserved(h, p, c, x, y, task), p, heir, c[0], x, task).world.disk;
            && HeldBy(d, Last(a), c[0], x) && HeldBy(d, Last(a), p, y)
            && d[c[0]].intents[x] == d[p].intents[y] == ReservedRow(task)
  {
    hide HasRoom, IsChain;
    var d, d' := h.world.disk, Broken(ReadAndReserved(h, p, c, x, y, task), p, heir, c[0], x, task).world.disk;
    assert d'.Keys == d.Keys;
    assert d'[heir] == LinkedHeir(d[heir], p);
    assert d'[p] == ClosedFor(WithReserved(d[p], y, task), heir);
    assert d'[c[0]] == WithReserved(d[c[0]], x, task);
    RetirementJoins(d, d', c, a);
    BothHeld(d', c, a, 0, x, y);
  }
}
