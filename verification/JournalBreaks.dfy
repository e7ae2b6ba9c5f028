/** What follows when the test that the heir's recheck omits would have refused: the chain guarantee can be broken. */
module JournalBreaks {
  import opened Basics
  import opened Journals
  import opened JournalSteps
  import opened JournalRuns
  import opened JournalReads

  // ---- Two chains joined by a retirement ----

  ghost predicate AllIn(d: Disk, c: seq<Path>) {
    forall i :: 0 <= i < |c| ==> c[i] in d
  }

  /** The links of the two chains stay, and the two records of the retirement are there. */
  ghost predicate Joins(d: Disk, d': Disk, c: seq<Path>, a: seq<Path>)
    requires c != [] && a != []
  {
    && AllIn(d, c) && AllIn(d, a) && AllIn(d', c) && AllIn(d', a)
    && (forall i :: 0 <= i < |c| - 1 ==> d'[c[i]].follows == d[c[i]].follows)
    && (forall i :: 1 <= i < |c| ==> d'[c[i]].retired == d[c[i]].retired)
    && (forall i :: 0 <= i < |a| ==> d'[a[i]].follows == d[a[i]].follows)
    && (forall i :: 1 <= i < |a| ==> d'[a[i]].retired == d[a[i]].retired)
    && d'[Last(c)].follows == Some(a[0])
    && d'[a[0]].retired == Some(Last(c))
  }

  /** Joining two verified chains by the two records of a retirement gives one. */
  lemma Joined(d: Disk, d': Disk, c: seq<Path>, a: seq<Path>)
    requires IsChain(d, c) && IsChain(d, a) && Joins(d, d', c, a)
    ensures IsChain(d', c + a) && Last(c + a) == Last(a)
  {
    var w := c + a;
    assert AllIn(d', w);
    forall i | 1 <= i < |w| ensures d'[w[i]].retired == Some(w[i - 1]) {
      if i < |c| { ChainLink(d, c, i); } else if i > |c| { ChainLink(d, a, i - |c|); }
    }
    forall i | 0 <= i < |w| - 1 ensures d'[w[i]].follows == Some(w[i + 1]) {
      if i < |c| - 1 { ChainLink(d, c, i + 1); } else if i >= |c| { ChainLink(d, a, i - |c| + 1); }
    }
    ChainTail(d, a, |a| - 1);
    hide IsChain;
    LinksMakeChain(d', w);
  }

  /** Both journals hold what they hold in one chain. */
  lemma BothHeld(d: Disk, c: seq<Path>, a: seq<Path>, k: nat, x: OperationId, y: OperationId)
    requires c != [] && k < |a| && IsChain(d, c + a) && c[0] in d && a[k] in d
    requires x in d[c[0]].intents && y in d[a[k]].intents
    ensures HeldBy(d, Last(a), c[0], x) && HeldBy(d, Last(a), a[k], y)
  {
    var w := c + a;
    assert Last(w) == Last(a) && w[|c| + k..] == a[k..] && a[k..][0] == a[k];
    ChainTail(d, w, |c| + k);
    hide IsChain;
    assert ChainFrom(d, w, c[0]);
    assert ChainFrom(d, w[|c| + k..], a[k]);
  }

  /** After the heir's record and the journal's own, their chains are joined, whatever rows were written meanwhile. */
  lemma RetirementJoins(d: Disk, d': Disk, c: seq<Path>, a: seq<Path>)
    requires IsChain(d, c) && IsChain(d, a) && a[0] in d && d[a[0]].retired == None && c[0] != a[0] && Last(c) !in a
    requires d'.Keys == d.Keys
    requires forall q :: q in d && q != Last(c) ==> d'[q].follows == d[q].follows
    requires forall q :: q in d && q != a[0] ==> d'[q].retired == d[q].retired
    requires Last(c) in d && d'[Last(c)].follows == Some(a[0]) && d'[a[0]].retired == Some(Last(c))
    ensures IsChain(d', c + a) && Last(c + a) == Last(a)
  {
    ChainPlaces(d, c);
    ChainPlaces(d, a);
    hide IsChain;
    assert forall i :: 1 <= i < |c| ==> c[i] != a[0];
    assert forall i :: 0 <= i < |a| ==> a[i] in a;
    Joined(d, d', c, a);
  }

  /** The members of a verified chain are distinct, and all but the newest are retired. */
  lemma ChainPlaces(d: Disk, c: seq<Path>)
    requires IsChain(d, c)
    ensures AllIn(d, c)
    ensures forall i :: 0 <= i < |c| - 1 ==> c[i] != Last(c)
    ensures forall i :: 1 <= i < |c| ==> d[c[i]].retired.Some? && c[i] != c[0]
  {
    forall i | 0 <= i < |c| ensures c[i] in d && (i < |c| - 1 ==> c[i] != Last(c)) && (i >= 1 ==> d[c[i]].retired.Some? && c[i] != c[0]) {
      ChainMember(d, c, i);
      if i < |c| - 1 { ChainDistinct(d, c, i, |c| - 1); }
      if i >= 1 {
        ChainLink(d, c, i);
        ChainDistinct(d, c, 0, i);
      }
    }
  }

  /** A chain whose root is not on another one starts elsewhere, too. */
  lemma RootApart(d: Disk, c: seq<Path>, a: seq<Path>)
    requires IsChain(d, c) && IsChain(d, a) && Last(c) !in a
    ensures c[0] !in a
  {
    if c[0] in a {
      var i :| 0 <= i < |a| && a[i] == c[0];
      ChainTail(d, a, i);
      ChainUnique(d, a[i..], c);
    }
  }

  // ---- An unclear heir ----

  ghost predicate Leads(w: World, acts: seq<Action>, w': World)
    decreases |acts|
  {
    if acts == [] then w == w'
    else Enabled(w, acts[0]) && Leads(Apply(w, acts[0]), acts[1..], w')
  }

  lemma TwoSteps(w: World, x: Action, m: World, y: Action, w': World)
    requires Next(w, x, m) && Next(m, y, w')
    ensures Leads(w, [x, y], w')
  {
    hide Enabled, Apply;
    assert [x, y][1..] == [y] && [y][1..] == [];
    assert Leads(w', [], w');
    assert Leads(m, [y], w');
  }

  lemma ThreeSteps(w: World, x: Action, m: World, acts: seq<Action>, w': World)
    requires Next(w, x, m) && Leads(m, acts, w')
    ensures Leads(w, [x] + acts, w')
  {
    hide Enabled, Apply;
    assert ([x] + acts)[1..] == acts;
  }

  /** The two commits of a retirement whose heir has rows chained behind it, in a chain that holds one of their
      identifiers already: that chain now holds it twice. */
  lemma UnclearCloses(w: World, p: Path, heir: Path, c: seq<Path>, a: seq<Path>, k: nat, x: OperationId) returns (w': World)
    requires Enabled(w, LinkHeir(p, heir))
    requires IsChain(w.disk, c) && Last(c) == heir && IsChain(w.disk, a) && a[0] == p && heir !in a
    requires p in w.disk && w.disk[p].retired == None
    requires x in w.disk[c[0]].intents && k < |a| && a[k] in w.disk && x in w.disk[a[k]].intents
    ensures Leads(w, [LinkHeir(p, heir), CloseRetired(p, heir)], w')
    ensures HeldBy(w'.disk, Last(a), c[0], x) && HeldBy(w'.disk, Last(a), a[k], x)
  {
    RootApart(w.disk, c, a);
    var m := Apply(w, LinkHeir(p, heir));
    w' := Apply(m, CloseRetired(p, heir));
    TwoSteps(w, LinkHeir(p, heir), m, CloseRetired(p, heir), w');
    RetirementJoins(w.disk, w'.disk, c, a);
    hide IsChain;
    BothHeld(w'.disk, c, a, k, x, x);
  }

  /** A state in which a retirement claims an heir with a row chained behind it, while its own journal is open with
      room: a continuation ends with one identifier in two journals of one verified chain. */
  lemma UnclearHeirBreaks(w: World, p: Path, heir: Path, c: seq<Path>, a: seq<Path>, x: OperationId, task: TaskId)
      returns (acts: seq<Action>, w': World, q: Path)
    requires Enabled(w, LinkHeir(p, heir))
    requires IsChain(w.disk, c) && Last(c) == heir && c[0] in w.disk && x in w.disk[c[0]].intents
    requires Walks(w.disk, p, a) && heir !in a && p in w.disk
    requires w.disk[p].retired == None && HasRoom(w.disk[p], 1)
    requires forall j :: j in w.disk ==> forall o :: o in w.disk[j].intents ==> w.disk[j].intents[o].task != task
    ensures Leads(w, acts, w') && q != c[0]
    ensures HeldBy(w'.disk, Last(a), c[0], x) && HeldBy(w'.disk, Last(a), q, x)
  {
    RootApart(w.disk, c, a);
    if k :| 0 <= k < |a| && a[k] in w.disk && x in w.disk[a[k]].intents {
      q := a[k];
      w' := UnclearCloses(w, p, heir, c, a, k, x);
      acts := [LinkHeir(p, heir), CloseRetired(p, heir)];
    } else {
      var stage := Stage(p, x, task, 0, 1);
      StageFree(w, p, a, x, task);
      var m := Apply(w, stage);
      StagedLinks(w, p, x, task, c, a);
      q := p;
      w' := UnclearCloses(m, p, heir, c, a, 0, x);
      acts := [stage] + [LinkHeir(p, heir), CloseRetired(p, heir)];
      ThreeSteps(w, stage, m, [LinkHeir(p, heir), CloseRetired(p, heir)], w');
    }
  }

  lemma StageFree(w: World, p: Path, a: seq<Path>, x: OperationId, task: TaskId)
    requires Walks(w.disk, p, a) && p in w.disk && w.disk[p].retired == None && HasRoom(w.disk[p], 1)
    requires forall k :: 0 <= k < |a| && a[k] in w.disk ==> x !in w.disk[a[k]].intents
    requires forall j :: j in w.disk ==> forall o :: o in w.disk[j].intents ==> w.disk[j].intents[o].task != task
    ensures Enabled(w, Stage(p, x, task, 0, 1)) && !Restaged(w.disk[p], x, task, 0)
  {
    assert a[0] == p;
    assert NoneTaken(w.disk, a[1..], x, task);
    assert Admits(w.disk, p, x, task);
  }

  /** Staging a row leaves every link, call and other journal as it is. */
  lemma StagedLinks(w: World, p: Path, x: OperationId, task: TaskId, c: seq<Path>, a: seq<Path>)
    requires Enabled(w, Stage(p, x, task, 0, 1)) && !Restaged(w.disk[p], x, task, 0)
    requires IsChain(w.disk, c) && IsChain(w.disk, a)
    ensures var m := Apply(w, Stage(p, x, task, 0, 1));
            && IsChain(m.disk, c) && IsChain(m.disk, a) && m.calls == w.calls
            && m.disk.Keys == w.disk.Keys && x in m.disk[p].intents && m.disk[p].retired == w.disk[p].retired
            && forall q :: q in w.disk && q != p ==> m.disk[q] == w.disk[q]
  {
    var m := Apply(w, Stage(p, x, task, 0, 1));
    assert SameLinks(w.disk, m.disk);
    SameLinksSameChains(w.disk, m.disk, c);
    SameLinksSameChains(w.disk, m.disk, a);
  }
}
