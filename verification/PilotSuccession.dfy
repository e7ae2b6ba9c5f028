/** Pilot journals that continue one another, and the two walks that verify each link as they follow it. */
module PilotSuccession {
  import opened Basics

  type Path = nat

  const BOUND: nat := 64

  /** The successor a journal was retired to, and the predecessor it names. */
  datatype Journal = Journal(rows: nat, retired: Option<Path>, follows: Option<Path>)

  type Disk = map<Path, Journal>

  predicate Linked(d: Disk, p: Path, q: Path) {
    p in d && q in d && d[p].retired == Some(q) && d[q].follows == Some(p)
  }

  predicate Distinct(ps: seq<Path>) {
    forall i, j :: 0 <= i < j < |ps| ==> ps[i] != ps[j]
  }

  predicate Path'(d: Disk, ps: seq<Path>) {
    && ps != []
    && Distinct(ps)
    && forall i :: 0 <= i < |ps| - 1 ==> Linked(d, ps[i], ps[i + 1])
  }

  /** Oldest first, to a journal with no successor. A journal that does not exist yet is its own end. */
  predicate IsForward(d: Disk, ps: seq<Path>) {
    && Path'(d, ps)
    && (ps[|ps| - 1] in d ==> d[ps[|ps| - 1]].retired == None)
  }

  function Reverse(ps: seq<Path>): (r: seq<Path>)
    ensures |r| == |ps| && forall i :: 0 <= i < |ps| ==> r[i] == ps[|ps| - 1 - i]
  {
    seq(|ps|, i requires 0 <= i < |ps| => ps[|ps| - 1 - i])
  }

  /** Newest first, to a journal that names no predecessor. */
  predicate IsBackward(d: Disk, qs: seq<Path>) {
    && Path'(d, Reverse(qs))
    && qs[|qs| - 1] in d && d[qs[|qs| - 1]].follows == None
  }

  // ---- A walk is determined by where it starts ----

  lemma {:induction false} SamePrefix(d: Disk, ps: seq<Path>, qs: seq<Path>, n: nat)
    requires Path'(d, ps) && Path'(d, qs) && ps[0] == qs[0] && n <= |ps| && n <= |qs|
    ensures ps[..n] == qs[..n]
  {
    if n > 1 {
      SamePrefix(d, ps, qs, n - 1);
      assert ps[n - 2] == ps[..n - 1][n - 2] == qs[n - 2];
      assert Linked(d, ps[n - 2], ps[n - 1]) && Linked(d, qs[n - 2], qs[n - 1]);
      assert ps[..n] == ps[..n - 1] + [ps[n - 1]] && qs[..n] == qs[..n - 1] + [qs[n - 1]];
    }
  }

  lemma ForwardUnique(d: Disk, ps: seq<Path>, qs: seq<Path>)
    requires IsForward(d, ps) && IsForward(d, qs) && ps[0] == qs[0]
    ensures ps == qs
  {
    var n := if |ps| <= |qs| then |ps| else |qs|;
    SamePrefix(d, ps, qs, n);
    assert ps[n - 1] == ps[..n][n - 1] == qs[n - 1];
    assert |ps| < |qs| ==> Linked(d, qs[n - 1], qs[n]);
    assert |qs| < |ps| ==> Linked(d, ps[n - 1], ps[n]);
    assert ps == ps[..n] && qs == qs[..n];
  }

  lemma {:induction false} SameSuffix(d: Disk, ps: seq<Path>, qs: seq<Path>, n: nat)
    requires Path'(d, Reverse(ps)) && Path'(d, Reverse(qs)) && ps[0] == qs[0] && n <= |ps| && n <= |qs|
    ensures ps[..n] == qs[..n]
  {
    if n > 1 {
      SameSuffix(d, ps, qs, n - 1);
      assert ps[n - 2] == ps[..n - 1][n - 2] == qs[n - 2];
      BackLink(d, ps, n - 2);
      BackLink(d, qs, n - 2);
      assert ps[..n] == ps[..n - 1] + [ps[n - 1]] && qs[..n] == qs[..n - 1] + [qs[n - 1]];
    }
  }

  lemma BackLink(d: Disk, qs: seq<Path>, i: nat)
    requires Path'(d, Reverse(qs)) && i + 1 < |qs|
    ensures Linked(d, qs[i + 1], qs[i])
  {
    assert Linked(d, Reverse(qs)[|qs| - 2 - i], Reverse(qs)[|qs| - 2 - i + 1]);
  }

  lemma BackwardUnique(d: Disk, ps: seq<Path>, qs: seq<Path>)
    requires IsBackward(d, ps) && IsBackward(d, qs) && ps[0] == qs[0]
    ensures ps == qs
  {
    var n := if |ps| <= |qs| then |ps| else |qs|;
    SameSuffix(d, ps, qs, n);
    assert ps[n - 1] == ps[..n][n - 1] == qs[n - 1];
    if |ps| < |qs| { BackLink(d, qs, n - 1); }
    if |qs| < |ps| { BackLink(d, ps, n - 1); }
    assert ps == ps[..n] && qs == qs[..n];
  }

  // ---- The two walks undo each other ----

  lemma ReverseTwice(ps: seq<Path>)
    ensures Reverse(Reverse(ps)) == ps
  {
  }

  /** From a journal that names no predecessor, walking back over a forward walk reverses it, and conversely. */
  lemma WalksReverse(d: Disk, ps: seq<Path>)
    requires ps != [] && ps[0] in d && d[ps[0]].follows == None
    requires ps[|ps| - 1] in d && d[ps[|ps| - 1]].retired == None
    ensures IsForward(d, ps) <==> IsBackward(d, Reverse(ps))
  {
    ReverseTwice(ps);
  }

  // ---- The walks themselves ----

  /** Extending a path by one verified link. */
  lemma Extend(d: Disk, ps: seq<Path>, q: Path)
    requires Path'(d, ps) && Linked(d, ps[|ps| - 1], q) && q !in ps
    ensures Path'(d, ps + [q])
  {
  }

  /** A longer path through the same start passes where a shorter one ends. */
  lemma Passes(d: Disk, ps: seq<Path>, qs: seq<Path>)
    requires Path'(d, ps) && IsForward(d, qs) && ps[0] == qs[0]
    requires ps[|ps| - 1] in d && d[ps[|ps| - 1]].retired.Some?
    ensures |ps| < |qs| && qs[|ps|] == d[ps[|ps| - 1]].retired.value && Linked(d, ps[|ps| - 1], qs[|ps|])
    ensures qs[|ps|] !in ps
  {
    var n := if |ps| <= |qs| then |ps| else |qs|;
    SamePrefix(d, ps, qs, n);
    assert ps[n - 1] == ps[..n][n - 1] == qs[n - 1];
    assert |qs| < |ps| ==> Linked(d, ps[n - 1], ps[n]);
    assert Linked(d, qs[n - 1], qs[n]);
    forall i | 0 <= i < |ps| ensures ps[i] != qs[n] { assert ps[i] == ps[..n][i] == qs[..n][i] == qs[i]; }
  }

  lemma PassesBack(d: Disk, ps: seq<Path>, qs: seq<Path>)
    requires Path'(d, Reverse(ps)) && IsBackward(d, qs) && ps[0] == qs[0]
    requires ps[|ps| - 1] in d && d[ps[|ps| - 1]].follows.Some?
    ensures |ps| < |qs| && qs[|ps|] == d[ps[|ps| - 1]].follows.value && Linked(d, qs[|ps|], ps[|ps| - 1])
    ensures qs[|ps|] !in ps
  {
    var n := if |ps| <= |qs| then |ps| else |qs|;
    SameSuffix(d, ps, qs, n);
    assert ps[n - 1] == ps[..n][n - 1] == qs[n - 1];
    if |qs| < |ps| { BackLink(d, ps, n - 1); }
    BackLink(d, qs, n - 1);
    forall i | 0 <= i < |ps| ensures ps[i] != qs[n] {
      assert ps[i] == ps[..n][i] == qs[..n][i] == qs[i];
      assert Reverse(qs)[|qs| - 1 - n] == qs[n] && Reverse(qs)[|qs| - 1 - i] == qs[i];
    }
  }

  lemma ExtendBack(d: Disk, ps: seq<Path>, q: Path)
    requires Path'(d, Reverse(ps)) && ps != [] && Linked(d, q, ps[|ps| - 1]) && q !in ps
    ensures Path'(d, Reverse(ps + [q]))
  {
    assert Reverse(ps + [q]) == [q] + Reverse(ps);
    assert Reverse(ps)[0] == ps[|ps| - 1];
  }

  /** `forward`: it ends on every graph, and succeeds exactly when the walk of at most 64 journals exists. */
  method Forward(d: Disk, root: Path) returns (walk: Option<seq<Path>>)
    ensures walk.Some? ==> IsForward(d, walk.value) && walk.value[0] == root && |walk.value| <= BOUND
    ensures walk.None? ==> forall ps :: IsForward(d, ps) && ps[0] == root ==> |ps| > BOUND
  {
    var roots: seq<Path>, cursor := [], root;
    while true
      invariant |roots| <= BOUND
      invariant roots != [] ==> Path'(d, roots) && roots[0] == root && Linked(d, roots[|roots| - 1], cursor)
      invariant roots == [] ==> cursor == root
      invariant forall ps :: IsForward(d, ps) && ps[0] == root ==> |roots| < |ps| && ps[|roots|] == cursor && cursor !in roots
      decreases BOUND - |roots|
    {
      if cursor in roots { return None; }
      if |roots| >= BOUND { return None; }
      if roots != [] { Extend(d, roots, cursor); }
      roots := roots + [cursor];
      if cursor !in d { return Some(roots); }
      if d[cursor].retired == None { return Some(roots); }
      var successor := d[cursor].retired.value;
      forall ps | IsForward(d, ps) && ps[0] == root
        ensures |roots| < |ps| && ps[|roots|] == successor && Linked(d, cursor, successor) && successor !in roots
      {
        Passes(d, roots, ps);
      }
      if successor !in d { return None; }
      if d[successor].follows != Some(cursor) { return None; }
      cursor := successor;
    }
  }

  /** `chain`: the same, from a journal back to its oldest predecessor. */
  method Chain(d: Disk, start: Path) returns (walk: Option<seq<Path>>)
    ensures walk.Some? ==> IsBackward(d, walk.value) && walk.value[0] == start && |walk.value| <= BOUND
    ensures walk.None? ==> forall qs :: IsBackward(d, qs) && qs[0] == start ==> |qs| > BOUND
  {
    var entries: seq<Path>, cursor := [], start;
    while true
      invariant |entries| <= BOUND
      invariant entries != [] ==> Path'(d, Reverse(entries)) && entries[0] == start && Linked(d, cursor, entries[|entries| - 1])
      invariant entries == [] ==> cursor == start
      invariant forall qs :: IsBackward(d, qs) && qs[0] == start ==>
                  |entries| < |qs| && qs[|entries|] == cursor && cursor !in entries
      decreases BOUND - |entries|
    {
      if cursor in entries { return None; }
      if |entries| >= BOUND { return None; }
      forall qs | IsBackward(d, qs) && qs[0] == start ensures cursor in d { InWalk(d, qs, |entries|); }
      if cursor !in d { return None; }
      if entries != [] { ExtendBack(d, entries, cursor); }
      entries := entries + [cursor];
      if d[cursor].follows == None { return Some(entries); }
      var previous := d[cursor].follows.value;
      forall qs | IsBackward(d, qs) && qs[0] == start
        ensures |entries| < |qs| && qs[|entries|] == previous && Linked(d, previous, cursor) && previous !in entries
      {
        PassesBack(d, entries, qs);
      }
      if previous !in d { return None; }
      if d[previous].retired != Some(cursor) { return None; }
      cursor := previous;
    }
  }

  lemma InWalk(d: Disk, qs: seq<Path>, i: nat)
    requires IsBackward(d, qs) && i < |qs|
    ensures qs[i] in d
  {
    if i + 1 < |qs| { BackLink(d, qs, i); }
  }

  /** Walking forward from a first journal and back from where it ended lists the same journals in reverse. The one
      exception is a journal not created yet, which is its own end but has no chain. */
  method ThereAndBack(d: Disk, root: Path) returns (there: Option<seq<Path>>, back: Option<seq<Path>>)
    requires root in d ==> d[root].follows == None
    ensures there.Some? ==> (back == Some(Reverse(there.value)) <==> root in d)
    ensures there.Some? && root !in d ==> there.value == [root] && back == None
  {
    there := Forward(d, root);
    back := None;
    if there.Some? {
      var ps := there.value;
      if |ps| > 1 { assert Linked(d, ps[|ps| - 2], ps[|ps| - 1]) && Linked(d, ps[0], ps[1]); }
      if root in d { WalksReverse(d, ps); }
      back := Chain(d, ps[|ps| - 1]);
      if back.Some? {
        InWalk(d, back.value, 0);
        if root in d { BackwardUnique(d, back.value, Reverse(ps)); }
      }
    }
  }

  // ---- Retirement: two commits in two journals ----

  /** A call of `retire` that has passed its checks, and one that has written the heir's record. */
  datatype Call = Call(journal: Path, heir: Path, linked: bool)

  /** `born` lists the journals in the order their files were created. */
  datatype World = World(disk: Disk, calls: set<Call>, born: seq<Path>)

  datatype Action =
    | OpenJournal(p: Path)
    | Prepare(p: Path)
    | BeginRetire(p: Path, heir: Path)
    | LinkHeir(p: Path, heir: Path)
    | CloseRetired(p: Path, heir: Path)
    | Interrupt(call: Call)

  predicate Enabled(w: World, a: Action) {
    match a
    case OpenJournal(p) => p !in w.disk
    case Prepare(p) => p in w.disk && w.disk[p].retired == None
    case BeginRetire(p, heir) => p in w.disk && w.disk[p].retired == None && heir !in w.disk
    case LinkHeir(p, heir) =>
      && Call(p, heir, false) in w.calls
      && (heir in w.disk ==> w.disk[heir].rows == 0 && w.disk[heir].follows == None)
    case CloseRetired(p, heir) => Call(p, heir, true) in w.calls && p in w.disk && w.disk[p].retired == None
    case Interrupt(call) => call in w.calls
  }

  function Apply(w: World, a: Action): World
    requires Enabled(w, a)
  {
    match a
    case OpenJournal(p) => w.(disk := w.disk[p := Journal(0, None, None)], born := w.born + [p])
    case Prepare(p) => w.(disk := w.disk[p := w.disk[p].(rows := w.disk[p].rows + 1)])
    case BeginRetire(p, heir) => w.(calls := w.calls + {Call(p, heir, false)})
    case LinkHeir(p, heir) =>
      var was := if heir in w.disk then w.disk[heir] else Journal(0, None, None);
      World(w.disk[heir := was.(follows := Some(p))],
            w.calls - {Call(p, heir, false)} + {Call(p, heir, true)},
            if heir in w.disk then w.born else w.born + [heir])
    case CloseRetired(p, heir) =>
      w.(disk := w.disk[p := w.disk[p].(retired := Some(heir))], calls := w.calls - {Call(p, heir, true)})
    case Interrupt(call) => w.(calls := w.calls - {call})
  }

  ghost predicate Run(ws: seq<World>, acts: seq<Action>) {
    && |ws| == |acts| + 1
    && ws[0] == World(map[], {}, [])
    && forall i :: 0 <= i < |acts| ==> Enabled(ws[i], acts[i]) && ws[i + 1] == Apply(ws[i], acts[i])
  }

  function Birth(born: seq<Path>, p: Path): (i: nat)
    requires p in born
    ensures i < |born| && born[i] == p
  {
    if born[0] == p then 0 else 1 + Birth(born[1..], p)
  }

  predicate BornBefore(born: seq<Path>, p: Path, q: Path) {
    p in born && q in born && Birth(born, p) < Birth(born, q)
  }

  ghost predicate BirthsOk(w: World) {
    && Distinct(w.born)
    && (forall p :: p in w.disk <==> p in w.born)
    && (forall q :: q in w.disk && w.disk[q].follows.Some? ==> BornBefore(w.born, w.disk[q].follows.value, q))
    && (forall c :: c in w.calls ==> c.journal in w.disk && (c.heir in w.disk ==> BornBefore(w.born, c.journal, c.heir)))
  }

  /** A retired journal always has somewhere to continue, whatever was interrupted. */
  ghost predicate BackedOk(w: World) {
    && (forall p :: p in w.disk && w.disk[p].retired.Some? ==> Linked(w.disk, p, w.disk[p].retired.value))
    && (forall c :: c in w.calls && c.linked ==> c.heir in w.disk && w.disk[c.heir].follows == Some(c.journal))
  }

  lemma {:induction false} BirthKept(born: seq<Path>, r: Path, p: Path)
    ensures p in born ==> Birth(born + [r], p) == Birth(born, p)
    ensures p == r && p !in born ==> Birth(born + [r], p) == |born|
  {
    if born != [] {
      BirthKept(born[1..], r, p);
      assert (born + [r])[1..] == born[1..] + [r];
    }
  }

  lemma BackedStep(w: World, a: Action)
    requires BackedOk(w) && BirthsOk(w) && Enabled(w, a)
    ensures BackedOk(Apply(w, a))
  {
  }

  /** A step either creates no file, or one that was not there. */
  lemma BornStep(w: World, a: Action)
    requires BirthsOk(w) && Enabled(w, a)
    ensures var w' := Apply(w, a);
            && (w'.born == w.born || (exists r :: r !in w.disk && w'.born == w.born + [r]))
            && (forall p :: p in w'.disk <==> p in w'.born)
            && Distinct(w'.born)
  {
    hide BornBefore;
    var w' := Apply(w, a);
    if w'.born != w.born {
      var r := if a.OpenJournal? then a.p else a.heir;
      assert r !in w.disk && w'.born == w.born + [r];
    }
  }

  lemma BirthsGrow(born: seq<Path>, r: Path)
    requires r !in born
    ensures forall p, q :: BornBefore(born, p, q) ==> BornBefore(born + [r], p, q)
    ensures forall p :: p in born ==> BornBefore(born + [r], p, r)
  {
    hide Birth;
    forall p, q | BornBefore(born, p, q) ensures BornBefore(born + [r], p, q) {
      BirthKept(born, r, p);
      BirthKept(born, r, q);
    }
    forall p | p in born ensures BornBefore(born + [r], p, r) {
      BirthKept(born, r, p);
      BirthKept(born, r, r);
    }
  }

  /** Who follows whom, and which calls are open, change only as the creation order allows. */
  lemma FollowsStep(w: World, a: Action)
    requires BirthsOk(w) && Enabled(w, a)
    ensures var w' := Apply(w, a);
            && (forall q :: q in w'.disk && w'.disk[q].follows.Some? ==>
                  (q in w.disk && w'.disk[q].follows == w.disk[q].follows)
                  || Call(w'.disk[q].follows.value, q, false) in w.calls)
            && (forall c :: c in w'.calls ==>
                  c in w.calls || Call(c.journal, c.heir, false) in w.calls || (c.journal in w.disk && c.heir !in w'.disk))
            && (forall p :: p in w.disk ==> p in w'.disk)
            && (forall q :: q in w'.disk && q !in w.disk ==> w'.born == w.born + [q])
            && (w'.born == w.born || (exists r :: w'.born == w.born + [r]))
  {
    hide BornBefore, Distinct;
  }

  /** The creation order never changes what it already says. */
  lemma OrderKept(w: World, a: Action, p: Path, q: Path)
    requires BirthsOk(w) && Enabled(w, a)
    ensures BornBefore(w.born, p, q) ==> BornBefore(Apply(w, a).born, p, q)
    ensures p in w.disk && q in Apply(w, a).disk && q !in w.disk ==> BornBefore(Apply(w, a).born, p, q)
  {
    BornStep(w, a);
    FollowsStep(w, a);
    hide Enabled, Apply, Birth;
    var born := Apply(w, a).born;
    if born != w.born {
      var r :| r !in w.disk && born == w.born + [r];
      BirthsGrow(w.born, r);
    }
  }

  lemma BirthsStep(w: World, a: Action)
    requires BirthsOk(w) && Enabled(w, a)
    ensures BirthsOk(Apply(w, a))
  {
    var w' := Apply(w, a);
    BornStep(w, a);
    FollowsStep(w, a);
    hide Enabled, Apply, Distinct, BornBefore;
    forall q | q in w'.disk && w'.disk[q].follows.Some? ensures BornBefore(w'.born, w'.disk[q].follows.value, q) {
      var p := w'.disk[q].follows.value;
      OrderKept(w, a, p, q);
      if !(q in w.disk && w.disk[q].follows == Some(p)) { assert Call(p, q, false) in w.calls; }
    }
    forall c | c in w'.calls ensures c.journal in w'.disk && (c.heir in w'.disk ==> BornBefore(w'.born, c.journal, c.heir)) {
      OrderKept(w, a, c.journal, c.heir);
      if c !in w.calls && Call(c.journal, c.heir, false) in w.calls {
        var b := Call(c.journal, c.heir, false);
        assert b.journal in w.disk;
      }
    }
  }

  lemma {:induction false} RunKeeps(ws: seq<World>, acts: seq<Action>, i: nat)
    requires Run(ws, acts) && i <= |acts|
    ensures BirthsOk(ws[i]) && BackedOk(ws[i])
  {
    if i > 0 {
      RunKeeps(ws, acts, i - 1);
      BirthsStep(ws[i - 1], acts[i - 1]);
      BackedStep(ws[i - 1], acts[i - 1]);
    }
  }

  /** Births only go forward along successors, so from any journal of any run there is a walk to an end. */
  lemma {:induction false} ForwardExists(w: World, p: Path) returns (ps: seq<Path>)
    requires BirthsOk(w) && BackedOk(w) && p in w.disk
    ensures IsForward(w.disk, ps) && ps[0] == p
    ensures forall i :: 1 <= i < |ps| ==> ps[i] in w.born && Birth(w.born, p) < Birth(w.born, ps[i])
    decreases |w.born| - Birth(w.born, p)
  {
    ps := [p];
    hide Birth;
    if w.disk[p].retired.Some? {
      var q := w.disk[p].retired.value;
      assert Linked(w.disk, p, q);
      assert BornBefore(w.born, p, q);
      var rest := ForwardExists(w, q);
      ps := [p] + rest;
      forall i | 0 <= i < |ps| - 1 ensures Linked(w.disk, ps[i], ps[i + 1]) {
        assert i > 0 ==> Linked(w.disk, rest[i - 1], rest[i]);
      }
    }
  }

  /** However retirements were interrupted, a walk forward is refused for its length alone. */
  lemma OnlyLengthRefuses(ws: seq<World>, acts: seq<Action>, i: nat, p: Path) returns (ps: seq<Path>)
    requires Run(ws, acts) && i <= |acts| && p in ws[i].disk
    ensures IsForward(ws[i].disk, ps) && ps[0] == p
  {
    RunKeeps(ws, acts, i);
    ps := ForwardExists(ws[i], p);
  }

  /** An heir that its predecessor does not name has no chain back, so it is never taken for a successor. */
  lemma OrphanHasNoChain(d: Disk, p: Path, heir: Path, qs: seq<Path>)
    requires heir in d && d[heir].follows == Some(p) && (p in d ==> d[p].retired != Some(heir))
    requires qs != [] && qs[0] == heir
    ensures !IsBackward(d, qs)
  {
    if IsBackward(d, qs) && |qs| > 1 { BackLink(d, qs, 0); }
  }

  class Host {
    var disk: Disk

    constructor ()
      ensures disk == map[]
    {
      disk := map[];
    }

    /** `retire`, which may die between its two commits. `nested` says that one directory is
        inside the other, and `settled` is what the journal's rows and the snapshot say. */
    method Retire(p: Path, heir: Path, nested: bool, settled: bool, dies: bool) returns (ok: bool)
      modifies this
      ensures var base := if p in old(disk) then old(disk) else old(disk)[p := Journal(0, None, None)];
              var passes := p != heir && !nested && settled && base[p].retired == None && heir !in base;
              && ok == (passes && !dies)
              && (!passes ==> disk == if p == heir || nested then old(disk) else base)
              && (passes && dies ==> disk == base[heir := Journal(0, None, Some(p))])
              && (ok ==> disk == base[heir := Journal(0, None, Some(p))][p := base[p].(retired := Some(heir))])
      ensures ok ==> forall ps :: IsForward(old(disk), ps) && ps[|ps| - 1] == p ==> IsForward(disk, ps + [heir])
    {
      if p == heir || nested { return false; }
      if p !in disk { disk := disk[p := Journal(0, None, None)]; }
      if disk[p].retired.Some? || !settled || heir in disk { return false; }
      ghost var base := disk;
      disk := disk[heir := Journal(0, None, Some(p))];
      if dies { return false; }
      disk := disk[p := disk[p].(retired := Some(heir))];
      ok := true;
      forall ps | IsForward(old(disk), ps) && ps[|ps| - 1] == p ensures IsForward(disk, ps + [heir]) {
        RetireExtends(old(disk), base, disk, ps, heir);
      }
    }
  }

  lemma RetireExtends(before: Disk, base: Disk, after: Disk, ps: seq<Path>, heir: Path)
    requires IsForward(before, ps) && heir !in base
    requires var p := ps[|ps| - 1];
             && p != heir
             && base == (if p in before then before else before[p := Journal(0, None, None)])
             && base[p].retired == None
             && after == base[heir := Journal(0, None, Some(p))][p := base[p].(retired := Some(heir))]
    ensures IsForward(after, ps + [heir])
  {
    var qs := ps + [heir];
    forall i | 0 <= i < |ps| - 1 ensures Linked(after, ps[i], ps[i + 1]) && ps[i] != heir {
      assert Linked(before, ps[i], ps[i + 1]);
    }
    assert Linked(after, ps[|ps| - 1], heir);
    assert forall i :: 0 <= i < |qs| - 1 ==> Linked(after, qs[i], qs[i + 1]);
  }
}
