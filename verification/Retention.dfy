/** Reclaiming a pilot's workspace: files first, directories from the deepest up, resumable after any crash. */
module Retention {
  import opened Basics
  import Pilots

  const LIVE_CAP: nat := 128
  const JOURNAL_CAP: nat := 1024

  type Id = nat
  type Hash = nat
  type Path = seq<nat>

  /** Regular files with their content, and the directories below the workspace. */
  datatype Workspace = Workspace(files: map<Path, Hash>, dirs: set<Path>)

  datatype Progress = Reclaiming | Reclaimed

  /** The durable intent: what was found before anything was deleted. */
  datatype Record = Record(progress: Progress, inventory: map<Path, Hash>)

  datatype Row = Row(status: Pilots.Status, revision: nat)

  /** What the review reads beside the journal's own row. */
  datatype Facts = Facts(bound: bool, taskTerminal: bool, dispatched: bool, unexpected: bool)

  /** Everything but the top lies in a directory that is there. */
  predicate Tree(w: Workspace) {
    && (forall p :: p in w.files ==> p != [] && p !in w.dirs && (|p| > 1 ==> p[..|p| - 1] in w.dirs))
    && (forall p :: p in w.dirs ==> p != [] && (|p| > 1 ==> p[..|p| - 1] in w.dirs))
  }

  predicate Holds(w: Workspace, d: Path) {
    (exists p :: p in w.files && |p| == |d| + 1 && p[..|d|] == d) || (exists p :: p in w.dirs && |p| == |d| + 1 && p[..|d|] == d)
  }

  /** What a partial deletion leaves: nothing new, nothing changed. */
  predicate Within(w: Workspace, of: Workspace) {
    && (forall p :: p in w.files ==> p in of.files && w.files[p] == of.files[p])
    && w.dirs <= of.dirs
  }

  predicate Recorded(w: Workspace, inventory: map<Path, Hash>) {
    forall p :: p in w.files ==> p in inventory && inventory[p] == w.files[p]
  }

  /** The reasons against reclamation, and the state that only a resumed one may find. */
  predicate Eligible(row: Row, record: Option<Record>, f: Facts) {
    && !(record.Some? && record.value.progress == Reclaimed)
    && (f.bound ==> f.taskTerminal)
    && (Pilots.Settled(row.status) || (row.status == Pilots.Prepared && f.bound && f.taskTerminal))
    && !f.dispatched
    && (f.unexpected ==> record.Some?)
  }

  predicate Descending(ds: seq<Path>) {
    forall i, j :: 0 <= i < j < |ds| ==> |ds[i]| >= |ds[j]|
  }

  ghost predicate Lists(xs: seq<Path>, s: set<Path>) {
    (forall x :: x in s <==> x in xs) && forall i, j :: 0 <= i < j < |xs| ==> xs[i] != xs[j]
  }

  /** The entries of a directory walk, in whatever order it finds them. */
  method Inventory(s: set<Path>) returns (xs: seq<Path>)
    ensures Lists(xs, s)
  {
    xs := [];
    var rest := s;
    while rest != {}
      invariant rest <= s && Lists(xs, s - rest)
      decreases |rest|
    {
      var x :| x in rest;
      assert x !in xs;
      rest := rest - {x};
      xs := xs + [x];
    }
    assert s - rest == s;
  }

  /** The deepest directories first. */
  method DeepestFirst(ds: seq<Path>, s: set<Path>) returns (sorted: seq<Path>)
    requires Lists(ds, s)
    ensures Lists(sorted, s) && Descending(sorted)
  {
    sorted := [];
    var done: set<Path> := {};
    for i := 0 to |ds|
      invariant Lists(sorted, done) && Descending(sorted)
      invariant forall x :: x in done <==> x in ds[..i]
    {
      var d := ds[i];
      assert d !in ds[..i];
      var k := 0;
      while k < |sorted| && |sorted[k]| >= |d|
        invariant 0 <= k <= |sorted| && forall j :: 0 <= j < k ==> |sorted[j]| >= |d|
      {
        k := k + 1;
      }
      InsertKeeps(sorted, done, k, d);
      sorted := sorted[..k] + [d] + sorted[k..];
      done := done + {d};
      assert ds[..i + 1] == ds[..i] + [d];
    }
    assert ds[..|ds|] == ds;
    assert done == s;
  }

  lemma InsertKeeps(xs: seq<Path>, s: set<Path>, k: nat, d: Path)
    requires Lists(xs, s) && Descending(xs) && k <= |xs| && d !in s
    requires forall j :: 0 <= j < k ==> |xs[j]| >= |d|
    requires k < |xs| ==> |xs[k]| < |d|
    ensures Lists(xs[..k] + [d] + xs[k..], s + {d}) && Descending(xs[..k] + [d] + xs[k..])
  {
    var ys := xs[..k] + [d] + xs[k..];
    assert forall i :: 0 <= i < |ys| ==> ys[i] == if i < k then xs[i] else if i == k then d else xs[i - 1];
    forall x ensures x in s + {d} <==> x in ys {
      if x in xs { var i :| 0 <= i < |xs| && xs[i] == x; assert ys[if i < k then i else i + 1] == x; }
      if x == d { assert ys[k] == x; }
    }
  }

  /** A prepared pilot is abandoned with its review; any other row stays as it is. */
  function Closed(row: Row): Row {
    if row.status == Pilots.Prepared then Row(Pilots.Abandoned, row.revision + 1) else row
  }

  lemma Rest(xs: seq<Path>, now: set<Path>, i: nat)
    requires i < |xs| && (forall j, k :: 0 <= j < k < |xs| ==> xs[j] != xs[k]) && forall p :: p in now <==> p in xs[i..]
    ensures xs[i] in now && forall p :: p in now - {xs[i]} <==> p in xs[i + 1..]
  {
    assert xs[i..] == [xs[i]] + xs[i + 1..];
    assert xs[i] !in xs[i + 1..];
  }

  lemma RestLength(xs: seq<Path>, now: set<Path>, i: nat)
    requires i <= |xs| && (forall j, k :: 0 <= j < k < |xs| ==> xs[j] != xs[k]) && forall p :: p in now <==> p in xs[i..]
    ensures |now| == |xs| - i
  {
    SameLength(xs[i..], now);
  }

  lemma UnlinkKeeps(w: Workspace, of: Workspace, p: Path)
    requires Tree(w) && Within(w, of)
    ensures Tree(w.(files := w.files - {p})) && Within(w.(files := w.files - {p}), of)
  {
  }

  lemma RemoveKeeps(w: Workspace, of: Workspace, d: Path)
    requires Tree(w) && Within(w, of) && !Holds(w, d)
    ensures Tree(w.(dirs := w.dirs - {d})) && Within(w.(dirs := w.dirs - {d}), of)
  {
    var w' := w.(dirs := w.dirs - {d});
    forall p | p in w'.files || p in w'.dirs ensures |p| > 1 ==> p[..|p| - 1] != d {
      assert |p| == |d| + 1 ==> p[..|p| - 1] == p[..|d|];
    }
  }

  lemma WithinAll(a: Workspace, b: Workspace, c: Workspace)
    requires Within(a, b) && Within(b, c)
    ensures Within(a, c)
  {
  }

  /** Unlink the files, as many as the process lives for. */
  method DeleteFiles(of: Workspace, files: seq<Path>, life: nat) returns (w: Workspace, left: nat, alive: bool)
    requires Tree(of) && Lists(files, of.files.Keys)
    ensures alive == (life >= |files|) && (alive ==> left == life - |files|)
    ensures Tree(w) && Within(w, of) && w.dirs == of.dirs && (alive ==> w.files == map[])
    ensures !alive ==> |w.files.Keys| == |files| - life
  {
    w, left, alive := of, life, true;
    for i := 0 to |files|
      invariant left == life - i && Tree(w) && Within(w, of) && w.dirs == of.dirs
      invariant forall p :: p in w.files <==> p in files[i..]
    {
      if left == 0 {
        RestLength(files, w.files.Keys, i);
        return w, 0, false;
      }
      Rest(files, w.files.Keys, i);
      UnlinkKeeps(w, of, files[i]);
      hide Tree, Within;
      w, left := w.(files := w.files - {files[i]}), left - 1;
    }
    assert w.files.Keys == {};
  }

  /** Remove the directories, each of which must be empty by then. */
  method DeleteDirectories(of: Workspace, dirs: seq<Path>, life: nat) returns (w: Workspace, left: nat, alive: bool)
    requires Tree(of) && of.files == map[] && Lists(dirs, of.dirs) && Descending(dirs)
    ensures alive == (life >= |dirs|) && (alive ==> left == life - |dirs|)
    ensures Tree(w) && Within(w, of) && (alive ==> w == Workspace(map[], {}))
    ensures w.files == map[] && (!alive ==> |w.dirs| == |dirs| - life)
  {
    w, left, alive := of, life, true;
    for i := 0 to |dirs|
      invariant left == life - i && Tree(w) && Within(w, of) && w.files == map[]
      invariant forall p :: p in w.dirs <==> p in dirs[i..]
    {
      if left == 0 {
        RestLength(dirs, w.dirs, i);
        return w, 0, false;
      }
      DeepestIsEmpty(w, dirs, i);
      assert !Holds(w, dirs[i]);
      Rest(dirs, w.dirs, i);
      RemoveKeeps(w, of, dirs[i]);
      hide Tree, Within, Holds;
      w, left := w.(dirs := w.dirs - {dirs[i]}), left - 1;
    }
    assert w.dirs == {};
  }

  /** The workspace after `life` deletions, or its complete removal. */
  method Delete(of: Workspace, life: nat) returns (w: Workspace, done: bool)
    requires Tree(of)
    ensures done == (life >= |of.files.Keys| + |of.dirs| + 1)
    ensures Tree(w) && Within(w, of)
    ensures done ==> w == Workspace(map[], {})
    ensures !done ==> |w.files.Keys| + |w.dirs| == |of.files.Keys| + |of.dirs| - life
    ensures w.files != map[] ==> w.dirs == of.dirs
  {
    var files := Inventory(of.files.Keys);
    var found := Inventory(of.dirs);
    var dirs := DeepestFirst(found, of.dirs);
    SameLength(files, of.files.Keys);
    SameLength(dirs, of.dirs);
    var left, alive;
    w, left, alive := DeleteFiles(of, files, life);
    if !alive { return w, false; }
    ghost var emptied := w;
    w, left, alive := DeleteDirectories(w, dirs, left);
    WithinAll(w, emptied, of);
    done := alive && left > 0;
  }

  /** The pilots whose workspace has not been reclaimed. */
  function LiveOf(rows: map<Id, Row>, records: map<Id, Record>): set<Id> {
    set i | i in rows && !(i in records && records[i].progress == Reclaimed)
  }

  predicate WithinCaps(rows: map<Id, Row>, records: map<Id, Record>) {
    |rows.Keys| <= JOURNAL_CAP && |LiveOf(rows, records)| <= LIVE_CAP
  }

  lemma CapsKept(rows: map<Id, Row>, records: map<Id, Record>, rows': map<Id, Row>, records': map<Id, Record>)
    requires WithinCaps(rows, records) && rows'.Keys == rows.Keys && LiveOf(rows', records') <= LiveOf(rows, records)
    ensures WithinCaps(rows', records')
  {
    assert LiveOf(rows, records) == LiveOf(rows', records') + (LiveOf(rows, records) - LiveOf(rows', records'));
  }

  lemma NewRow(rows: map<Id, Row>, records: map<Id, Record>, id: Id, row: Row)
    requires id !in rows
    ensures |rows[id := row].Keys| == |rows.Keys| + 1
    ensures |LiveOf(rows[id := row], records)| <= |LiveOf(rows, records)| + 1
  {
    assert rows[id := row].Keys == rows.Keys + {id};
    var was, now := LiveOf(rows, records), LiveOf(rows[id := row], records);
    assert now <= was + {id};
    assert was + {id} == now + ((was + {id}) - now);
  }

  class Journal {
    var rows: map<Id, Row>
    var records: map<Id, Record>
    var workspaces: map<Id, Workspace>
    var retired: bool

    constructor ()
      ensures rows == map[] && records == map[] && workspaces == map[] && !retired
    {
      rows, records, workspaces, retired := map[], map[], map[], false;
    }

    /** Admission keeps both bounds, and a retired journal admits nothing. */
    method Prepare(id: Id) returns (ok: bool)
      modifies this`rows
      ensures ok == old(!retired && id !in rows && |rows.Keys| < JOURNAL_CAP && |LiveOf(rows, records)| < LIVE_CAP)
      ensures rows == if ok then old(rows)[id := Row(Pilots.Prepared, 0)] else old(rows)
      ensures old(WithinCaps(rows, records)) ==> WithinCaps(rows, records)
    {
      if retired || id in rows || |rows.Keys| >= JOURNAL_CAP || |LiveOf(rows, records)| >= LIVE_CAP { return false; }
      NewRow(rows, records, id, Row(Pilots.Prepared, 0));
      rows := rows[id := Row(Pilots.Prepared, 0)];
      ok := true;
    }

    /** The first transaction: the review, and the durable intent. */
    method Intend(id: Id, revision: nat, f: Facts) returns (deleting: bool)
      modifies this`rows, this`records
      ensures deleting == old(Reviewed(id, revision, f))
      ensures !deleting ==> rows == old(rows) && records == old(records)
      ensures deleting ==>
                && id in old(rows) && old(rows)[id].revision == revision && old(rows)[id].status != Pilots.Reserved
                && !f.dispatched && (f.bound ==> f.taskTerminal) && (old(rows)[id].status == Pilots.Prepared ==> f.bound)
                && (id in old(records) ==> old(records)[id].progress == Reclaiming) && (f.unexpected ==> id in old(records))
                && (id in workspaces ==> forall p :: p in workspaces[id].files ==>
                      p in old(Inventoried(id)) && old(Inventoried(id))[p] == workspaces[id].files[p])
                && id in rows && rows[id].status == (if old(rows)[id].status == Pilots.Prepared then Pilots.Abandoned else old(rows)[id].status)
      ensures deleting ==> rows == old(rows)[id := Closed(old(rows)[id])]
                           && records == old(records)[id := Record(Reclaiming, old(Inventoried(id)))]
    {
      deleting := Reviewed(id, revision, f);
      if !deleting { return; }
      hide Eligible, Recorded;
      records := records[id := Record(Reclaiming, Inventoried(id))];
      rows := rows[id := Closed(rows[id])];
    }

    /** The deletions, as far as the process gets. */
    method Remove(id: Id, life: nat) returns (ok: bool)
      requires id in workspaces ==> Tree(workspaces[id])
      modifies this`workspaces
      ensures ok == old(id !in workspaces || life >= |workspaces[id].files.Keys| + |workspaces[id].dirs| + 1)
      ensures ok ==> workspaces == old(workspaces) - {id}
      ensures !ok ==> && id in workspaces && workspaces == old(workspaces)[id := workspaces[id]]
                      && Tree(workspaces[id]) && Within(workspaces[id], old(workspaces[id]))
    {
      if id !in workspaces {
        assert workspaces == workspaces - {id};
        return true;
      }
      var left;
      left, ok := Delete(workspaces[id], life);
      hide Tree, Within;
      workspaces := if ok then workspaces - {id} else workspaces[id := left];
    }

    /** `reclaim`: the intent is durable before anything is deleted; `life` is how many deletions the process survives. */
    method Reclaim(id: Id, revision: nat, f: Facts, life: nat) returns (ok: bool, deleting: bool)
      requires id in workspaces ==> Tree(workspaces[id])
      modifies this
      ensures deleting == old(Reviewed(id, revision, f))
      ensures !deleting ==> !ok && rows == old(rows) && records == old(records) && workspaces == old(workspaces)
      ensures deleting ==>
                && rows == old(rows)[id := Closed(old(rows)[id])]
                && records == old(records)[id := Record(if ok then Reclaimed else Reclaiming, old(Inventoried(id)))]
                && (ok <==> old(id !in workspaces || life >= |workspaces[id].files.Keys| + |workspaces[id].dirs| + 1))
      ensures ok ==> workspaces == old(workspaces) - {id}
      ensures deleting && !ok ==>
                && id in workspaces && workspaces == old(workspaces)[id := workspaces[id]]
                && Tree(workspaces[id]) && Within(workspaces[id], old(workspaces[id]))
      ensures retired == old(retired)
      ensures rows.Keys == old(rows.Keys)
      ensures old(WithinCaps(rows, records)) ==> WithinCaps(rows, records)
    {
      ok := false;
      hide WithinCaps;
      var inventory := Inventoried(id);
      deleting := Intend(id, revision, f);
      if !deleting { return; }
      hide Tree, Within;
      ok := Remove(id, life);
      if ok { records := records[id := Record(Reclaimed, inventory)]; }
      if old(WithinCaps(rows, records)) { CapsKept(old(rows), old(records), rows, records); }
    }

    /** The review passes: the row is current and settled, and whatever is left was recorded as it is. */
    predicate Reviewed(id: Id, revision: nat, f: Facts)
      reads this
    {
      && id in rows && rows[id].revision == revision
      && Eligible(rows[id], if id in records then Some(records[id]) else None, f)
      && (id in records && id in workspaces ==> Recorded(workspaces[id], records[id].inventory))
    }

    /** The inventory a reclamation works from: the one recorded first, or what is there now. */
    function Inventoried(id: Id): map<Path, Hash>
      reads this
    {
      if id in records then records[id].inventory
      else if id in workspaces then workspaces[id].files else map[]
    }
  }

  lemma {:induction false} SameLength(xs: seq<Path>, s: set<Path>)
    requires Lists(xs, s)
    ensures |xs| == |s|
  {
    if xs == [] {
      assert s == {};
    } else {
      var n := |xs| - 1;
      var rest := s - {xs[n]};
      forall x ensures x in rest <==> x in xs[..n] {
        if x in rest { var i :| 0 <= i < |xs| && xs[i] == x; assert xs[..n][i] == x; }
      }
      SameLength(xs[..n], rest);
    }
  }

  /** With the files gone and the deepest directories removed first, the next one holds nothing. */
  lemma DeepestIsEmpty(w: Workspace, dirs: seq<Path>, i: nat)
    requires Descending(dirs) && i < |dirs| && w.files == map[]
    requires forall p :: p in w.dirs <==> p in dirs[i..]
    ensures dirs[i] in w.dirs && !Holds(w, dirs[i])
  {
    assert dirs[i] == dirs[i..][0];
    forall p | p in w.dirs ensures |p| <= |dirs[i]| {
      var k :| 0 <= k < |dirs[i..]| && dirs[i..][k] == p;
      assert dirs[i + k] == p;
    }
  }

  // ---- Resuming ----

  /** After an interrupted reclamation and no change by anyone else, the same review passes again, against the same
      inventory; the row it needs is at the revision the first one left. */
  method Resume(j: Journal, id: Id, revision: nat, f: Facts, lives: seq<nat>) returns (ok: bool)
    requires id in j.workspaces && Tree(j.workspaces[id])
    requires j.Reviewed(id, revision, f)
    requires lives != [] && lives[|lives| - 1] > |j.workspaces[id].files.Keys| + |j.workspaces[id].dirs|
    modifies j
    ensures ok && id !in j.workspaces
    ensures j.rows.Keys == old(j.rows.Keys) && id in j.records && j.records[id] == Record(Reclaimed, old(j.Inventoried(id)))
  {
    ghost var inventory, whole := j.Inventoried(id), j.workspaces[id];
    ok := false;
    var now := revision;
    var n := 0;
    while !ok && n < |lives|
      invariant 0 <= n <= |lives|
      invariant j.rows.Keys == old(j.rows.Keys)
      invariant ok ==> id !in j.workspaces && id in j.records && j.records[id] == Record(Reclaimed, inventory)
      invariant !ok ==> && id in j.workspaces && Tree(j.workspaces[id]) && Within(j.workspaces[id], whole)
                        && j.Reviewed(id, now, f) && j.Inventoried(id) == inventory && Recorded(j.workspaces[id], inventory)
      invariant n == |lives| ==> ok
      decreases |lives| - n
    {
      ghost var was := j.workspaces[id];
      SmallerWithin(was, whole);
      now := j.rows[id].revision;
      var deleting;
      ok, deleting := j.Reclaim(id, now, f, lives[n]);
      if !ok {
        WithinAll(j.workspaces[id], was, whole);
        RecordedWithin(j.workspaces[id], was, inventory);
        now := j.rows[id].revision;
      }
      n := n + 1;
    }
  }

  lemma SmallerWithin(w: Workspace, of: Workspace)
    requires Within(w, of)
    ensures |w.files.Keys| <= |of.files.Keys| && |w.dirs| <= |of.dirs|
  {
    assert w.files.Keys <= of.files.Keys;
    Subset(w.files.Keys, of.files.Keys);
    Subset(w.dirs, of.dirs);
  }

  lemma Subset(a: set<Path>, b: set<Path>)
    requires a <= b
    ensures |a| <= |b|
  {
    assert b == a + (b - a);
  }

  lemma RecordedWithin(w: Workspace, of: Workspace, inventory: map<Path, Hash>)
    requires Within(w, of) && Recorded(of, inventory)
    ensures Recorded(w, inventory)
  {
  }
}
