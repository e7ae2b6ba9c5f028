/** Whether captured comment pages show exactly one comment that could be ours, with nothing left unread. */
module JiraReconcile {
  import opened Basics

  const MAX_PAGES: nat := 10
  const PAGE_SIZE: nat := 50
  const MAX_TOTAL: nat := 1000000

  /** `proper` says that the identity and content are well formed; the other fields mean nothing otherwise. */
  datatype Comment = Comment(id: nat, proper: bool, author: nat, body: nat, visibility: nat)

  /** A captured response: where its address starts reading, and what it says of itself. */
  datatype Page = Page(from: int, redirected: bool, status: int, startAt: int, maxResults: int, total: int, rows: seq<Comment>)

  datatype Wanted = Wanted(author: nat, body: nat, visibility: nat)

  datatype Blocker =
    | PageUnavailable | TotalChanged | Inconsistent | Malformed | DuplicateId | Incomplete | NoMatch | SeveralMatches

  datatype Assessment =
    | Rejected
    | Unresolved(blockers: set<Blocker>)
    | Observed(candidate: nat)

  // ---- What the pages say, independently of how they are read ----

  function PageRows(p: Page): seq<Comment> { if p.status == 200 then p.rows else [] }

  function Rows(pages: seq<Page>): seq<Comment> {
    if pages == [] then [] else Rows(pages[..|pages| - 1]) + PageRows(pages[|pages| - 1])
  }

  predicate Envelope(p: Page, offset: nat) {
    p.from == offset && !p.redirected && 200 <= p.status <= 599
  }

  predicate Body(p: Page, offset: nat) {
    p.startAt == offset && 1 <= p.maxResults <= PAGE_SIZE && 0 <= p.total <= MAX_TOTAL && |p.rows| <= p.maxResults
  }

  predicate Fits(p: Page, offset: nat) {
    Envelope(p, offset) && (p.status == 200 ==> Body(p, offset))
  }

  /** Nothing may be read after page `i`. */
  predicate EndsAt(pages: seq<Page>, i: nat)
    requires i < |pages|
  {
    pages[i].status != 200 || |Rows(pages[..i + 1])| >= pages[i].total || pages[i].rows == []
  }

  predicate WellPaged(pages: seq<Page>) {
    && 1 <= |pages| <= MAX_PAGES
    && forall i :: 0 <= i < |pages| ==> Fits(pages[i], |Rows(pages[..i])|) && (i + 1 < |pages| ==> !EndsAt(pages, i))
  }

  predicate Matches(w: Wanted, c: Comment) {
    c.proper && c.author == w.author && c.body == w.body && c.visibility == w.visibility
  }

  function Candidates(w: Wanted, cs: seq<Comment>): seq<nat> {
    if cs == [] then []
    else Candidates(w, cs[..|cs| - 1]) + (if Matches(w, cs[|cs| - 1]) then [cs[|cs| - 1].id] else [])
  }

  predicate SameId(cs: seq<Comment>) {
    exists i, j :: 0 <= i < j < |cs| && cs[i].proper && cs[j].proper && cs[i].id == cs[j].id
  }

  predicate AnyImproper(cs: seq<Comment>) { exists i :: 0 <= i < |cs| && !cs[i].proper }

  predicate TotalsDiffer(pages: seq<Page>) {
    exists i :: 0 <= i < |pages| && pages[i].status == 200 && pages[i].total != pages[0].total
  }

  predicate Overrun(pages: seq<Page>) {
    exists i :: 0 <= i < |pages| && pages[i].status == 200 && |Rows(pages[..i + 1])| > pages[i].total
  }

  /** When each blocker is reported. */
  predicate Blocks(w: Wanted, pages: seq<Page>, b: Blocker)
    requires pages != []
  {
    var rows := Rows(pages);
    match b
    case PageUnavailable => pages[|pages| - 1].status != 200
    case TotalChanged => TotalsDiffer(pages)
    case Inconsistent => Overrun(pages)
    case Malformed => AnyImproper(rows)
    case DuplicateId => SameId(rows)
    case Incomplete => pages[0].status != 200 || |rows| != pages[0].total || !EndsAt(pages, |pages| - 1)
    case NoMatch => |Candidates(w, rows)| == 0
    case SeveralMatches => |Candidates(w, rows)| > 1
  }

  lemma RowsGrow(pages: seq<Page>, i: nat)
    requires i < |pages|
    ensures Rows(pages[..i + 1]) == Rows(pages[..i]) + PageRows(pages[i])
  {
    assert pages[..i + 1][..i] == pages[..i];
  }

  lemma CandidatesGrow(w: Wanted, cs: seq<Comment>, c: Comment)
    ensures Candidates(w, cs + [c]) == Candidates(w, cs) + (if Matches(w, c) then [c.id] else [])
  {
    assert (cs + [c])[..|cs|] == cs;
  }

  /** The proper identifiers among the comments. */
  ghost predicate IdsOf(ids: set<nat>, cs: seq<Comment>) {
    forall n :: n in ids <==> exists i :: 0 <= i < |cs| && cs[i].proper && cs[i].id == n
  }

  lemma IdsGrow(ids: set<nat>, cs: seq<Comment>, c: Comment)
    requires IdsOf(ids, cs)
    ensures IdsOf(if c.proper then ids + {c.id} else ids, cs + [c])
    ensures SameId(cs + [c]) <==> SameId(cs) || (c.proper && c.id in ids)
    ensures AnyImproper(cs + [c]) <==> AnyImproper(cs) || !c.proper
  {
    var ds := cs + [c];
    assert forall i :: 0 <= i < |cs| ==> ds[i] == cs[i];
    assert ds[|cs|] == c;
    if SameId(cs) {
      var i, j :| 0 <= i < j < |cs| && cs[i].proper && cs[j].proper && cs[i].id == cs[j].id;
      assert ds[i].id == ds[j].id;
    }
    if c.proper && c.id in ids {
      var i :| 0 <= i < |cs| && cs[i].proper && cs[i].id == c.id;
      assert ds[i].id == ds[|cs|].id;
    }
    if AnyImproper(cs) { var i :| 0 <= i < |cs| && !cs[i].proper; assert !ds[i].proper; }
  }

  /** The comments of one page, added to what the pages before it showed. */
  method ReadRows(w: Wanted, before: seq<Comment>, rows: seq<Comment>, ids0: set<nat>, found0: seq<nat>)
    returns (ids: set<nat>, found: seq<nat>, improper: bool, repeated: bool)
    requires IdsOf(ids0, before) && found0 == Candidates(w, before)
    ensures IdsOf(ids, before + rows) && found == Candidates(w, before + rows)
    ensures AnyImproper(before + rows) <==> AnyImproper(before) || improper
    ensures SameId(before + rows) <==> SameId(before) || repeated
  {
    ids, found, improper, repeated := ids0, found0, false, false;
    assert before + rows[..0] == before;
    for k := 0 to |rows|
      invariant IdsOf(ids, before + rows[..k]) && found == Candidates(w, before + rows[..k])
      invariant AnyImproper(before + rows[..k]) <==> AnyImproper(before) || improper
      invariant SameId(before + rows[..k]) <==> SameId(before) || repeated
    {
      var c := rows[k];
      assert before + rows[..k + 1] == (before + rows[..k]) + [c];
      IdsGrow(ids, before + rows[..k], c);
      CandidatesGrow(w, before + rows[..k], c);
      if !c.proper {
        improper := true;
      } else {
        if c.id in ids { repeated := true; }
        ids := ids + {c.id};
        if c.author == w.author && c.body == w.body && c.visibility == w.visibility { found := found + [c.id]; }
      }
    }
    assert before + rows[..|rows|] == before + rows;
  }

  /** The reader's place after `n` pages. */
  predicate PlaceOk(pages: seq<Page>, n: nat, offset: nat, total: Option<int>, finished: bool)
    requires n <= |pages|
  {
    && offset == |Rows(pages[..n])|
    && (if n == 0 then !finished else finished == EndsAt(pages, n - 1))
    && total == (if n > 0 && pages[0].status == 200 then Some(pages[0].total) else None)
    && forall i :: 0 <= i < n ==> Fits(pages[i], |Rows(pages[..i])|) && (i + 1 < n ==> !EndsAt(pages, i))
  }

  ghost predicate ContentOk(w: Wanted, rows: seq<Comment>, ids: set<nat>, found: seq<nat>) {
    IdsOf(ids, rows) && found == Candidates(w, rows)
  }

  predicate BlockersOk(pages: seq<Page>, n: nat, blockers: set<Blocker>)
    requires n <= |pages|
  {
    && (PageUnavailable in blockers <==> n > 0 && pages[n - 1].status != 200)
    && (TotalChanged in blockers <==> TotalsDiffer(pages[..n]))
    && (Inconsistent in blockers <==> Overrun(pages[..n]))
    && (Malformed in blockers <==> AnyImproper(Rows(pages[..n])))
    && (DuplicateId in blockers <==> SameId(Rows(pages[..n])))
    && Incomplete !in blockers && NoMatch !in blockers && SeveralMatches !in blockers
  }

  /** The blockers one more page adds. */
  function Added(page: Page, offset: nat, total: Option<int>, improper: bool, repeated: bool): set<Blocker> {
    (if total.Some? && total.value != page.total then {TotalChanged} else {})
    + (if offset + |page.rows| > page.total then {Inconsistent} else {})
    + (if improper then {Malformed} else {})
    + (if repeated then {DuplicateId} else {})
  }

  lemma BlockersGrow(pages: seq<Page>, n: nat, blockers: set<Blocker>, offset: nat, total: Option<int>, improper: bool, repeated: bool)
    requires n < |pages| && pages[n].status == 200 && BlockersOk(pages, n, blockers)
    requires n > 0 ==> pages[n - 1].status == 200
    requires total == if n > 0 then Some(pages[0].total) else None
    requires |Rows(pages[..n + 1])| == offset + |pages[n].rows|
    requires AnyImproper(Rows(pages[..n + 1])) <==> AnyImproper(Rows(pages[..n])) || improper
    requires SameId(Rows(pages[..n + 1])) <==> SameId(Rows(pages[..n])) || repeated
    ensures BlockersOk(pages, n + 1, blockers + Added(pages[n], offset, total, improper, repeated))
  {
    hide AnyImproper, SameId, TotalsDiffer, Overrun, Rows;
    TotalsGrow(pages, n);
    OverrunGrows(pages, n);
  }

  /** While there is more to read, every page so far could be read, so the first one set the total. */
  lemma FirstIsRead(pages: seq<Page>, n: nat, offset: nat, total: Option<int>)
    requires n <= |pages| && PlaceOk(pages, n, offset, total, false)
    ensures n > 0 ==> pages[n - 1].status == 200
    ensures total == if n > 0 then Some(pages[0].total) else None
  {
    if n > 1 { assert !EndsAt(pages, 0); }
  }

  lemma PlaceGrows(pages: seq<Page>, n: nat, offset: nat, total: Option<int>)
    requires n < |pages| && PlaceOk(pages, n, offset, total, false) && Fits(pages[n], offset)
    ensures pages[n].status == 200 ==>
              var offset' := offset + |pages[n].rows|;
              PlaceOk(pages, n + 1, offset', if total.None? then Some(pages[n].total) else total,
                      offset' >= pages[n].total || pages[n].rows == [])
    ensures pages[n].status != 200 ==> PlaceOk(pages, n + 1, offset, total, true)
  {
    hide Rows, Fits;
    RowsGrow(pages, n);
    FirstIsRead(pages, n, offset, total);
  }

  lemma UnavailableGrows(pages: seq<Page>, n: nat, blockers: set<Blocker>)
    requires n < |pages| && pages[n].status != 200 && BlockersOk(pages, n, blockers)
    ensures BlockersOk(pages, n + 1, blockers + {PageUnavailable})
  {
    RowsGrow(pages, n);
    TotalsGrow(pages, n);
    OverrunGrows(pages, n);
    hide AnyImproper, SameId, TotalsDiffer, Overrun;
    assert Rows(pages[..n + 1]) == Rows(pages[..n]);
  }

  lemma UnreadIsRejected(pages: seq<Page>, n: nat, offset: nat, total: Option<int>, finished: bool)
    requires n < |pages| && PlaceOk(pages, n, offset, total, finished)
    ensures finished || !Fits(pages[n], offset) ==> !WellPaged(pages)
  {
    hide Fits, Rows;
    if finished { assert EndsAt(pages, n - 1); }
  }

  /** What the last tests add to the blockers. */
  function Closing(offset: nat, total: Option<int>, finished: bool, found: seq<nat>): set<Blocker> {
    (if total.None? || offset != total.value || !finished then {Incomplete} else {})
    + (if |found| == 1 then {} else if found == [] then {NoMatch} else {SeveralMatches})
  }

  lemma Verdict(w: Wanted, pages: seq<Page>, blockers: set<Blocker>, offset: nat, total: Option<int>, finished: bool, found: seq<nat>)
    requires 1 <= |pages| <= MAX_PAGES && pages[..|pages|] == pages
    requires PlaceOk(pages, |pages|, offset, total, finished) && BlockersOk(pages, |pages|, blockers)
    requires found == Candidates(w, Rows(pages))
    ensures WellPaged(pages)
    ensures forall b :: b in blockers + Closing(offset, total, finished, found) <==> Blocks(w, pages, b)
  {
    hide Fits, Rows, EndsAt, Candidates, AnyImproper, SameId, TotalsDiffer, Overrun;
    var all := blockers + Closing(offset, total, finished, found);
    assert Incomplete in all <==> Blocks(w, pages, Incomplete);
    assert NoMatch in all <==> Blocks(w, pages, NoMatch);
    assert SeveralMatches in all <==> Blocks(w, pages, SeveralMatches);
  }

  /** What the reader carries from page to page. */
  datatype Reading = Reading(offset: nat, total: Option<int>, finished: bool, ids: set<nat>, found: seq<nat>, blockers: set<Blocker>)

  ghost predicate ReadingOk(w: Wanted, pages: seq<Page>, n: nat, r: Reading)
    requires n <= |pages|
  {
    && PlaceOk(pages, n, r.offset, r.total, r.finished)
    && ContentOk(w, Rows(pages[..n]), r.ids, r.found)
    && BlockersOk(pages, n, r.blockers)
  }

  /** One page, or the refusal of the whole capture. */
  method ReadPage(w: Wanted, pages: seq<Page>, n: nat, r: Reading) returns (ok: bool, r': Reading)
    requires n < |pages| && ReadingOk(w, pages, n, r)
    ensures ok ==> ReadingOk(w, pages, n + 1, r')
    ensures !ok ==> !WellPaged(pages)
  {
    hide AnyImproper, SameId, TotalsDiffer, Overrun, IdsOf, Candidates, Envelope, Body, Rows, PlaceOk, BlockersOk, EndsAt, WellPaged;
    var page := pages[n];
    r' := r;
    UnreadIsRejected(pages, n, r.offset, r.total, r.finished);
    if r.finished { return false, r; }
    if !Envelope(page, r.offset) { return false, r; }
    RowsGrow(pages, n);
    if page.status != 200 {
      PlaceGrows(pages, n, r.offset, r.total);
      UnavailableGrows(pages, n, r.blockers);
      assert Rows(pages[..n + 1]) == Rows(pages[..n]);
      return true, r.(blockers := r.blockers + {PageUnavailable}, finished := true);
    }
    if !Body(page, r.offset) { return false, r; }
    PlaceGrows(pages, n, r.offset, r.total);
    FirstIsRead(pages, n, r.offset, r.total);
    OffsetIs(pages, n, r.offset, r.total);
    var ids, found, improper, repeated := ReadRows(w, Rows(pages[..n]), page.rows, r.ids, r.found);
    BlockersGrow(pages, n, r.blockers, r.offset, r.total, improper, repeated);
    var offset := r.offset + |page.rows|;
    ok, r' := true, Reading(offset, if r.total.None? then Some(page.total) else r.total, offset >= page.total || page.rows == [],
                            ids, found, r.blockers + Added(page, r.offset, r.total, improper, repeated));
  }

  lemma OffsetIs(pages: seq<Page>, n: nat, offset: nat, total: Option<int>)
    requires n <= |pages| && PlaceOk(pages, n, offset, total, false)
    ensures offset == |Rows(pages[..n])|
  {
  }

  method Assess(w: Wanted, pages: seq<Page>) returns (r: Assessment)
    ensures r == Rejected <==> !WellPaged(pages)
    ensures r.Unresolved? ==> r.blockers != {} && forall b :: b in r.blockers <==> Blocks(w, pages, b)
    ensures r.Observed? ==> (forall b :: !Blocks(w, pages, b)) && Candidates(w, Rows(pages)) == [r.candidate]
  {
    if |pages| < 1 || |pages| > MAX_PAGES { return Rejected; }
    var reading := Reading(0, None, false, {}, [], {});
    Nothing(w, pages);
    for n := 0 to |pages|
      invariant ReadingOk(w, pages, n, reading)
    {
      hide ReadingOk, WellPaged;
      var ok;
      ok, reading := ReadPage(w, pages, n, reading);
      if !ok { return Rejected; }
    }
    hide PlaceOk, BlockersOk, WellPaged, Blocks, Candidates, Rows, IdsOf;
    assert pages[..|pages|] == pages;
    Verdict(w, pages, reading.blockers, reading.offset, reading.total, reading.finished, reading.found);
    var blockers := reading.blockers + Closing(reading.offset, reading.total, reading.finished, reading.found);
    if blockers != {} { return Unresolved(blockers); }
    assert |reading.found| == 1;
    r := Observed(reading.found[0]);
  }

  lemma Nothing(w: Wanted, pages: seq<Page>)
    requires pages != []
    ensures PlaceOk(pages, 0, 0, None, false) && ContentOk(w, Rows(pages[..0]), {}, []) && BlockersOk(pages, 0, {})
  {
  }

  lemma TotalsGrow(pages: seq<Page>, n: nat)
    requires n < |pages|
    ensures TotalsDiffer(pages[..n + 1]) <==> TotalsDiffer(pages[..n]) || (pages[n].status == 200 && pages[n].total != pages[0].total)
  {
    var a, b := pages[..n], pages[..n + 1];
    assert forall i :: 0 <= i < n ==> a[i] == b[i] == pages[i];
    assert b[n] == pages[n];
    if TotalsDiffer(a) { var i :| 0 <= i < |a| && a[i].status == 200 && a[i].total != a[0].total; assert b[i].total != b[0].total; }
    if pages[n].status == 200 && pages[n].total != pages[0].total { assert b[n].total != b[0].total; }
  }

  lemma OverrunGrows(pages: seq<Page>, n: nat)
    requires n < |pages|
    ensures Overrun(pages[..n + 1]) <==>
              Overrun(pages[..n]) || (pages[n].status == 200 && |Rows(pages[..n + 1])| > pages[n].total)
  {
    var a, b := pages[..n], pages[..n + 1];
    assert forall i :: 0 <= i < n ==> a[..i + 1] == b[..i + 1] == pages[..i + 1] && a[i] == b[i] == pages[i];
    assert b[..n + 1] == pages[..n + 1] && b[n] == pages[n];
    if Overrun(a) { var i :| 0 <= i < |a| && a[i].status == 200 && |Rows(a[..i + 1])| > a[i].total; assert b[i].status == 200; }
    if pages[n].status == 200 && |Rows(pages[..n + 1])| > pages[n].total { assert b[n].status == 200; }
  }

  // ---- A real list of comments, read page by page ----

  predicate RealList(list: seq<Comment>) {
    !AnyImproper(list) && !SameId(list) && |list| <= MAX_TOTAL
  }

  /** Page `i` shows the next few comments of the list, in any sizes, and says how many there are in all. */
  predicate HonestPage(list: seq<Comment>, pages: seq<Page>, i: nat)
    requires i < |pages|
  {
    var p, from := pages[i], |Rows(pages[..i])|;
    && p.from == from && !p.redirected && p.status == 200
    && p.startAt == from && 1 <= p.maxResults <= PAGE_SIZE && |p.rows| <= p.maxResults
    && p.total == |list|
    && from + |p.rows| <= |list| && p.rows == list[from..from + |p.rows|]
    && (list != [] ==> p.rows != [])
    && (i + 1 < |pages| ==> from + |p.rows| < |list|)
  }

  predicate Honest(list: seq<Comment>, pages: seq<Page>) {
    1 <= |pages| <= MAX_PAGES && forall i :: 0 <= i < |pages| ==> HonestPage(list, pages, i)
  }

  lemma {:induction false} HonestPrefix(list: seq<Comment>, pages: seq<Page>, n: nat)
    requires Honest(list, pages) && n <= |pages|
    ensures |Rows(pages[..n])| <= |list| && Rows(pages[..n]) == list[..|Rows(pages[..n])|]
  {
    if n > 0 {
      HonestPrefix(list, pages, n - 1);
      assert HonestPage(list, pages, n - 1);
      RowsGrow(pages, n - 1);
    }
  }

  lemma HonestIsWellPaged(list: seq<Comment>, pages: seq<Page>)
    requires RealList(list) && Honest(list, pages)
    ensures WellPaged(pages)
  {
    forall i | 0 <= i < |pages| ensures Fits(pages[i], |Rows(pages[..i])|) && (i + 1 < |pages| ==> !EndsAt(pages, i)) {
      assert HonestPage(list, pages, i);
      RowsGrow(pages, i);
    }
  }

  lemma PartOfReal(list: seq<Comment>, n: nat)
    requires RealList(list) && n <= |list|
    ensures !AnyImproper(list[..n]) && !SameId(list[..n])
  {
  }

  lemma HonestPages(list: seq<Comment>, pages: seq<Page>)
    requires Honest(list, pages)
    ensures forall i :: 0 <= i < |pages| ==> pages[i].status == 200 && pages[i].total == |list|
    ensures !TotalsDiffer(pages) && !Overrun(pages)
  {
    forall i | 0 <= i < |pages| ensures pages[i].status == 200 && pages[i].total == |list| && |Rows(pages[..i + 1])| <= |list| {
      assert HonestPage(list, pages, i);
      HonestPrefix(list, pages, i + 1);
    }
  }

  lemma HonestEnd(list: seq<Comment>, pages: seq<Page>)
    requires Honest(list, pages)
    ensures |Rows(pages)| <= |list| && Rows(pages) == list[..|Rows(pages)|]
    ensures Rows(pages) == list <==> |Rows(pages)| == |list|
    ensures Rows(pages) == list ==> EndsAt(pages, |pages| - 1)
  {
    assert pages[..|pages|] == pages;
    HonestPrefix(list, pages, |pages|);
    HonestPages(list, pages);
    assert list[..|list|] == list;
  }

  lemma HonestQuiet(w: Wanted, list: seq<Comment>, pages: seq<Page>)
    requires RealList(list) && Honest(list, pages)
    ensures forall b :: b !in {Incomplete, NoMatch, SeveralMatches} ==> !Blocks(w, pages, b)
    ensures Blocks(w, pages, Incomplete) <==> Rows(pages) != list
  {
    HonestPages(list, pages);
    HonestEnd(list, pages);
    PartOfReal(list, |Rows(pages)|);
    hide Honest, Rows, EndsAt, TotalsDiffer, Overrun, AnyImproper, SameId, Candidates;
    assert !Blocks(w, pages, PageUnavailable) && !Blocks(w, pages, TotalChanged) && !Blocks(w, pages, Inconsistent);
    assert !Blocks(w, pages, Malformed) && !Blocks(w, pages, DuplicateId);
  }

  /** For a real list in any honest paging, one candidate is observed exactly when the pages show the whole list
      and exactly one of its comments matches; and it is that one. */
  method AssessHonest(w: Wanted, list: seq<Comment>, pages: seq<Page>) returns (r: Assessment)
    requires RealList(list) && Honest(list, pages)
    ensures r.Observed? <==> Rows(pages) == list && |Candidates(w, list)| == 1
    ensures r.Observed? ==> Candidates(w, list) == [r.candidate]
  {
    HonestIsWellPaged(list, pages);
    HonestQuiet(w, list, pages);
    hide WellPaged, RealList, Honest, Rows, Candidates, Blocks;
    CandidateBlocks(w, pages);
    r := Assess(w, pages);
    if r.Unresolved? {
      var b :| b in r.blockers;
      assert Blocks(w, pages, b);
    }
  }

  lemma CandidateBlocks(w: Wanted, pages: seq<Page>)
    requires pages != []
    ensures Blocks(w, pages, NoMatch) || Blocks(w, pages, SeveralMatches) <==> |Candidates(w, Rows(pages))| != 1
  {
  }
}
