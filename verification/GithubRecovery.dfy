/** Whether captured pages of pull requests show exactly one that could be ours, with no page left unread. */
module GithubRecovery {
  import opened Basics

  const MAX_PAGES: nat := 10
  const MAX_BODY: nat := 100
  const MAX_LINKS: nat := 4
  const MAX_ID: int := 9007199254740991

  // ---- The wire: exchanges with Link headers ----

  datatype Rel = Next | Prev | First | Last

  /** One part of a Link header. `scoped` says that it parses and points into the lookup that was asked for. */
  datatype Part = Part(rel: Rel, target: nat, scoped: bool)

  /** One end of a pull request. */
  datatype Side = Side(present: bool, ref: nat, sha: nat, repository: int, named: bool)

  /** `described` stands for the address, title, text and open draft state of the intended request. */
  datatype PullRequest = PullRequest(present: bool, id: int, number: int, described: bool, base: Side, head: Side)

  /** `valid` says that the response answers exactly the request of its page. A body that is not a list is None. */
  datatype Exchange = Exchange(valid: bool, status: int, link: Option<seq<Part>>, body: Option<seq<PullRequest>>)

  datatype Page = Page(page: nat, hasNext: bool, status: int, body: Option<seq<PullRequest>>)

  datatype Intent = Intent(baseRef: nat, baseSha: nat, headRef: nat, headSha: nat, repository: int)

  type Relations = map<Rel, nat>

  function RelationsOf(parts: seq<Part>): Relations {
    if parts == [] then map[] else RelationsOf(parts[..|parts| - 1])[parts[|parts| - 1].rel := parts[|parts| - 1].target]
  }

  predicate Unambiguous(parts: seq<Part>) {
    && (forall i :: 0 <= i < |parts| ==> parts[i].scoped)
    && (forall i, j :: 0 <= i < j < |parts| ==> parts[i].rel != parts[j].rel)
  }

  predicate Consistent(r: Relations, page: nat) {
    && (Next in r ==> r[Next] == page + 1)
    && (Prev in r ==> page != 1 && r[Prev] == page - 1)
    && (First in r ==> r[First] == 1)
    && (Last in r ==> r[Last] >= page && (r[Last] > page <==> Next in r))
  }

  predicate LinksOk(link: Option<seq<Part>>, page: nat) {
    link.Some? ==>
      1 <= |link.value| <= MAX_LINKS && Unambiguous(link.value) && Consistent(RelationsOf(link.value), page)
  }

  function LinksOf(link: Option<seq<Part>>): Relations {
    if link.None? then map[] else RelationsOf(link.value)
  }

  lemma {:induction false} RelationIffPart(parts: seq<Part>, rel: Rel)
    requires Unambiguous(parts)
    ensures rel in RelationsOf(parts) <==> exists i :: 0 <= i < |parts| && parts[i].rel == rel
    ensures forall i :: 0 <= i < |parts| && parts[i].rel == rel ==> RelationsOf(parts)[rel] == parts[i].target
  {
    if parts != [] {
      var n := |parts| - 1;
      RelationIffPart(parts[..n], rel);
      if rel in RelationsOf(parts[..n]) { var i :| 0 <= i < n && parts[..n][i].rel == rel; assert parts[i].rel == rel; }
    }
  }

  method Links(link: Option<seq<Part>>, page: nat) returns (r: Option<Relations>)
    ensures r.Some? <==> LinksOk(link, page)
    ensures r.Some? ==> r.value == LinksOf(link)
  {
    if link.None? { return Some(map[]); }
    var parts := link.value;
    if |parts| < 1 || |parts| > MAX_LINKS { return None; }
    var relations: Relations := map[];
    for i := 0 to |parts|
      invariant Unambiguous(parts[..i]) && relations == RelationsOf(parts[..i])
    {
      var part := parts[i];
      assert parts[..i + 1][..i] == parts[..i];
      RelationIffPart(parts[..i], part.rel);
      if part.rel in relations {
        var j :| 0 <= j < i && parts[..i][j].rel == part.rel;
        assert parts[j].rel == parts[i].rel;
        return None;
      }
      if !part.scoped { return None; }
      forall j | 0 <= j < i ensures parts[j].rel != part.rel { assert parts[..i][j] == parts[j]; }
      relations := relations[part.rel := part.target];
    }
    assert parts[..|parts|] == parts;
    if (Next in relations && relations[Next] != page + 1)
       || (Prev in relations && (page == 1 || relations[Prev] != page - 1))
       || (First in relations && relations[First] != 1)
       || (Last in relations && relations[Last] < page)
       || (Last in relations && ((relations[Last] > page) != (Next in relations))) {
      return None;
    }
    r := Some(relations);
  }

  // ---- Decoding ----

  /** The relations of page `i`, counted from nought. Only a page that was read can name others. */
  function Named(xs: seq<Exchange>, i: nat): Relations
    requires i < |xs|
  {
    if xs[i].status == 200 then LinksOf(xs[i].link) else map[]
  }

  predicate Decodable(xs: seq<Exchange>) {
    && 1 <= |xs| <= MAX_PAGES
    && (forall i :: 0 <= i < |xs| ==> xs[i].valid && (xs[i].status == 200 ==> LinksOk(xs[i].link, i + 1)))
    && (forall i :: 0 <= i < |xs| - 1 ==> Next in Named(xs, i))
  }

  function Max(a: nat, b: nat): nat { if a >= b then a else b }

  function Get(r: Relations, rel: Rel, other: nat): nat { if rel in r then r[rel] else other }

  /** The furthest page that the first `n` captured ones name. */
  function Furthest(xs: seq<Exchange>, n: nat): nat
    requires n <= |xs|
  {
    if n == 0 then 1
    else Max(Furthest(xs, n - 1), Max(Get(Named(xs, n - 1), Last, n), Get(Named(xs, n - 1), Next, n)))
  }

  predicate DecodedTo(xs: seq<Exchange>, pages: seq<Page>) {
    && |pages| == |xs|
    && forall i :: 0 <= i < |xs| ==>
         pages[i] == Page(i + 1, Next in Named(xs, i) || (i == |xs| - 1 && Furthest(xs, |xs|) > |xs|), xs[i].status, xs[i].body)
  }

  method Decode(xs: seq<Exchange>) returns (r: Option<seq<Page>>)
    ensures r.Some? <==> Decodable(xs)
    ensures r.Some? ==> DecodedTo(xs, r.value)
  {
    if |xs| < 1 || |xs| > MAX_PAGES { return None; }
    var pages: seq<Page>, furthest := [], 1;
    for i := 0 to |xs|
      invariant |pages| == i && furthest == Furthest(xs, i)
      invariant forall k :: 0 <= k < i ==> xs[k].valid && (xs[k].status == 200 ==> LinksOk(xs[k].link, k + 1))
      invariant forall k :: 0 <= k < i ==> pages[k] == Page(k + 1, Next in Named(xs, k), xs[k].status, xs[k].body)
      invariant forall k :: 0 <= k < i - 1 ==> Next in Named(xs, k)
    {
      if i > 0 && !pages[i - 1].hasNext { return None; }
      if !xs[i].valid { return None; }
      var links: Relations := map[];
      if xs[i].status == 200 {
        var found := Links(xs[i].link, i + 1);
        if found.None? { return None; }
        links := found.value;
      }
      furthest := Max(furthest, Max(Get(links, Last, i + 1), Get(links, Next, i + 1)));
      pages := pages + [Page(i + 1, Next in links, xs[i].status, xs[i].body)];
    }
    if furthest > |pages| { pages := pages[|pages| - 1 := pages[|pages| - 1].(hasNext := true)]; }
    r := Some(pages);
  }

  // ---- Classification ----

  datatype Reason =
    | PreviewMismatch | IncompletePagination | PageUnavailable | PageMalformed
    | CandidateMalformed | CandidateMismatch | NoCandidate | SeveralCandidates

  predicate PositiveId(n: int) { 0 < n <= MAX_ID }

  predicate SideMatches(s: Side, ref: nat, sha: nat, repository: int) {
    s.present && s.ref == ref && s.sha == sha && PositiveId(s.repository) && s.repository == repository && s.named
  }

  predicate Matches(t: Intent, pr: PullRequest) {
    && pr.present && PositiveId(pr.id) && PositiveId(pr.number) && pr.described
    && SideMatches(pr.base, t.baseRef, t.baseSha, t.repository)
    && SideMatches(pr.head, t.headRef, t.headSha, t.repository)
  }

  /** The pull requests of the pages that could be read. */
  function Shown(pages: seq<Page>): seq<PullRequest> {
    if pages == [] then []
    else Shown(pages[..|pages| - 1]) +
         (var p := pages[|pages| - 1]; if p.status == 200 && p.body.Some? && |p.body.value| <= MAX_BODY then p.body.value else [])
  }

  predicate AllMatch(t: Intent, prs: seq<PullRequest>) { forall i :: 0 <= i < |prs| ==> Matches(t, prs[i]) }

  function Numbers(t: Intent, prs: seq<PullRequest>): seq<int> {
    if prs == [] then []
    else Numbers(t, prs[..|prs| - 1]) + (if Matches(t, prs[|prs| - 1]) then [prs[|prs| - 1].number] else [])
  }

  predicate PageReadable(p: Page) { p.status == 200 && p.body.Some? && |p.body.value| <= MAX_BODY }

  predicate InPlace(pages: seq<Page>, i: nat)
    requires i < |pages|
  {
    pages[i].page == i + 1 && pages[i].hasNext == (i + 1 < |pages|)
  }

  lemma NumbersGrow(t: Intent, prs: seq<PullRequest>, pr: PullRequest)
    ensures Numbers(t, prs + [pr]) == Numbers(t, prs) + (if Matches(t, pr) then [pr.number] else [])
    ensures AllMatch(t, prs + [pr]) <==> AllMatch(t, prs) && Matches(t, pr)
  {
    assert (prs + [pr])[..|prs|] == prs;
    assert forall i :: 0 <= i < |prs| ==> (prs + [pr])[i] == prs[i];
    assert (prs + [pr])[|prs|] == pr;
  }

  /** The requests of one page: which of them match, and what is wrong with the others. */
  method Classify(t: Intent, before: seq<PullRequest>, prs: seq<PullRequest>, found0: seq<int>)
    returns (found: seq<int>, reasons: set<Reason>)
    requires found0 == Numbers(t, before)
    ensures found == Numbers(t, before + prs)
    ensures AllMatch(t, before + prs) <==> AllMatch(t, before) && reasons == {}
    ensures reasons <= {CandidateMalformed, CandidateMismatch}
  {
    found, reasons := found0, {};
    assert before + prs[..0] == before;
    for k := 0 to |prs|
      invariant found == Numbers(t, before + prs[..k])
      invariant AllMatch(t, before + prs[..k]) <==> AllMatch(t, before) && reasons == {}
      invariant reasons <= {CandidateMalformed, CandidateMismatch}
    {
      var pr := prs[k];
      assert before + prs[..k + 1] == (before + prs[..k]) + [pr];
      NumbersGrow(t, before + prs[..k], pr);
      if !pr.present {
        reasons := reasons + {CandidateMalformed};
        continue;
      }
      var matched := PositiveId(pr.id) && PositiveId(pr.number) && pr.described;
      matched := matched && SideMatches(pr.base, t.baseRef, t.baseSha, t.repository);
      matched := matched && SideMatches(pr.head, t.headRef, t.headSha, t.repository);
      if matched { found := found + [pr.number]; } else { reasons := reasons + {CandidateMismatch}; }
    }
    assert before + prs[..|prs|] == before + prs;
  }

  lemma ShownGrows(pages: seq<Page>, n: nat)
    requires n < |pages|
    ensures Shown(pages[..n + 1]) == Shown(pages[..n]) + if PageReadable(pages[n]) then pages[n].body.value else []
  {
    assert pages[..n + 1][..n] == pages[..n];
  }

  method Reconcile(t: Intent, samePreview: bool, pages: seq<Page>) returns (reasons: set<Reason>, candidate: Option<int>)
    ensures candidate.Some? <==> reasons == {}
    ensures reasons == {} <==>
              && samePreview
              && (forall i :: 0 <= i < |pages| ==> InPlace(pages, i) && PageReadable(pages[i]))
              && AllMatch(t, Shown(pages))
              && |Shown(pages)| == 1
    ensures candidate.Some? ==> candidate.value == Shown(pages)[0].number
  {
    reasons := if samePreview then {} else {PreviewMismatch};
    var found: seq<int> := [];
    assert pages[..0] == [];
    for n := 0 to |pages|
      invariant found == Numbers(t, Shown(pages[..n]))
      invariant reasons == {} <==>
                  && samePreview
                  && (forall i :: 0 <= i < n ==> InPlace(pages, i) && PageReadable(pages[i]))
                  && AllMatch(t, Shown(pages[..n]))
    {
      var page := pages[n];
      ShownGrows(pages, n);
      assert !PageReadable(page) ==> Shown(pages[..n + 1]) == Shown(pages[..n]);
      if page.page != n + 1 || page.hasNext != (n + 1 < |pages|) { reasons := reasons + {IncompletePagination}; }
      if page.status != 200 {
        reasons := reasons + {PageUnavailable};
        continue;
      }
      if page.body.None? || |page.body.value| > MAX_BODY {
        reasons := reasons + {PageMalformed};
        continue;
      }
      var wrong;
      found, wrong := Classify(t, Shown(pages[..n]), page.body.value, found);
      reasons := reasons + wrong;
    }
    assert pages[..|pages|] == pages;
    if AllMatch(t, Shown(pages)) { AllNumbers(t, Shown(pages)); }
    if found == [] { reasons := reasons + {NoCandidate}; }
    else if |found| > 1 { reasons := reasons + {SeveralCandidates}; }
    candidate := if reasons == {} then Some(found[0]) else None;
  }

  lemma {:induction false} AllNumbers(t: Intent, prs: seq<PullRequest>)
    requires AllMatch(t, prs)
    ensures |Numbers(t, prs)| == |prs| && forall i :: 0 <= i < |prs| ==> Numbers(t, prs)[i] == prs[i].number
  {
    if prs != [] { AllNumbers(t, prs[..|prs| - 1]); }
  }

  // ---- What an observed candidate means ----

  /** Every page named anywhere in the capture is in it. */
  predicate NothingBeyond(xs: seq<Exchange>) {
    forall i, rel :: 0 <= i < |xs| && rel in Named(xs, i) ==> Named(xs, i)[rel] <= |xs|
  }

  lemma {:induction false} FurthestBounds(xs: seq<Exchange>, n: nat, bound: nat)
    requires n <= |xs| && n <= bound && 1 <= bound
    ensures Furthest(xs, n) <= bound <==>
              forall i :: 0 <= i < n ==> (Next in Named(xs, i) ==> Named(xs, i)[Next] <= bound)
                                         && (Last in Named(xs, i) ==> Named(xs, i)[Last] <= bound)
  {
    if n > 0 { FurthestBounds(xs, n - 1, bound); }
  }

  /** `Prev` and `First` point back, so only `Next` and `Last` can name a page beyond the capture. */
  lemma FurthestIsBeyond(xs: seq<Exchange>)
    requires Decodable(xs)
    ensures Furthest(xs, |xs|) <= |xs| <==> NothingBeyond(xs)
  {
    FurthestBounds(xs, |xs|, |xs|);
    forall i, rel | 0 <= i < |xs| && rel in Named(xs, i) && (rel == Prev || rel == First)
      ensures Named(xs, i)[rel] <= |xs|
    {
      assert LinksOk(xs[i].link, i + 1);
    }
  }

  function Pulls(xs: seq<Exchange>): seq<PullRequest> {
    if xs == [] then []
    else Pulls(xs[..|xs| - 1]) +
         (var x := xs[|xs| - 1]; if x.status == 200 && x.body.Some? && |x.body.value| <= MAX_BODY then x.body.value else [])
  }

  lemma {:induction false} PullsShown(xs: seq<Exchange>, pages: seq<Page>)
    requires |pages| == |xs| && forall i :: 0 <= i < |xs| ==> pages[i].status == xs[i].status && pages[i].body == xs[i].body
    ensures Shown(pages) == Pulls(xs)
  {
    if xs != [] { PullsShown(xs[..|xs| - 1], pages[..|pages| - 1]); }
  }

  predicate AllRead(xs: seq<Exchange>) {
    forall i :: 0 <= i < |xs| ==> xs[i].status == 200 && xs[i].body.Some? && |xs[i].body.value| <= MAX_BODY
  }

  /** From transcript to verdict: a candidate is observed exactly when pages 1 to n were all read in turn, none
      of them names a page beyond n, and together they show exactly one pull request, which matches. */
  method Assess(t: Intent, xs: seq<Exchange>) returns (candidate: Option<int>)
    ensures candidate.Some? <==>
              && Decodable(xs) && AllRead(xs) && NothingBeyond(xs)
              && |Pulls(xs)| == 1 && Matches(t, Pulls(xs)[0])
    ensures candidate.Some? ==> candidate.value == Pulls(xs)[0].number
  {
    var decoded := Decode(xs);
    if decoded.None? { return None; }
    var pages := decoded.value;
    var reasons;
    reasons, candidate := Reconcile(t, true, pages);
    FurthestIsBeyond(xs);
    PullsShown(xs, pages);
    PlacesDecoded(xs, pages);
    PagesDecoded(xs, pages);
  }

  lemma PlacesDecoded(xs: seq<Exchange>, pages: seq<Page>)
    requires Decodable(xs) && DecodedTo(xs, pages)
    ensures (forall i :: 0 <= i < |pages| ==> InPlace(pages, i)) <==> Furthest(xs, |xs|) <= |xs|
  {
    var n := |xs|;
    if Furthest(xs, n) <= n {
      FurthestBounds(xs, n, n);
      assert Next in Named(xs, n - 1) ==> LinksOk(xs[n - 1].link, n);
      forall i | 0 <= i < |pages| ensures InPlace(pages, i) { }
    } else {
      assert !InPlace(pages, n - 1);
    }
  }

  lemma PagesDecoded(xs: seq<Exchange>, pages: seq<Page>)
    requires Decodable(xs) && DecodedTo(xs, pages)
    ensures (forall i :: 0 <= i < |pages| ==> PageReadable(pages[i])) <==> AllRead(xs)
  {
    forall i | 0 <= i < |xs| ensures PageReadable(pages[i]) <==> (xs[i].status == 200 && xs[i].body.Some? && |xs[i].body.value| <= MAX_BODY) { }
  }
}
