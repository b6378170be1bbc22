/** Pages of a search, and going through them with show_more: packages/decorator-agent/src/catalog.ts and
    studio-tools.ts. The ranking is any one that does not change between the pages. */
module CatalogPages {
  import opened Outcomes
  import opened CatalogText
  import opened WhiteSpace
  import opened CatalogLists
  import opened CatalogCategories
  import opened CatalogSearch
  import opened CatalogFollowUps

  /** The position of a product in the ranking. */
  type Rank = Product -> int

  function IdOf(p: Product): string { p.catalogId }

  function Filtering(n: Normalized): Product -> bool { p => CatalogProductMatches(p, n) }

  datatype Found = Found(products: seq<Product>, constraints: Constraints, limit: nat, offset: nat, nextOffset: nat,
                         exhausted: bool)

  function Ranked(records: seq<Product>, rank: Rank, n: Normalized): seq<Product>
  {
    Sort(Filter(records, Filtering(n)), rank)
  }

  function PageOf(matches: seq<Product>, n: Normalized): Found
  {
    var page := Slice(matches, n.offset, n.offset + n.limit);
    Found(page, ResolvedConstraints(n), n.limit, n.offset, n.offset + |page|, n.offset + |page| >= |matches|)
  }

  /** Search in memory: filter, sort, slice. */
  function MemorySearch(records: seq<Product>, rank: Rank, request: Request): Result<Found, CatalogError>
  {
    match Normalize(request)
    case Err(e) => Err(e)
    case Ok(n) => Ok(PageOf(Ranked(records, rank, n), n))
  }

  function Recommend(found: Found, shown: seq<string>): Recommendations
  {
    Recommendations(found.products, found.constraints, found.limit, found.offset, found.exhausted, shown)
  }

  /** The search of a catalog, in memory or in the database. */
  type Search = Request -> Result<Found, CatalogError>

  /** What was found by the request that continues a search, after what was shown so far. */
  function More(search: Search, prior: Recommendations): Result<Recommendations, CatalogError>
  {
    match search(Continuation(prior))
    case Err(e) => Err(e)
    case Ok(found) => Ok(Recommend(found, Unique(prior.shownIds + Map(found.products, IdOf), {})))
  }

  /** The recommendations after asking `k` times for more. */
  function Page(search: Search, request: Request, k: nat): Result<Recommendations, CatalogError>
  {
    if k == 0 then
      match search(request)
      case Err(e) => Err(e)
      case Ok(found) => Ok(Recommend(found, Map(found.products, IdOf)))
    else
      match Page(search, request, k - 1)
      case Err(e) => Err(e)
      case Ok(prior) => More(search, prior)
  }

  function Listed(page: Result<Recommendations, CatalogError>): seq<Product>
  {
    match page case Ok(rec) => rec.products case Err(_) => []
  }

  /** The products of the first pages. */
  function Pages(search: Search, request: Request, pages: nat): seq<Product>
  {
    if pages == 0 then [] else Pages(search, request, pages - 1) + Listed(Page(search, request, pages - 1))
  }

  // ---- One page after the other -------------------------------------------------------

  /** IDs that requests can name: not empty, and without white space around them. */
  ghost predicate Named(ids: seq<string>) { forall id | id in ids :: id != [] && Bare(id, IsSpace) }

  lemma {:induction false} NamedIds(ids: seq<string>)
    requires Named(ids)
    ensures CheckIds(ids).None? && TrimAll(ids) == ids
  {
    forall i | 0 <= i < |ids| ensures Trim(ids[i]) == ids[i] {
      assert ids[i] in ids;
      StripBare(ids[i], IsSpace);
    }
    forall id | id in ids ensures Trim(id) != [] {
      StripBare(id, IsSpace);
    }
  }

  /** The request for more of the same, without what was shown. */
  function Omitting(n: Normalized, shown: seq<string>): Request
  {
    RequestFromConstraints(ResolvedConstraints(n)).(omitIds := shown, offset := Some(n.offset), limit := Some(n.limit))
  }

  lemma {:induction false} OmittingNormalizes(r: Request, n: Normalized, shown: seq<string>)
    requires Normalize(r) == Ok(n) && StableCategory(n) && Named(shown)
    ensures Normalize(Omitting(n, shown)) == Ok(n.(omitIds := shown))
  {
    RebuildRoundTrip(r, n);
    NamedIds(shown);
  }

  /** The search pages through `all`: at first, and then without what was shown. */
  ghost predicate Serves(search: Search, r: Request, n: Normalized, all: seq<Product>)
  {
    match search(r)
    case Err(_) => false
    case Ok(found) =>
      && found == PageOf(all, n)
      && forall shown | Named(shown) :: search(Omitting(n, shown)) == Ok(PageOf(Without(all, IdOf, shown), n))
  }

  ghost predicate ServesIdentified(search: Search, r: Request, n: Normalized, all: seq<Product>)
  {
    match search(r)
    case Err(_) => false
    case Ok(_) => Serves(search, r, n, all) && Identified(all)
  }

  /** The recommendations with the matches from `from` to `to`, when all before were shown. */
  function Showing(all: seq<Product>, n: Normalized, from: nat, to: nat): Recommendations
    requires from <= to <= |all| && Min(n.offset, |all|) <= to
  {
    Recommendations(all[from..to], ResolvedConstraints(n), n.limit, n.offset, to == |all|,
                    Map(all[Min(n.offset, |all|)..to], IdOf))
  }

  ghost predicate Identified(all: seq<Product>) { Distinct(Map(all, IdOf)) && Named(Map(all, IdOf)) }

  lemma {:induction false} NamedPart(all: seq<Product>, a: nat, b: nat)
    requires Named(Map(all, IdOf)) && a <= b <= |all|
    ensures Named(Map(all[a..b], IdOf))
  {
    MapPart(all, IdOf, a, b);
  }

  /** Nothing is shown twice, so the IDs shown are simply appended. */
  lemma {:induction false} ShownAppend(all: seq<Product>, a: nat, b: nat, c: nat)
    requires Identified(all) && a <= b <= c <= |all|
    ensures Unique(Map(all[a..b], IdOf) + Map(all[b..c], IdOf), {}) == Map(all[a..c], IdOf)
  {
    MapPart(all, IdOf, a, b);
    MapPart(all, IdOf, b, c);
    MapPart(all, IdOf, a, c);
    TwoParts(Map(all, IdOf), a, b, c);
    DistinctParts(Map(all, IdOf), a, c);
    UniqueOfDistinct(Map(all[a..c], IdOf), {});
  }

  /** The page after the products up to `to` were shown. */
  lemma {:induction false} PageAfter(all: seq<Product>, n: Normalized, to: nat)
    requires Identified(all) && Min(n.offset, |all|) <= to <= |all|
    ensures var next := Min(to + n.limit, |all|);
            PageOf(Without(all, IdOf, Map(all[Min(n.offset, |all|)..to], IdOf)), n)
            == Found(all[to..next], ResolvedConstraints(n), n.limit, n.offset, n.offset + (next - to), next == |all|)
  {
    CutOut(all, IdOf, Min(n.offset, |all|), to);
    NextSlice(all, n.offset, n.limit, to);
  }

  lemma {:induction false} FirstPage(search: Search, r: Request, n: Normalized, all: seq<Product>)
    requires Serves(search, r, n, all)
    ensures Page(search, r, 0) == Ok(Showing(all, n, Min(n.offset, |all|), Min(n.offset + n.limit, |all|)))
  {
  }

  lemma {:induction false} ServedAgain(search: Search, r: Request, n: Normalized, all: seq<Product>, from: nat, to: nat)
    requires ServesIdentified(search, r, n, all) && Min(n.offset, |all|) <= from <= to <= |all|
    ensures search(Continuation(Showing(all, n, from, to)))
            == Ok(PageOf(Without(all, IdOf, Map(all[Min(n.offset, |all|)..to], IdOf)), n))
  {
    NamedPart(all, Min(n.offset, |all|), to);
    assert Continuation(Showing(all, n, from, to)) == Omitting(n, Map(all[Min(n.offset, |all|)..to], IdOf));
  }

  lemma {:induction false} NextPage(search: Search, r: Request, n: Normalized, all: seq<Product>, from: nat, to: nat)
    requires ServesIdentified(search, r, n, all) && Min(n.offset, |all|) <= from <= to <= |all|
    ensures More(search, Showing(all, n, from, to)) == Ok(Showing(all, n, to, Min(to + n.limit, |all|)))
  {
    var start := Min(n.offset, |all|);
    ServedAgain(search, r, n, all, from, to);
    PageAfter(all, n, to);
    ShownAppend(all, start, to, Min(to + n.limit, |all|));
  }

  /** How many of `size` matches come before page `k`. */
  function Before(n: Normalized, size: nat, k: nat): (r: nat)
    ensures Min(n.offset, size) <= r <= size
  {
    if k == 0 then Min(n.offset, size) else Min(Before(n, size, k - 1) + n.limit, size)
  }

  function PageAt(all: seq<Product>, n: Normalized, k: nat): Recommendations
  {
    Showing(all, n, Before(n, |all|, k), Before(n, |all|, k + 1))
  }

  lemma {:induction false} PageAtNext(search: Search, r: Request, n: Normalized, all: seq<Product>, k: nat)
    requires ServesIdentified(search, r, n, all) && k > 0
    ensures More(search, PageAt(all, n, k - 1)) == Ok(PageAt(all, n, k))
  {
    NextPage(search, r, n, all, Before(n, |all|, k - 1), Before(n, |all|, k));
  }

  /** Each page follows from the one before. */
  ghost predicate Follow(search: Search, r: Request, at: nat -> Recommendations)
  {
    match Page(search, r, 0)
    case Err(_) => false
    case Ok(first) => first == at(0) && forall j: nat | j > 0 :: More(search, at(j - 1)) == Ok(at(j))
  }

  lemma {:induction false} PagesFollow(search: Search, r: Request, at: nat -> Recommendations, k: nat)
    requires Follow(search, r, at)
    ensures Page(search, r, k) == Ok(at(k))
  {
    if k > 0 {
      PagesFollow(search, r, at, k - 1);
    }
  }

  /** Each page begins where the one before ends. */
  ghost predicate Adjoin(at: nat -> Recommendations, all: seq<Product>, cut: nat -> nat)
  {
    match cut(0)
    case start =>
      && start <= |all|
      && forall j: nat | j > 0 :: cut(j - 1) <= cut(j) <= |all| && at(j - 1).products == all[cut(j - 1)..cut(j)]
  }

  lemma {:induction false} PagesGrow(search: Search, r: Request, all: seq<Product>, pages: nat, last: Recommendations,
                                     a: nat, b: nat, c: nat)
    requires a <= b <= c <= |all| && pages > 0 && Pages(search, r, pages - 1) == all[a..b]
    requires Page(search, r, pages - 1) == Ok(last) && last.products == all[b..c]
    ensures Pages(search, r, pages) == all[a..c]
  {
    TwoParts(all, a, b, c);
  }

  lemma {:induction false} PagesJoin(search: Search, r: Request, at: nat -> Recommendations, all: seq<Product>,
                                     cut: nat -> nat, pages: nat)
    requires Follow(search, r, at) && Adjoin(at, all, cut)
    ensures cut(0) <= cut(pages) <= |all| && Pages(search, r, pages) == all[cut(0)..cut(pages)]
  {
    if pages > 0 {
      PagesJoin(search, r, at, all, cut, pages - 1);
      PagesFollow(search, r, at, pages - 1);
      PagesGrow(search, r, all, pages, at(pages - 1), cut(0), cut(pages - 1), cut(pages));
    }
  }

  function Places(all: seq<Product>, n: Normalized): nat -> Recommendations { (k: nat) => PageAt(all, n, k) }

  function Cuts(n: Normalized, size: nat): nat -> nat { (k: nat) => Before(n, size, k) }

  lemma {:induction false} PlaceNext(search: Search, r: Request, n: Normalized, all: seq<Product>, k: nat)
    requires ServesIdentified(search, r, n, all) && k > 0
    ensures More(search, Places(all, n)(k - 1)) == Ok(Places(all, n)(k))
  {
    PageAtNext(search, r, n, all, k);
  }

  lemma {:induction false} PlacesFollow(search: Search, r: Request, n: Normalized, all: seq<Product>)
    requires ServesIdentified(search, r, n, all)
    ensures Follow(search, r, Places(all, n))
  {
    var at := Places(all, n);
    FirstPage(search, r, n, all);
    forall j: nat | j > 0 ensures More(search, at(j - 1)) == Ok(at(j)) {
      PlaceNext(search, r, n, all, j);
    }
  }

  lemma {:induction false} PlacesAdjoin(all: seq<Product>, n: Normalized)
    ensures Adjoin(Places(all, n), all, Cuts(n, |all|))
  {
  }

  /** Page `k` holds the next matches in the order of the ranking, and is exhausted exactly if none remain. */
  lemma {:induction false} EveryPage(search: Search, r: Request, n: Normalized, all: seq<Product>, k: nat)
    requires ServesIdentified(search, r, n, all)
    ensures Page(search, r, k) == Ok(PageAt(all, n, k))
  {
    PlacesFollow(search, r, n, all);
    PagesFollow(search, r, Places(all, n), k);
  }

  lemma {:induction false} PagesInOrder(search: Search, r: Request, n: Normalized, all: seq<Product>, pages: nat)
    requires ServesIdentified(search, r, n, all)
    ensures Pages(search, r, pages) == all[Min(n.offset, |all|)..Before(n, |all|, pages)]
  {
    PlacesFollow(search, r, n, all);
    PlacesAdjoin(all, n);
    PagesJoin(search, r, Places(all, n), all, Cuts(n, |all|), pages);
  }

  lemma {:induction false} BeforeGrows(n: Normalized, size: nat, k: nat)
    requires n.limit >= 1
    ensures Before(n, size, k) >= Min(k, size)
  {
    if k > 0 {
      BeforeGrows(n, size, k - 1);
    }
  }

  /** After `pages` pages, the products listed are the first matches from the offset on, in order; the last
      page is exhausted exactly if these are all, and sooner or later it is. */
  ghost predicate Enumerates(listed: seq<Product>, last: Result<Recommendations, CatalogError>, all: seq<Product>,
                             offset: nat, pages: nat)
  {
    match last
    case Err(_) => false
    case Ok(rec) =>
      && listed <= all[Min(offset, |all|)..]
      && (rec.exhausted <==> listed == all[Min(offset, |all|)..])
      && (pages >= |all| ==> rec.exhausted)
  }

  lemma {:induction false} EnumeratesTo(all: seq<Product>, n: Normalized, from: nat, to: nat, pages: nat)
    requires Min(n.offset, |all|) <= from <= to <= |all| && Min(pages, |all|) <= to
    ensures Enumerates(all[Min(n.offset, |all|)..to], Ok(Showing(all, n, from, to)), all, n.offset, pages)
  {
    var start := Min(n.offset, |all|);
    assert to < |all| ==> |all[start..to]| != |all[start..]|;
  }

  lemma {:induction false} ServedEnumerates(search: Search, r: Request, n: Normalized, all: seq<Product>, pages: nat)
    requires ServesIdentified(search, r, n, all) && n.limit >= 1 && pages > 0
    ensures Enumerates(Pages(search, r, pages), Page(search, r, pages - 1), all, n.offset, pages)
  {
    PagesInOrder(search, r, n, all, pages);
    EveryPage(search, r, n, all, pages - 1);
    BeforeGrows(n, |all|, pages);
    EnumeratesTo(all, n, Before(n, |all|, pages - 1), Before(n, |all|, pages), pages);
  }

  // ---- The search in memory -----------------------------------------------------------

  lemma {:induction false} OmittedMatches(p: Product, n: Normalized, ids: seq<string>)
    requires n.omitIds == []
    ensures CatalogProductMatches(p, n.(omitIds := ids)) <==> CatalogProductMatches(p, n) && p.catalogId !in ids
  {
    NothingBefore(n.intentionalExcludeIds);
  }

  /** The filter without the shown products finds what remains when they are taken out of the matches. */
  lemma {:induction false} RemainingMatches(records: seq<Product>, rank: Rank, n: Normalized, ids: seq<string>)
    requires n.omitIds == []
    ensures Ranked(records, rank, n.(omitIds := ids)) == Without(Ranked(records, rank, n), IdOf, ids)
  {
    var fewer := n.(omitIds := ids);
    SortFilter(records, rank, Filtering(n));
    SortFilter(records, rank, Filtering(fewer));
    forall p | p in Sort(records, rank) ensures Filtering(fewer)(p) <==> Filtering(n)(p) && IdOf(p) !in ids {
      OmittedMatches(p, n, ids);
    }
    FilterWithout(Sort(records, rank), Filtering(n), Filtering(fewer), IdOf, ids);
  }

  lemma {:induction false} PageOfOmitted(matches: seq<Product>, n: Normalized, ids: seq<string>)
    ensures PageOf(matches, n.(omitIds := ids)) == PageOf(matches, n)
  {
  }

  lemma {:induction false} MemoryServes(records: seq<Product>, rank: Rank, r: Request, n: Normalized)
    requires Normalize(r) == Ok(n) && n.omitIds == [] && StableCategory(n)
    ensures Serves(q => MemorySearch(records, rank, q), r, n, Ranked(records, rank, n))
  {
    forall shown | Named(shown)
      ensures MemorySearch(records, rank, Omitting(n, shown))
                == Ok(PageOf(Without(Ranked(records, rank, n), IdOf, shown), n))
    {
      MemoryContinues(records, rank, r, n, shown);
    }
  }

  lemma {:induction false} MemoryContinues(records: seq<Product>, rank: Rank, r: Request, n: Normalized,
                                           shown: seq<string>)
    requires Normalize(r) == Ok(n) && n.omitIds == [] && StableCategory(n) && Named(shown)
    ensures MemorySearch(records, rank, Omitting(n, shown))
              == Ok(PageOf(Without(Ranked(records, rank, n), IdOf, shown), n))
  {
    OmittingNormalizes(r, n, shown);
    RemainingMatches(records, rank, n, shown);
    PageOfOmitted(Without(Ranked(records, rank, n), IdOf, shown), n, shown);
  }

  lemma {:induction false} RankedIdentified(records: seq<Product>, rank: Rank, n: Normalized)
    requires Identified(records)
    ensures Identified(Ranked(records, rank, n))
  {
    var kept := Filter(records, Filtering(n));
    FilterDistinct(records, Filtering(n), IdOf);
    SortDistinct(kept, rank, IdOf);
    forall id | id in Map(Sort(kept, rank), IdOf) ensures id in Map(records, IdOf) {
      KeyMembers(Sort(kept, rank), IdOf, id);
      var p :| p in Sort(kept, rank) && IdOf(p) == id;
      SortMembers(kept, rank, p);
      FilterMembers(records, Filtering(n), p);
      KeyMembers(records, IdOf, id);
    }
  }

  lemma {:induction false} LimitAtLeastOne(r: Request, n: Normalized)
    requires Normalize(r) == Ok(n)
    ensures n.limit >= 1
  {
  }

  /** Asking for more lists the matches from the offset on, in the order of the ranking, without repeats or
      gaps; the last page is exhausted exactly if all of them are listed, and sooner or later it is. */
  lemma {:induction false} ShowMoreEnumerates(records: seq<Product>, rank: Rank, r: Request, n: Normalized, pages: nat)
    requires Identified(records) && Normalize(r) == Ok(n) && n.omitIds == [] && StableCategory(n) && pages > 0
    ensures var search: Search := q => MemorySearch(records, rank, q);
            Enumerates(Pages(search, r, pages), Page(search, r, pages - 1), Ranked(records, rank, n), n.offset, pages)
  {
    RankedIdentified(records, rank, n);
    MemoryServes(records, rank, r, n);
    LimitAtLeastOne(r, n);
    ServedEnumerates(q => MemorySearch(records, rank, q), r, n, Ranked(records, rank, n), pages);
  }
}
