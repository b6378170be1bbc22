/** What a search finds, in terms of the request as it was made: packages/decorator-agent/src/catalog.ts. */
module CatalogAnswers {
  import opened Outcomes
  import opened CatalogText
  import opened WhiteSpace
  import opened CatalogLists
  import opened CatalogCategories
  import opened CatalogSearch
  import opened CatalogFollowUps
  import opened CatalogPages

  // ---- Requests that are accepted -------------------------------------------------------

  predicate SaysSomething(text: string) { exists i :: 0 <= i < |text| && !IsSpace(text[i]) }

  predicate ProperText(value: Option<string>) { value.Some? ==> SaysSomething(value.value) }

  predicate ProperRange(range: Range)
  {
    match (range.min, range.max)
    case (Some(min), Some(max)) => 0.0 < min <= max
    case (Some(min), None) => 0.0 < min
    case (None, Some(max)) => 0.0 < max
    case (None, None) => true
  }

  predicate ProperMoney(value: Option<Money>)
  {
    value.Some? ==> SaysSomething(value.value.currency) && value.value.amountMinor >= 0
  }

  predicate OneCurrency(a: Money, b: Money) { Upper(Trim(a.currency)) == Upper(Trim(b.currency)) }

  predicate ProperPrices(min: Option<Money>, max: Option<Money>)
  {
    && ProperMoney(min) && ProperMoney(max)
    && (min.Some? && max.Some? ==>
          OneCurrency(min.value, max.value) && min.value.amountMinor <= max.value.amountMinor)
  }

  ghost predicate Proper(r: Request)
  {
    && ProperText(r.category) && ProperText(r.brand) && ProperText(r.color) && ProperText(r.style)
    && ProperText(r.material)
    && (forall axis: Axis :: ProperRange(r.sizes.Of(axis))) && ProperPrices(r.minPrice, r.maxPrice)
    && (r.limit.Some? ==> 1 <= r.limit.value <= 20) && (r.offset.Some? ==> 0 <= r.offset.value)
    && forall id | id in r.excludeIds || id in r.omitIds :: SaysSomething(id)
  }

  // ---- What meets a request -------------------------------------------------------------

  predicate SameBrand(source: Option<string>, brand: string)
  {
    NormalizeBrand(if source.Some? then source.value else "") == NormalizeBrand(brand)
  }

  function CategoryName(text: string): string { Canonical(Key(Trim(text))) }

  /** Names of one category: the same canonical name, whatever the spelling. */
  predicate SameCategory(column: Option<string>, category: string)
  {
    column.Some? && SaysSomething(column.value) && CategoryName(column.value) == CategoryName(category) != []
  }

  /** A fact says what is wanted, whole or as one of its words, in any case. */
  predicate Says(fact: string, wanted: string)
  {
    SaysSomething(fact) && (Lower(Trim(fact)) == Lower(Trim(wanted)) || Lower(Trim(wanted)) in Tokens(fact))
  }

  predicate AnySays(facts: seq<string>, wanted: string)
  {
    exists i | 0 <= i < |facts| :: Says(facts[i], wanted)
  }

  predicate Suits(value: Option<string>, wanted: Option<string>)
  {
    wanted.Some? ==> value.Some? && Says(value.value, wanted.value)
  }

  /** A known size within the bounds; an unknown one only if there are none. */
  predicate Within(value: Option<real>, range: Range)
  {
    range.min.Some? || range.max.Some? ==>
      && value.Some? && (range.min.Some? ==> range.min.value <= value.value)
      && (range.max.Some? ==> value.value < range.max.value || (value.value == range.max.value && !range.exclusiveMax))
  }

  predicate Affordable(price: Option<Money>, min: Option<Money>, max: Option<Money>)
  {
    && (min.Some? ==> price.Some? && OneCurrency(price.value, min.value)
                      && min.value.amountMinor <= price.value.amountMinor)
    && (max.Some? ==> price.Some? && OneCurrency(price.value, max.value)
                      && price.value.amountMinor <= max.value.amountMinor)
  }

  ghost predicate Meets(p: Product, r: Request)
  {
    && (forall id | id in r.excludeIds || id in r.omitIds :: p.catalogId != Trim(id))
    && (r.category.Some? ==> SameCategory(p.category, r.category.value))
    && (r.brand.Some? ==> SameBrand(p.source, r.brand.value))
    && (r.color.Some? ==>
          AnySays(p.availableColors, r.color.value) || (p.color.Some? && Says(p.color.value, r.color.value)))
    && Suits(p.style, r.style) && Suits(p.materials, r.material)
    && (forall axis: Axis :: Within(p.dimensions.Of(axis), r.sizes.Of(axis)))
    && Affordable(p.price, r.minPrice, r.maxPrice)
  }

  // ---- Normalizing keeps the meaning ----------------------------------------------------

  lemma {:induction false} TrimLeaves(text: string)
    ensures Trim(text) != [] <==> SaysSomething(text)
  {
    var front, back := StripParts(text, IsSpace);
    if Trim(text) != [] {
      assert text[|front|] == Trim(text)[0];
    } else {
      assert text == front + back;
      forall i | 0 <= i < |text| ensures IsSpace(text[i]) {
        assert text[i] in front || text[i] in back;
      }
    }
  }

  lemma {:induction false} TextIs(value: Option<string>)
    ensures CheckText(value).None? <==> ProperText(value)
  {
    if value.Some? {
      TrimLeaves(value.value);
    }
  }

  lemma {:induction false} MoneyIs(value: Option<Money>)
    ensures CheckMoney(value).None? <==> ProperMoney(value)
  {
    if value.Some? {
      TrimLeaves(value.value.currency);
    }
  }

  lemma {:induction false} IdsAre(ids: seq<string>)
    ensures CheckIds(ids).None? <==> forall id | id in ids :: SaysSomething(id)
  {
    forall id ensures Trim(id) != [] <==> SaysSomething(id) {
      TrimLeaves(id);
    }
  }

  lemma {:induction false} SizesAre(sizes: Sizes)
    ensures SizeError(sizes).None? <==> forall axis: Axis :: ProperRange(sizes.Of(axis))
  {
    assert sizes.Of(Width) == sizes.width && sizes.Of(Depth) == sizes.depth && sizes.Of(Height) == sizes.height;
    forall range ensures CheckBounds(range).None? && CheckRange(range).None? <==> ProperRange(range) {
    }
    assert SizeError(sizes).None? <==> ProperRange(sizes.Of(Width)) && ProperRange(sizes.Of(Depth))
                                       && ProperRange(sizes.Of(Height));
  }

  lemma {:induction false} PricesAre(min: Option<Money>, max: Option<Money>)
    ensures CheckMoney(min).None? && CheckMoney(max).None? && CheckPrices(min, max).None? <==> ProperPrices(min, max)
  {
    MoneyIs(min);
    MoneyIs(max);
  }

  /** A request is accepted exactly if all its texts say something, its bounds are positive and in order, in one
      currency, and its page is one of at most twenty. */
  lemma {:induction false} AcceptedExactly(r: Request)
    ensures Normalize(r).Ok? <==> Proper(r)
  {
    TextIs(r.category);
    TextIs(r.brand);
    TextIs(r.color);
    TextIs(r.style);
    TextIs(r.material);
    SizesAre(r.sizes);
    PricesAre(r.minPrice, r.maxPrice);
    IdsAre(r.excludeIds);
    IdsAre(r.omitIds);
  }

  lemma {:induction false} ExcludedIs(ids: seq<string>, x: string)
    ensures x in TrimAll(ids) <==> exists id :: id in ids && Trim(id) == x
  {
    if x in TrimAll(ids) {
      var i :| 0 <= i < |ids| && TrimAll(ids)[i] == x;
      assert ids[i] in ids;
    }
    if id :| id in ids && Trim(id) == x {
      var i :| 0 <= i < |ids| && ids[i] == id;
      assert TrimAll(ids)[i] == x;
    }
  }

  lemma {:induction false} BrandIs(source: Option<string>, brand: Option<string>)
    requires ProperText(brand)
    ensures var wanted := if brand.None? then None else Some(NormalizeBrand(Trim(brand.value)));
            (Truthy(wanted).Some? ==> BrandMatches(source, wanted.value))
            <==> (brand.Some? ==> SameBrand(source, brand.value))
  {
    if brand.Some? {
      TrimLeaves(brand.value);
      TrimIdempotent(brand.value);
      BrandForm(Trim(brand.value));
    }
  }

  lemma {:induction false} NameIs(category: string)
    ensures EquivalentCategories(category).first == CategoryName(category)
  {
  }

  lemma {:induction false} HasName(text: string, wanted: string)
    ensures EquivalentCategories(wanted).Has(CategoryName(text)) <==> CategoryName(text) == CategoryName(wanted)
  {
    CanonicalIsNoAlias(Key(Trim(text)));
  }

  lemma {:induction false} CategoryIs(column: Option<string>, category: string)
    ensures CategoryMatches(column, EquivalentCategories(Trim(category))) <==> SameCategory(column, category)
  {
    TrimIdempotent(category);
    assert CategoryName(Trim(category)) == CategoryName(category);
    if column.Some? {
      NameIs(column.value);
      HasName(column.value, Trim(category));
      TrimLeaves(column.value);
      if Trim(column.value) == [] {
        EmptyIsCanonical();
      }
    }
  }

  lemma {:induction false} SaysIs(fact: string, wanted: string)
    requires SaysSomething(wanted)
    ensures Trim(Trim(wanted)) != [] && (TokenMatch(fact, Trim(wanted)) <==> Says(fact, wanted))
  {
    TrimLeaves(fact);
    TrimLeaves(wanted);
    TrimIdempotent(wanted);
  }

  lemma {:induction false} AnySaysIs(facts: seq<string>, wanted: string)
    requires SaysSomething(wanted)
    ensures TokenMatches(facts, Trim(wanted)) <==> AnySays(facts, wanted)
  {
    forall i | 0 <= i < |facts| ensures TokenMatch(facts[i], Trim(wanted)) <==> Says(facts[i], wanted) {
      SaysIs(facts[i], wanted);
    }
    SaysIs([], wanted);
  }

  lemma {:induction false} AnyOfBoth(a: seq<string>, b: seq<string>, wanted: string)
    ensures AnySays(a + b, wanted) <==> AnySays(a, wanted) || AnySays(b, wanted)
  {
    if i :| 0 <= i < |a| && Says(a[i], wanted) {
      assert (a + b)[i] == a[i];
    }
    if i :| 0 <= i < |b| && Says(b[i], wanted) {
      assert (a + b)[|a| + i] == b[i];
    }
  }

  lemma {:induction false} OneSays(value: Option<string>, wanted: string)
    ensures AnySays(Facts(value), wanted) <==> value.Some? && Says(value.value, wanted)
  {
    if value.Some? {
      assert Facts(value)[0] == value.value;
    }
  }

  lemma {:induction false} SuitsIs(value: Option<string>, wanted: Option<string>)
    requires ProperText(wanted)
    ensures (Truthy(Trimmed(wanted)).Some? ==> TokenMatches(Facts(value), Trimmed(wanted).value))
            <==> Suits(value, wanted)
  {
    if wanted.Some? {
      TrimLeaves(wanted.value);
      AnySaysIs(Facts(value), wanted.value);
      OneSays(value, wanted.value);
    }
  }

  lemma {:induction false} ColorIs(p: Product, wanted: Option<string>)
    requires ProperText(wanted)
    ensures (Truthy(Trimmed(wanted)).Some? ==>
               TokenMatches(Facts(p.color) + p.availableColors, Trimmed(wanted).value))
            <==> (wanted.Some? ==>
                    AnySays(p.availableColors, wanted.value) || (p.color.Some? && Says(p.color.value, wanted.value)))
  {
    if wanted.Some? {
      TrimLeaves(wanted.value);
      AnySaysIs(Facts(p.color) + p.availableColors, wanted.value);
      AnyOfBoth(Facts(p.color), p.availableColors, wanted.value);
      OneSays(p.color, wanted.value);
    }
  }

  lemma {:induction false} SizesMean(d: Dimensions, sizes: Sizes)
    ensures SizeMatches(d, sizes) <==> forall axis: Axis :: Within(d.Of(axis), sizes.Of(axis))
  {
    assert d.Of(Width) == d.width && d.Of(Depth) == d.depth && d.Of(Height) == d.height;
    assert sizes.Of(Width) == sizes.width && sizes.Of(Depth) == sizes.depth && sizes.Of(Height) == sizes.height;
    forall value, range ensures DimensionMatches(value, range) <==> Within(value, range) {
    }
    assert SizeMatches(d, sizes) <==> Within(d.Of(Width), sizes.Of(Width)) && Within(d.Of(Depth), sizes.Of(Depth))
                                      && Within(d.Of(Height), sizes.Of(Height));
  }

  lemma {:induction false} PricesMean(price: Option<Money>, min: Option<Money>, max: Option<Money>)
    ensures PriceMatches(price, TrimMoney(min), TrimMoney(max)) <==> Affordable(price, min, max)
  {
  }

  /** The normalized request accepts exactly what the request asks for. */
  lemma {:induction false} NormalizedMeans(p: Product, r: Request)
    requires Proper(r)
    ensures Normalize(r).Ok? && (CatalogProductMatches(p, Normalize(r).value) <==> Meets(p, r))
  {
    AcceptedExactly(r);
    var n := Normalize(r).value;
    ExcludedIs(r.excludeIds, p.catalogId);
    ExcludedIs(r.omitIds, p.catalogId);
    assert p.catalogId !in n.ExcludeIds()
      <==> forall id | id in r.excludeIds || id in r.omitIds :: p.catalogId != Trim(id);
    TextsMean(p, r);
    SizesMean(p.dimensions, r.sizes);
    PricesMean(p.price, r.minPrice, r.maxPrice);
  }

  lemma {:induction false} TextsMean(p: Product, r: Request)
    requires Proper(r) && Normalize(r).Ok?
    ensures TextMatches(p, Normalize(r).value)
            <==> && (r.category.Some? ==> SameCategory(p.category, r.category.value))
                 && (r.brand.Some? ==> SameBrand(p.source, r.brand.value))
                 && (r.color.Some? ==>
                       AnySays(p.availableColors, r.color.value)
                       || (p.color.Some? && Says(p.color.value, r.color.value)))
                 && Suits(p.style, r.style) && Suits(p.materials, r.material)
  {
    if r.category.Some? {
      CategoryIs(p.category, r.category.value);
    }
    BrandIs(p.source, r.brand);
    ColorIs(p, r.color);
    SuitsIs(p.style, r.style);
    SuitsIs(p.materials, r.material);
  }

  // ---- Pages ----------------------------------------------------------------------------

  /** All products that meet the request, as often as the catalog has them, in the order of the ranking. */
  ghost predicate AllMeeting(records: seq<Product>, rank: Rank, r: Request, matches: seq<Product>)
  {
    && Sorted(matches, rank)
    && forall p :: multiset(matches)[p] == if Meets(p, r) then multiset(records)[p] else 0
  }

  function From(r: Request): int { if r.offset.Some? then r.offset.value else 0 }

  function Most(r: Request): int { if r.limit.Some? then r.limit.value else 5 }

  /** The page that the request asks for. */
  predicate IsPage(matches: seq<Product>, r: Request, found: Found)
  {
    var at := From(r);
    && found.offset == at && found.limit == Most(r) && found.nextOffset == at + |found.products|
    && (found.exhausted <==> |matches| <= at + |found.products|)
    && if at >= |matches| then found.products == []
       else found.products <= matches[at..] && |found.products| == Min(found.limit, |matches| - at)
  }

  lemma {:induction false} InsertCounts<T>(x: T, s: seq<T>, rank: T -> int)
    ensures multiset(Insert(x, s, rank)) == multiset(s) + multiset{x}
  {
    if s != [] {
      HeadTail(s);
      if rank(x) > rank(s[0]) {
        InsertCounts(x, s[1..], rank);
      }
    }
  }

  lemma {:induction false} SortCounts<T>(s: seq<T>, rank: T -> int)
    ensures multiset(Sort(s, rank)) == multiset(s)
  {
    if s != [] {
      HeadTail(s);
      SortCounts(s[1..], rank);
      InsertCounts(s[0], Sort(s[1..], rank), rank);
    }
  }

  lemma {:induction false} FilterCounts<T>(s: seq<T>, keep: T -> bool, x: T)
    ensures multiset(Filter(s, keep))[x] == if keep(x) then multiset(s)[x] else 0
  {
    if s != [] {
      HeadTail(s);
      FilterCounts(s[1..], keep, x);
    }
  }

  lemma {:induction false} RankedMeets(records: seq<Product>, rank: Rank, r: Request)
    requires Proper(r)
    ensures Normalize(r).Ok? && AllMeeting(records, rank, r, Ranked(records, rank, Normalize(r).value))
  {
    AcceptedExactly(r);
    var n := Normalize(r).value;
    var kept := Filter(records, Filtering(n));
    SortSorted(kept, rank);
    SortCounts(kept, rank);
    forall p ensures multiset(kept)[p] == if Meets(p, r) then multiset(records)[p] else 0 {
      FilterCounts(records, Filtering(n), p);
      NormalizedMeans(p, r);
    }
  }

  lemma {:induction false} PageIs(matches: seq<Product>, r: Request)
    requires Proper(r)
    ensures Normalize(r).Ok? && IsPage(matches, r, PageOf(matches, Normalize(r).value))
  {
    AcceptedExactly(r);
  }

  /** A search is refused exactly if its request is not a proper one; otherwise it gives the page asked for of
      all products that meet the request, in the order of the ranking. */
  lemma {:induction false} SearchAnswers(records: seq<Product>, rank: Rank, r: Request)
    ensures match MemorySearch(records, rank, r)
            case Err(_) => !Proper(r)
            case Ok(found) =>
              Proper(r) && exists matches :: AllMeeting(records, rank, r, matches) && IsPage(matches, r, found)
  {
    AcceptedExactly(r);
    if Proper(r) {
      RankedMeets(records, rank, r);
      PageIs(Ranked(records, rank, Normalize(r).value), r);
    }
  }

  /** A refinement starts over: from the first match, with nothing left out that was only shown. */
  lemma {:induction false} RefinementStartsOver(prior: Recommendations, followUp: FollowUp, catalogId: Option<string>,
                                                dimension: Option<Axis>, candidates: seq<Product>)
    requires !followUp.ShowMore? && MergeCatalogFollowUp(prior, followUp, catalogId, dimension, candidates).Ok?
    ensures var asked := MergeCatalogFollowUp(prior, followUp, catalogId, dimension, candidates).value;
            From(asked) == 0 && Most(asked) == prior.limit && asked.omitIds == []
            && asked.excludeIds == prior.constraints.excludeIds
  {
  }
}
