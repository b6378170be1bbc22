/** Requests, products, the filter, saved constraints and follow-ups: packages/decorator-agent/src/catalog.ts.
    A range groups the bounds of one dimension; the free text of a query does not filter and is not kept. */
module CatalogSearch {
  import opened Outcomes
  import opened CatalogText
  import opened WhiteSpace
  import opened CatalogAliases
  import opened CatalogCategories

  const DEFAULT_CATALOG_LIMIT := 5
  const MAX_CATALOG_LIMIT := 20

  datatype CatalogError = InvalidArguments | UnsupportedFilter

  datatype Money = Money(amountMinor: int, currency: string)

  datatype Range = Range(min: Option<real>, max: Option<real>, exclusiveMax: bool)

  const ANY := Range(None, None, false)

  datatype Axis = Width | Depth | Height

  datatype Sizes = Sizes(width: Range, depth: Range, height: Range)
  {
    function Of(axis: Axis): Range { match axis case Width => width case Depth => depth case Height => height }

    function With(axis: Axis, range: Range): Sizes
    {
      match axis
      case Width => this.(width := range)
      case Depth => this.(depth := range)
      case Height => this.(height := range)
    }
  }

  datatype Dimensions = Dimensions(width: Option<real>, depth: Option<real>, height: Option<real>)
  {
    function Of(axis: Axis): Option<real> { match axis case Width => width case Depth => depth case Height => height }
  }

  datatype Request = Request(category: Option<string>, brand: Option<string>, color: Option<string>,
                             style: Option<string>,
                             material: Option<string>, sizes: Sizes, minPrice: Option<Money>, maxPrice: Option<Money>,
                             limit: Option<int>, offset: Option<int>, excludeIds: seq<string>, omitIds: seq<string>)

  datatype Normalized = Normalized(categories: Option<Categories>, brand: Option<string>, color: Option<string>,
                                   style: Option<string>,
                                   material: Option<string>, sizes: Sizes, minPrice: Option<Money>,
                                     maxPrice: Option<Money>,
                                   limit: nat, offset: nat, intentionalExcludeIds: seq<string>, omitIds: seq<string>)
  {
    function ExcludeIds(): seq<string> { intentionalExcludeIds + omitIds }
  }

  datatype Product = Product(catalogId: string, source: Option<string>, category: Option<string>, color: Option<string>,
                             availableColors: seq<string>, style: Option<string>, materials: Option<string>,
                             dimensions: Dimensions, price: Option<Money>)

  // ---- Normalizing a request --------------------------------------------------------

  function Check(ok: bool, error: CatalogError): Option<CatalogError> { if ok then None else Some(error) }

  function Or(first: Option<CatalogError>, next: Option<CatalogError>): Option<CatalogError>
  {
    if first.Some? then first else next
  }

  function CheckText(value: Option<string>): Option<CatalogError>
  {
    Check(value.Some? ==> Trim(value.value) != [], InvalidArguments)
  }

  function CheckBounds(range: Range): Option<CatalogError>
  {
    Check((range.min.Some? ==> range.min.value > 0.0) && (range.max.Some? ==> range.max.value > 0.0), InvalidArguments)
  }

  function CheckRange(range: Range): Option<CatalogError>
  {
    Check(range.min.Some? && range.max.Some? ==> range.min.value <= range.max.value, InvalidArguments)
  }

  function CheckMoney(value: Option<Money>): Option<CatalogError>
  {
    if value.None? then None
    else if Trim(value.value.currency) == [] then Some(UnsupportedFilter)
    else Check(value.value.amountMinor >= 0, InvalidArguments)
  }

  function CheckPrices(min: Option<Money>, max: Option<Money>): Option<CatalogError>
  {
    if min.None? || max.None? then None
    else if Upper(Trim(min.value.currency)) != Upper(Trim(max.value.currency)) then Some(UnsupportedFilter)
    else Check(min.value.amountMinor <= max.value.amountMinor, InvalidArguments)
  }

  function CheckIds(ids: seq<string>): Option<CatalogError>
  {
    Check(forall id | id in ids :: Trim(id) != [], InvalidArguments)
  }

  function SizeError(s: Sizes): Option<CatalogError>
  {
    Or(CheckBounds(s.width), Or(CheckBounds(s.depth), Or(CheckBounds(s.height),
    Or(CheckRange(s.width), Or(CheckRange(s.depth), CheckRange(s.height))))))
  }

  /** The first check that fails. */
  function RequestError(r: Request): Option<CatalogError>
  {
    Or(CheckText(r.category), Or(CheckText(r.color), Or(CheckText(r.style), Or(CheckText(r.material),
    Or(SizeError(r.sizes),
    Or(CheckMoney(r.minPrice), Or(CheckMoney(r.maxPrice), Or(CheckPrices(r.minPrice, r.maxPrice),
    Or(Check(r.limit.Some? ==> 1 <= r.limit.value <= MAX_CATALOG_LIMIT, InvalidArguments),
    Or(Check(r.offset.Some? ==> 0 <= r.offset.value, InvalidArguments),
    Or(CheckIds(r.excludeIds), Or(CheckIds(r.omitIds), CheckText(r.brand)))))))))))))
  }

  function Trimmed(value: Option<string>): Option<string> { if value.None? then None else Some(Trim(value.value)) }

  function TrimMoney(value: Option<Money>): Option<Money>
  {
    if value.None? then None else Some(value.value.(currency := Trim(value.value.currency)))
  }

  function TrimAll(ids: seq<string>): (r: seq<string>)
    ensures |r| == |ids| && forall i | 0 <= i < |ids| :: r[i] == Trim(ids[i])
  {
    seq(|ids|, i requires 0 <= i < |ids| => Trim(ids[i]))
  }

  function Normalize(r: Request): Result<Normalized, CatalogError>
  {
    if RequestError(r).Some? then Err(RequestError(r).value)
    else
      Ok(Normalized(if r.category.None? then None else Some(EquivalentCategories(Trim(r.category.value))),
                    if r.brand.None? then None else Some(NormalizeBrand(Trim(r.brand.value))),
                    Trimmed(r.color), Trimmed(r.style), Trimmed(r.material), r.sizes, TrimMoney(r.minPrice),
                      TrimMoney(r.maxPrice),
                    if r.limit.None? then DEFAULT_CATALOG_LIMIT else r.limit.value,
                    if r.offset.None? then 0 else r.offset.value,
                    TrimAll(r.excludeIds), TrimAll(r.omitIds)))
  }

  // ---- The filter -------------------------------------------------------------------

  function Truthy(value: Option<string>): Option<string> { if value.None? || value.value == [] then None else value }

  predicate TokenMatch(fact: string, needle: string)
  {
    Trim(fact) != [] && (Lower(Trim(fact)) == Lower(Trim(needle)) || Lower(Trim(needle)) in Tokens(fact))
  }

  predicate TokenMatches(facts: seq<string>, needle: string)
  {
    Trim(needle) != [] && exists i | 0 <= i < |facts| :: TokenMatch(facts[i], needle)
  }

  function Facts(value: Option<string>): seq<string> { if value.None? then [] else [value.value] }

  predicate DimensionMatches(value: Option<real>, range: Range)
  {
    || (range.min.None? && range.max.None?)
    || (&& value.Some? && (range.min.Some? ==> range.min.value <= value.value)
        && (range.max.Some? ==>
              if range.exclusiveMax then value.value < range.max.value else value.value <= range.max.value))
  }

  predicate SameCurrency(price: Money, bound: Money) { Upper(Trim(price.currency)) == Upper(bound.currency) }

  predicate PriceMatches(price: Option<Money>, min: Option<Money>, max: Option<Money>)
  {
    || (min.None? && max.None?)
    || (&& price.Some?
        && (min.Some? ==> SameCurrency(price.value, min.value) && min.value.amountMinor <= price.value.amountMinor)
        && (max.Some? ==> SameCurrency(price.value, max.value) && price.value.amountMinor <= max.value.amountMinor))
  }

  predicate BrandMatches(source: Option<string>, brand: string)
  {
    NormalizeBrand(if source.None? then [] else source.value) == brand
  }

  predicate TextMatches(p: Product, n: Normalized)
  {
    && (Truthy(n.brand).Some? ==> BrandMatches(p.source, n.brand.value))
    && (n.categories.Some? ==> CategoryMatches(p.category, n.categories.value))
    && (Truthy(n.color).Some? ==> TokenMatches(Facts(p.color) + p.availableColors, n.color.value))
    && (Truthy(n.style).Some? ==> TokenMatches(Facts(p.style), n.style.value))
    && (Truthy(n.material).Some? ==> TokenMatches(Facts(p.materials), n.material.value))
  }

  predicate SizeMatches(d: Dimensions, sizes: Sizes)
  {
    DimensionMatches(d.width, sizes.width) && DimensionMatches(d.depth, sizes.depth)
    && DimensionMatches(d.height, sizes.height)
  }

  predicate CatalogProductMatches(p: Product, n: Normalized)
  {
    && p.catalogId !in n.ExcludeIds() && TextMatches(p, n)
    && SizeMatches(p.dimensions, n.sizes) && PriceMatches(p.price, n.minPrice, n.maxPrice)
  }

  // ---- Saved constraints ------------------------------------------------------------

  datatype Constraints = Constraints(category: Option<Categories>, brand: Option<string>, color: Option<string>,
                                     style: Option<string>,
                                     material: Option<string>, sizes: Sizes, minPrice: Option<Money>,
                                       maxPrice: Option<Money>,
                                     excludeIds: seq<string>)

  function ResolvedConstraints(n: Normalized): Constraints
  {
    Constraints(n.categories, Truthy(n.brand), Truthy(n.color), Truthy(n.style), Truthy(n.material), n.sizes,
                n.minPrice, n.maxPrice,
                n.intentionalExcludeIds)
  }

  function RequestFromConstraints(c: Constraints): Request
  {
    Request(if c.category.None? then None
            else Some(c.category.value.first), c.brand, c.color, c.style, c.material, c.sizes,
            c.minPrice, c.maxPrice, None, None, c.excludeIds, [])
  }

  /** The canonical category can be saved and read again. */
  predicate StableCategory(n: Normalized)
  {
    n.categories.Some? ==> var name := n.categories.value.first; name != [] && Bare(name, IsSpace) && !Plural(name)
  }

  /** The request of the same filter that starts over: what was only left out while paging is back. */
  function Restarted(n: Normalized): Normalized { n.(offset := 0, omitIds := []) }

  lemma {:induction false} TextStable(value: Option<string>)
    requires CheckText(value).None?
    ensures CheckText(Truthy(Trimmed(value))).None? && Trimmed(Truthy(Trimmed(value))) == Trimmed(value)
  {
    if value.Some? {
      TrimIdempotent(value.value);
    }
  }

  lemma {:induction false} BrandStable(value: Option<string>)
    requires CheckText(value).None? && value.Some?
    ensures var b := Some(NormalizeBrand(Trim(value.value)));
            CheckText(b).None? && Truthy(b) == b && NormalizeBrand(Trim(b.value)) == b.value
  {
    TrimIdempotent(value.value);
    BrandForm(Trim(value.value));
  }

  lemma {:induction false} MoneyStable(value: Option<Money>)
    requires CheckMoney(value).None?
    ensures CheckMoney(TrimMoney(value)).None? && TrimMoney(TrimMoney(value)) == TrimMoney(value)
  {
    if value.Some? {
      TrimIdempotent(value.value.currency);
    }
  }

  lemma {:induction false} PricesStable(min: Option<Money>, max: Option<Money>)
    requires CheckPrices(min, max).None?
    ensures CheckPrices(TrimMoney(min), TrimMoney(max)).None?
  {
    if min.Some? && max.Some? {
      TrimIdempotent(min.value.currency);
      TrimIdempotent(max.value.currency);
    }
  }

  lemma {:induction false} IdsStable(ids: seq<string>)
    requires CheckIds(ids).None?
    ensures CheckIds(TrimAll(ids)).None? && TrimAll(TrimAll(ids)) == TrimAll(ids)
  {
    forall i | 0 <= i < |ids| ensures Trim(TrimAll(ids)[i]) == TrimAll(ids)[i] != [] {
      assert ids[i] in ids;
      TrimIdempotent(ids[i]);
    }
  }

  lemma {:induction false} CategoryStable(category: Option<string>)
    requires CheckText(category).None? && category.Some?
    ensures var c := EquivalentCategories(Trim(category.value));
            (Trim(c.first) != [] && EquivalentCategories(Trim(c.first)) == c)
            <==> (c.first != [] && Bare(c.first, IsSpace) && !Plural(c.first))
  {
    TrimIdempotent(category.value);
    CanonicalIsStable(Trim(category.value));
  }

  /** The request rebuilt from saved constraints, with a page of its own. */
  function Rebuilt(n: Normalized): Request
  {
    RequestFromConstraints(ResolvedConstraints(n)).(limit := Some(n.limit), offset := Some(0))
  }

  /** Saving a request and reading it again gives the same filter, if and only if its category is stable. */
  lemma {:induction false} RebuildRoundTrip(r: Request, n: Normalized)
    requires Normalize(r) == Ok(n)
    ensures Normalize(Rebuilt(n)) == Ok(Restarted(n)) <==> StableCategory(n)
  {
    var b := Rebuilt(n);
    TextStable(r.color);
    TextStable(r.style);
    TextStable(r.material);
    MoneyStable(r.minPrice);
    MoneyStable(r.maxPrice);
    PricesStable(r.minPrice, r.maxPrice);
    IdsStable(r.excludeIds);
    if r.brand.Some? {
      BrandStable(r.brand);
    }
    if r.category.Some? {
      CategoryStable(r.category);
    }
    assert TrimAll([]) == [];
  }
}
