/** Refining earlier recommendations: packages/decorator-agent/src/catalog.ts. */
module CatalogFollowUps {
  import opened Outcomes
  import opened CatalogText
  import opened WhiteSpace
  import opened CatalogCategories
  import opened CatalogSearch

  datatype FollowUp = ShowMore | Cheaper | Smaller

  datatype Recommendations = Recommendations(products: seq<Product>, constraints: Constraints, limit: nat, offset: nat,
                                             exhausted: bool,
                                             shownIds: seq<string>)

  function FindProduct(pool: seq<Product>, id: string): Option<Product>
  {
    if pool == [] then None else if pool[0].catalogId == id then Some(pool[0]) else FindProduct(pool[1..], id)
  }

  function UniqueProducts(products: seq<Product>, seen: set<string>): seq<Product>
  {
    if products == [] then []
    else if products[0].catalogId in seen then UniqueProducts(products[1..], seen)
    else [products[0]] + UniqueProducts(products[1..], seen + {products[0].catalogId})
  }

  function PickFollowUpReference(prior: Recommendations, catalogId: Option<string>,
                                 candidates: seq<Product>): Result<Product, CatalogError>
  {
    var pool := candidates + prior.products;
    if Truthy(catalogId).Some? then
      match FindProduct(pool, catalogId.value)
      case Some(p) => Ok(p)
      case None => Err(InvalidArguments)
    else
      var unique := UniqueProducts(pool, {});
      if |unique| == 1 then Ok(unique[0])
      else if |prior.products| == 1 then Ok(prior.products[0])
      else Err(InvalidArguments)
  }

  function UniqueKnownDimension(d: Dimensions): Option<Axis>
  {
    match (d.width.Some?, d.depth.Some?, d.height.Some?)
    case (true, false, false) => Some(Width)
    case (false, true, false) => Some(Depth)
    case (false, false, true) => Some(Height)
    case _ => None
  }

  function Continuation(prior: Recommendations): Request
  {
    RequestFromConstraints(prior.constraints).(omitIds := prior.shownIds, offset := Some(prior.offset),
                                               limit := Some(prior.limit))
  }

  function FreshRequest(prior: Recommendations): Request
  {
    RequestFromConstraints(prior.constraints).(offset := Some(0), limit := Some(prior.limit))
  }

  predicate OtherCurrency(bound: Option<Money>, price: Money)
  {
    bound.Some? && Upper(bound.value.currency) != Upper(price.currency)
  }

  function CheaperRequest(prior: Recommendations, reference: Product): Result<Request, CatalogError>
  {
    var base := FreshRequest(prior);
    if reference.price.None? then Err(InvalidArguments)
    else
      var price := reference.price.value;
      if OtherCurrency(base.minPrice, price) || OtherCurrency(base.maxPrice, price) then Err(UnsupportedFilter)
      else if price.amountMinor < 1 then Err(InvalidArguments)
      else
        var below := price.amountMinor - 1;
        var amount := if base.maxPrice.Some?
        && base.maxPrice.value.amountMinor < below then base.maxPrice.value.amountMinor else below;
        Ok(base.(maxPrice := Some(Money(amount, price.currency))))
  }

  function Smallest(range: Range, size: real): Range
  {
    var max := if range.max.Some? then range.max.value else size;
    range.(max := Some(if size <= max then size else max), exclusiveMax := size <= max || range.exclusiveMax)
  }

  function SmallerRequest(prior: Recommendations, reference: Product,
                          dimension: Option<Axis>): Result<Request, CatalogError>
  {
    var base := FreshRequest(prior);
    var axis := if dimension.Some? then dimension else UniqueKnownDimension(reference.dimensions);
    if axis.None? || reference.dimensions.Of(axis.value).None? then Err(InvalidArguments)
    else
      var range := Smallest(base.sizes.Of(axis.value), reference.dimensions.Of(axis.value).value);
      Ok(base.(sizes := base.sizes.With(axis.value, range)))
  }

  function MergeCatalogFollowUp(prior: Recommendations, followUp: FollowUp, catalogId: Option<string>,
                                dimension: Option<Axis>,
                                candidates: seq<Product>): Result<Request, CatalogError>
  {
    if followUp.ShowMore? then Ok(Continuation(prior))
    else
      match PickFollowUpReference(prior, catalogId, candidates)
      case Err(e) => Err(e)
      case Ok(reference) =>
        if followUp.Cheaper? then CheaperRequest(prior, reference) else SmallerRequest(prior, reference, dimension)
  }

  // ---- The reference ----------------------------------------------------------------

  lemma {:induction false} UniqueProductsAreProducts(products: seq<Product>, seen: set<string>)
    ensures forall p | p in UniqueProducts(products, seen) :: p in products
  {
    if products != [] {
      UniqueProductsAreProducts(products[1..], seen);
      UniqueProductsAreProducts(products[1..], seen + {products[0].catalogId});
    }
  }

  lemma {:induction false} EveryIdIsKept(products: seq<Product>, seen: set<string>, p: Product) returns (q: Product)
    requires p in products && p.catalogId !in seen
    ensures q in UniqueProducts(products, seen) && q.catalogId == p.catalogId
  {
    if products[0].catalogId in seen {
      q := EveryIdIsKept(products[1..], seen, p);
    } else if p.catalogId == products[0].catalogId {
      q := products[0];
    } else {
      q := EveryIdIsKept(products[1..], seen + {products[0].catalogId}, p);
    }
  }

  /** Product `i` is the first of this name. */
  ghost predicate FirstOf(pool: seq<Product>, id: string, i: nat)
  {
    i < |pool| && pool[i].catalogId == id && forall j | 0 <= j < i :: pool[j].catalogId != id
  }

  /** The reference is identified: it is the first of the shown products that has the given name; without a name
      it is the only one there is, or else the only current one. */
  ghost predicate Identifies(prior: Recommendations, catalogId: Option<string>, candidates: seq<Product>, p: Product)
  {
    var pool := candidates + prior.products;
    if catalogId.Some? && catalogId.value != [] then
      exists i: nat :: FirstOf(pool, catalogId.value, i) && pool[i] == p
    else if pool != [] && forall q | q in pool :: q.catalogId == pool[0].catalogId then
      p == pool[0]
    else
      prior.products == [p]
  }

  /** The reference is a product that was shown, the one that is identified; the request is refused exactly if none
      is. */
  lemma {:induction false} ReferenceWasShown(prior: Recommendations, catalogId: Option<string>,
                                             candidates: seq<Product>)
    ensures match PickFollowUpReference(prior, catalogId, candidates)
            case Ok(p) => Identifies(prior, catalogId, candidates, p) && p in candidates + prior.products
            case Err(e) => e == InvalidArguments && forall p :: !Identifies(prior, catalogId, candidates, p)
  {
    var pool := candidates + prior.products;
    if Truthy(catalogId).Some? {
      FirstNamed(pool, catalogId.value);
    } else {
      OneProduct(pool);
    }
    if PickFollowUpReference(prior, catalogId, candidates).Err? {
      forall p ensures !Identifies(prior, catalogId, candidates, p) {
        NotIdentified(prior, catalogId, candidates, p);
      }
    }
  }

  lemma {:induction false} NotIdentified(prior: Recommendations, catalogId: Option<string>, candidates: seq<Product>,
                                         p: Product)
    requires PickFollowUpReference(prior, catalogId, candidates).Err?
    ensures !Identifies(prior, catalogId, candidates, p)
  {
    var pool := candidates + prior.products;
    if Truthy(catalogId).Some? {
      FirstNamed(pool, catalogId.value);
      assert forall i | 0 <= i < |pool| :: pool[i] in pool;
    } else {
      OneProduct(pool);
      assert prior.products == [p] ==> |prior.products| == 1;
    }
  }

  lemma {:induction false} FirstNamed(pool: seq<Product>, id: string)
    ensures match FindProduct(pool, id)
            case Some(p) => exists i: nat :: FirstOf(pool, id, i) && pool[i] == p
            case None => forall p | p in pool :: p.catalogId != id
  {
    if pool != [] {
      if pool[0].catalogId == id {
        assert FirstOf(pool, id, 0);
      } else {
        FirstNamed(pool[1..], id);
        if FindProduct(pool, id).Some? {
          var i: nat :| FirstOf(pool[1..], id, i) && pool[1..][i] == FindProduct(pool, id).value;
          assert FirstOf(pool, id, i + 1) by {
            assert forall j | 1 <= j < i + 1 :: pool[j] == pool[1..][j - 1];
          }
        }
      }
    }
  }

  /** One product remains exactly if all that were shown are the same one. */
  lemma {:induction false} OneProduct(pool: seq<Product>)
    ensures |UniqueProducts(pool, {})| == 1
            <==> pool != [] && forall q | q in pool :: q.catalogId == pool[0].catalogId
    ensures pool != [] ==> UniqueProducts(pool, {})[..1] == [pool[0]]
  {
    if pool != [] {
      assert UniqueProducts(pool, {}) == [pool[0]] + UniqueProducts(pool[1..], {} + {pool[0].catalogId});
      if |UniqueProducts(pool, {})| == 1 {
        OnlyProduct(pool);
      } else if forall q | q in pool :: q.catalogId == pool[0].catalogId {
        NothingNew(pool[1..], {} + {pool[0].catalogId});
      }
    }
  }

  lemma {:induction false} NothingNew(products: seq<Product>, seen: set<string>)
    requires forall q | q in products :: q.catalogId in seen
    ensures UniqueProducts(products, seen) == []
  {
    if products != [] {
      NothingNew(products[1..], seen);
    }
  }

  lemma {:induction false} OnlyProduct(pool: seq<Product>)
    requires |UniqueProducts(pool, {})| == 1
    ensures UniqueProducts(pool, {})[0] in pool
            && forall q | q in pool :: q.catalogId == UniqueProducts(pool, {})[0].catalogId
  {
    UniqueProductsAreProducts(pool, {});
    assert UniqueProducts(pool, {})[0] in UniqueProducts(pool, {});
    forall q | q in pool ensures q.catalogId == UniqueProducts(pool, {})[0].catalogId {
      var kept := EveryIdIsKept(pool, {}, q);
    }
  }

  // ---- Exact intersections ------------------------------------------------------------

  /** The recommendations of a search: saved constraints and page of the normalized request. */
  ghost predicate Recommended(prior: Recommendations, r: Request, n: Normalized)
  {
    && Normalize(r) == Ok(n) && StableCategory(n)
    && prior.constraints == ResolvedConstraints(n) && prior.limit == n.limit && prior.offset == n.offset
  }

  predicate Accepts(request: Request, p: Product)
  {
    Normalize(request).Ok? && CatalogProductMatches(p, Normalize(request).value)
  }

  /** A category meets requests for one canonical name only. */
  lemma {:induction false} OneCategory(category: Option<string>, first: string, second: string)
    requires CategoryMatches(category, EquivalentCategories(first))
    requires CategoryMatches(category, EquivalentCategories(second))
    ensures EquivalentCategories(first) == EquivalentCategories(second)
  {
    CanonicalIsNoAlias(Key(Trim(category.value)));
  }

  lemma {:induction false} ReadCategory(r: Request, n: Normalized, category: Option<string>)
    requires Normalize(r) == Ok(n) && n.categories.Some? && Trim(n.categories.value.first) != []
    requires CategoryMatches(category, n.categories.value)
    requires CategoryMatches(category, EquivalentCategories(Trim(n.categories.value.first)))
    ensures StableCategory(n)
  {
    CategoryStable(r.category);
    OneCategory(category, Trim(r.category.value), Trim(n.categories.value.first));
  }

  lemma {:induction false} ReadAgain(n: Normalized, again: Normalized)
    requires Normalize(Rebuilt(n)) == Ok(again) && n.categories.Some?
    ensures Trim(n.categories.value.first) != []
            && again.categories == Some(EquivalentCategories(Trim(n.categories.value.first)))
  {
  }

  /** A request that is saved and read again accepts all of what it accepted before if its category is stable,
      and nothing of it otherwise. */
  lemma {:induction false} RebuiltAccepts(r: Request, n: Normalized, p: Product)
    requires Normalize(r) == Ok(n) && CatalogProductMatches(p, Restarted(n))
    ensures Accepts(Rebuilt(n), p) <==> StableCategory(n)
  {
    if StableCategory(n) {
      RebuildRoundTrip(r, n);
    } else if Accepts(Rebuilt(n), p) {
      ReadAgain(n, Normalize(Rebuilt(n)).value);
      ReadCategory(r, n, p.category);
    }
  }

  /** What the refined request and the earlier one have in common, and how they differ. */
  lemma {:induction false} ResizedNormalizes(r: Request, n: Normalized, sizes: Sizes)
    requires Normalize(r) == Ok(n) && StableCategory(n)
    ensures Normalize(Rebuilt(n).(sizes := sizes)).Ok? <==> SizeError(sizes).None?
    ensures SizeError(sizes).None? ==> Normalize(Rebuilt(n).(sizes := sizes)) == Ok(Restarted(n).(sizes := sizes))
  {
    RebuildRoundTrip(r, n);
  }

  lemma {:induction false} SmallestExact(range: Range, size: real, value: Option<real>)
    requires CheckBounds(range).None? && CheckRange(range).None? && size > 0.0
    ensures CheckBounds(Smallest(range, size)).None?
    ensures (CheckRange(Smallest(range, size)).None? && DimensionMatches(value, Smallest(range, size)))
            <==> (DimensionMatches(value, range) && value.Some? && value.value < size)
  {
  }

  lemma {:induction false} WithAxis(d: Dimensions, sizes: Sizes, axis: Axis, range: Range)
    requires SizeError(sizes).None? && CheckBounds(range).None?
    requires CheckRange(range).None? && DimensionMatches(d.Of(axis), range) ==>
               DimensionMatches(d.Of(axis), sizes.Of(axis))
    ensures SizeError(sizes.With(axis, range)).None? && SizeMatches(d, sizes.With(axis, range))
            <==> SizeMatches(d, sizes) && CheckRange(range).None? && DimensionMatches(d.Of(axis), range)
  {
  }

  lemma {:induction false} NormalizedSizes(r: Request, n: Normalized)
    requires Normalize(r) == Ok(n)
    ensures n.sizes == r.sizes && SizeError(n.sizes).None?
  {
  }

  /** The dimension to compare: the named one, or the only known one; it is known in either case. */
  predicate Compares(dimension: Option<Axis>, d: Dimensions, axis: Axis)
  {
    d.Of(axis).Some?
    && if dimension.Some? then dimension.value == axis
       else forall other: Axis | other != axis :: d.Of(other).None?
  }

  lemma {:induction false} SmallerFor(prior: Recommendations, reference: Product, dimension: Option<Axis>)
    ensures match SmallerRequest(prior, reference, dimension)
            case Ok(_) => exists axis: Axis :: Compares(dimension, reference.dimensions, axis)
            case Err(e) =>
              e == InvalidArguments && forall axis: Axis :: !Compares(dimension, reference.dimensions, axis)
  {
    var d := reference.dimensions;
    assert d.Of(Width) == d.width && d.Of(Depth) == d.depth && d.Of(Height) == d.height;
    if SmallerRequest(prior, reference, dimension).Ok? {
      var axis := if dimension.Some? then dimension else UniqueKnownDimension(d);
      assert Compares(dimension, d, axis.value);
    }
  }

  /** "Smaller" is refused exactly if no reference is identified, or none of its dimensions can be compared. */
  lemma {:induction false} SmallerAcceptedExactly(prior: Recommendations, catalogId: Option<string>,
                                                  dimension: Option<Axis>, candidates: seq<Product>)
    ensures var asked := MergeCatalogFollowUp(prior, Smaller, catalogId, dimension, candidates);
            && (asked.Ok? <==>
                  exists p, axis: Axis ::
                    Identifies(prior, catalogId, candidates, p) && Compares(dimension, p.dimensions, axis))
            && (asked.Err? ==> asked.error == InvalidArguments)
  {
    ReferenceWasShown(prior, catalogId, candidates);
    var picked := PickFollowUpReference(prior, catalogId, candidates);
    if picked.Ok? {
      SmallerFor(prior, picked.value, dimension);
      forall p | Identifies(prior, catalogId, candidates, p) ensures p == picked.value {
        OneReference(prior, catalogId, candidates, p, picked.value);
      }
    }
  }

  lemma {:induction false} OneReference(prior: Recommendations, catalogId: Option<string>, candidates: seq<Product>,
                                        p: Product, q: Product)
    requires Identifies(prior, catalogId, candidates, p) && Identifies(prior, catalogId, candidates, q)
    ensures p == q
  {
    var pool := candidates + prior.products;
    if catalogId.Some? && catalogId.value != [] {
      var i: nat :| FirstOf(pool, catalogId.value, i) && pool[i] == p;
      var k: nat :| FirstOf(pool, catalogId.value, k) && pool[k] == q;
      assert i == k;
    }
  }

  /** "Smaller" accepts exactly the products of the earlier filter whose dimension is strictly below that of the
      identified reference; if none can be, the request is refused instead. */
  lemma {:induction false} SmallerIsIntersection(prior: Recommendations, r: Request, n: Normalized,
                                                 catalogId: Option<string>, dimension: Option<Axis>,
                                                 candidates: seq<Product>, reference: Product, axis: Axis, p: Product)
    requires Recommended(prior, r, n)
    requires Identifies(prior, catalogId, candidates, reference) && Compares(dimension, reference.dimensions, axis)
    requires reference.dimensions.Of(axis).value > 0.0
    ensures var asked := MergeCatalogFollowUp(prior, Smaller, catalogId, dimension, candidates);
            asked.Ok?
            && (Accepts(asked.value, p)
                <==> CatalogProductMatches(p, Restarted(n)) && p.dimensions.Of(axis).Some?
                     && p.dimensions.Of(axis).value < reference.dimensions.Of(axis).value)
  {
    ReferenceWasShown(prior, catalogId, candidates);
    OneReference(prior, catalogId, candidates, reference, PickFollowUpReference(prior, catalogId, candidates).value);
    ComparedAxis(dimension, reference.dimensions, axis);
    ResizedAccepts(prior, r, n, axis, reference.dimensions.Of(axis).value, p);
  }

  lemma {:induction false} ComparedAxis(dimension: Option<Axis>, d: Dimensions, axis: Axis)
    requires Compares(dimension, d, axis)
    ensures dimension.Some? || UniqueKnownDimension(d) == Some(axis)
  {
    assert d.Of(Width) == d.width && d.Of(Depth) == d.depth && d.Of(Height) == d.height;
  }

  lemma {:induction false} ResizedAccepts(prior: Recommendations, r: Request, n: Normalized, axis: Axis, size: real,
                                          p: Product)
    requires Recommended(prior, r, n) && size > 0.0
    ensures Accepts(Rebuilt(n).(sizes := n.sizes.With(axis, Smallest(n.sizes.Of(axis), size))), p)
            <==> CatalogProductMatches(p, Restarted(n)) && p.dimensions.Of(axis).Some?
                 && p.dimensions.Of(axis).value < size
  {
    var range := Smallest(n.sizes.Of(axis), size);
    NormalizedSizes(r, n);
    SmallestExact(n.sizes.Of(axis), size, p.dimensions.Of(axis));
    WithAxis(p.dimensions, n.sizes, axis, range);
    ResizedNormalizes(r, n, n.sizes.With(axis, range));
  }

  lemma {:induction false} UpperKeepsSpace(s: string)
    ensures Bare(Upper(s), IsSpace) <==> Bare(s, IsSpace)
  {
  }

  lemma {:induction false} RepricedNormalizes(r: Request, n: Normalized, max: Money)
    requires Normalize(r) == Ok(n) && StableCategory(n) && Trim(max.currency) != [] && max.amountMinor >= 0
    requires n.minPrice.Some? ==> Upper(n.minPrice.value.currency) == Upper(Trim(max.currency))
    ensures Normalize(Rebuilt(n).(maxPrice := Some(max)))
            == if n.minPrice.Some? && n.minPrice.value.amountMinor > max.amountMinor then Err(InvalidArguments)
               else Ok(Restarted(n).(maxPrice := Some(max.(currency := Trim(max.currency)))))
  {
    RebuildRoundTrip(r, n);
    MoneyStable(r.minPrice);
    if n.minPrice.Some? {
      TrimIdempotent(r.minPrice.value.currency);
    }
  }

  lemma {:induction false} BoundCurrency(r: Request, n: Normalized, price: Money)
    requires Normalize(r) == Ok(n) && !OtherCurrency(n.minPrice, price) && !OtherCurrency(n.maxPrice, price)
    ensures n.minPrice.Some? || n.maxPrice.Some? ==> Trim(price.currency) == price.currency
  {
    if n.minPrice.Some? || n.maxPrice.Some? {
      var bound := if n.minPrice.Some? then n.minPrice.value else n.maxPrice.value;
      TrimIdempotent(if n.minPrice.Some? then r.minPrice.value.currency else r.maxPrice.value.currency);
      UpperKeepsSpace(bound.currency);
      UpperKeepsSpace(price.currency);
      StripBare(price.currency, IsSpace);
    }
  }

  function Below(price: Money, max: Option<Money>): int
  {
    if max.Some? && max.value.amountMinor < price.amountMinor - 1 then max.value.amountMinor else price.amountMinor - 1
  }

  lemma {:induction false} BelowExact(value: Option<Money>, min: Option<Money>, max: Option<Money>, price: Money)
    requires min.Some? ==> Upper(min.value.currency) == Upper(Trim(price.currency))
    requires max.Some? ==> Upper(max.value.currency) == Upper(Trim(price.currency))
    ensures (min.Some? ==> min.value.amountMinor <= Below(price, max))
            && PriceMatches(value, min, Some(Money(Below(price, max), Trim(price.currency))))
            <==> PriceMatches(value, min, max) && value.Some?
                 && Upper(Trim(value.value.currency)) == Upper(Trim(price.currency))
                 && value.value.amountMinor < price.amountMinor
  {
  }

  /** A bound of the earlier search has the currency of this price. */
  predicate SameMoney(bound: Option<Money>, price: Money)
  {
    bound.Some? ==> Upper(bound.value.currency) == Upper(price.currency)
  }

  /** "Cheaper" is refused exactly if no reference with a price is identified, its price has another currency than
      the earlier bounds, or nothing can be cheaper. */
  lemma {:induction false} CheaperAcceptedExactly(prior: Recommendations, catalogId: Option<string>,
                                                  dimension: Option<Axis>, candidates: seq<Product>)
    ensures var asked, c := MergeCatalogFollowUp(prior, Cheaper, catalogId, dimension, candidates), prior.constraints;
            && (asked.Ok? <==>
                  exists p :: Identifies(prior, catalogId, candidates, p) && p.price.Some?
                              && SameMoney(c.minPrice, p.price.value) && SameMoney(c.maxPrice, p.price.value)
                              && p.price.value.amountMinor >= 1)
            && (asked == Err(UnsupportedFilter) <==>
                  exists p :: Identifies(prior, catalogId, candidates, p) && p.price.Some?
                              && !(SameMoney(c.minPrice, p.price.value) && SameMoney(c.maxPrice, p.price.value)))
  {
    ReferenceWasShown(prior, catalogId, candidates);
    var picked := PickFollowUpReference(prior, catalogId, candidates);
    if picked.Ok? {
      forall p | Identifies(prior, catalogId, candidates, p) ensures p == picked.value {
        OneReference(prior, catalogId, candidates, p, picked.value);
      }
    }
  }

  /** "Cheaper" accepts exactly the products of the earlier filter with a price in the currency of the identified
      reference and strictly below it; if none can be, the request is refused instead. */
  lemma {:induction false} CheaperIsIntersection(prior: Recommendations, r: Request, n: Normalized,
                                                 catalogId: Option<string>, candidates: seq<Product>,
                                                 reference: Product, p: Product)
    requires Recommended(prior, r, n) && MergeCatalogFollowUp(prior, Cheaper, catalogId, None, candidates).Ok?
    requires Identifies(prior, catalogId, candidates, reference)
             && (reference.price.Some? ==> Trim(reference.price.value.currency) != [])
    ensures reference.price.Some?
    ensures var price := reference.price.value;
            Accepts(MergeCatalogFollowUp(prior, Cheaper, catalogId, None, candidates).value, p)
            <==> CatalogProductMatches(p, Restarted(n)) && p.price.Some?
                 && Upper(Trim(p.price.value.currency)) == Upper(Trim(price.currency))
                 && p.price.value.amountMinor < price.amountMinor
  {
    ReferenceWasShown(prior, catalogId, candidates);
    OneReference(prior, catalogId, candidates, reference, PickFollowUpReference(prior, catalogId, candidates).value);
    var price := reference.price.value;
    BoundCurrency(r, n, price);
    NormalizedPrices(r, n);
    RepricedAccepts(prior, r, n, price, p);
  }

  lemma {:induction false} PricesApart(p: Product, n: Normalized, max: Option<Money>)
    ensures CatalogProductMatches(p, n.(maxPrice := max))
            <==> CatalogProductMatches(p, n.(minPrice := None, maxPrice := None))
                 && PriceMatches(p.price, n.minPrice, max)
  {
  }

  lemma {:induction false} RepricedAccepts(prior: Recommendations, r: Request, n: Normalized, price: Money, p: Product)
    requires Recommended(prior, r, n) && Trim(price.currency) != [] && price.amountMinor >= 1
    requires n.minPrice.Some? ==> Upper(n.minPrice.value.currency) == Upper(Trim(price.currency))
    requires n.maxPrice.Some? ==>
               Upper(n.maxPrice.value.currency) == Upper(Trim(price.currency)) && n.maxPrice.value.amountMinor >= 0
    ensures Accepts(Rebuilt(n).(maxPrice := Some(Money(Below(price, n.maxPrice), price.currency))), p)
            <==> CatalogProductMatches(p, Restarted(n)) && p.price.Some?
                 && Upper(Trim(p.price.value.currency)) == Upper(Trim(price.currency))
                    && p.price.value.amountMinor < price.amountMinor
  {
    RepricedNormalizes(r, n, Money(Below(price, n.maxPrice), price.currency));
    PricesApart(p, Restarted(n), n.maxPrice);
    PricesApart(p, Restarted(n), Some(Money(Below(price, n.maxPrice), Trim(price.currency))));
    BelowExact(p.price, n.minPrice, n.maxPrice, price);
  }

  lemma {:induction false} NormalizedPrices(r: Request, n: Normalized)
    requires Normalize(r) == Ok(n)
    ensures n.maxPrice.Some? ==> n.maxPrice.value.amountMinor >= 0
    ensures n.minPrice.Some? && n.maxPrice.Some? ==> n.minPrice.value.amountMinor <= n.maxPrice.value.amountMinor
  {
  }

  // ---- Chains ------------------------------------------------------------------------

  /** Something cheaper is asked for, after `search`. */
  datatype Step = Step(search: Recommendations, catalogId: Option<string>, candidates: seq<Product>)
  {
    function Reference(): Result<Product, CatalogError> { PickFollowUpReference(search, catalogId, candidates) }

    function Asks(): Result<Request, CatalogError>
    {
      MergeCatalogFollowUp(search, Cheaper, catalogId, None, candidates)
    }

    function Amount(): int
    {
      if Reference().Ok? && Reference().value.price.Some? then Reference().value.price.value.amountMinor else 0
    }
  }

  ghost predicate IsRecommended(search: Recommendations) { exists r, n :: Recommended(search, r, n) }

  ghost predicate Asked(step: Step)
  {
    IsRecommended(step.search) && step.Asks().Ok? && Trim(step.Reference().value.price.value.currency) != []
  }

  predicate Leads(step: Step, next: Step)
  {
    step.Asks().Ok? && next.Reference().Ok? && Accepts(step.Asks().value, next.Reference().value)
  }

  /** Each reference but the first is a result of the request made before. */
  ghost predicate CheaperChain(steps: seq<Step>)
  {
    && (forall i: nat | i < |steps| :: Asked(steps[i]))
    && (forall i: nat | i + 1 < |steps| :: Leads(steps[i], steps[i + 1]))
  }

  lemma {:induction false} CheaperFalls(step: Step, next: Step)
    requires Asked(step) && Leads(step, next)
    ensures next.Amount() < step.Amount()
  {
    var r, n :| Recommended(step.search, r, n);
    ReferenceWasShown(step.search, step.catalogId, step.candidates);
    CheaperIsIntersection(step.search, r, n, step.catalogId, step.candidates, step.Reference().value,
                          next.Reference().value);
  }

  /** Asking for something cheaper than a current result comes to an end: there are at most as many steps as
      the first reference has minor units. */
  lemma {:induction false} CheaperEnds(steps: seq<Step>)
    requires CheaperChain(steps) && steps != []
    ensures |steps| <= steps[0].Amount()
  {
    if |steps| == 1 {
      assert Asked(steps[0]);
    } else {
      assert Asked(steps[0]) && Leads(steps[0], steps[1]);
      CheaperFalls(steps[0], steps[1]);
      ChainTail(steps);
      CheaperEnds(steps[1..]);
    }
  }

  lemma {:induction false} ChainTail(steps: seq<Step>)
    requires CheaperChain(steps) && steps != []
    ensures CheaperChain(steps[1..])
  {
    var rest := steps[1..];
    forall i: nat | i < |rest| ensures Asked(rest[i]) {
      assert Asked(steps[i + 1]);
    }
    forall i: nat | i + 1 < |rest| ensures Leads(rest[i], rest[i + 1]) {
      assert Leads(steps[i + 1], steps[i + 2]);
    }
  }
}
