/** The filter that the program compiles to SQL, and what the database makes of it:
    livi-server/src/catalog-postgres.ts. Arrays of parameters are only asked for their members. */
module CatalogSql {
  import opened Outcomes
  import opened CatalogText
  import opened CatalogAliases
  import opened CatalogCategories
  import opened CatalogSearch

  /** A `real` column of the database. */
  datatype Num = Finite(value: real) | Infinite(positive: bool) | NotANumber

  /** The order of the database, where "not a number" comes after everything else. */
  predicate AtLeast(x: Num, bound: real)
  {
    match x case Finite(v) => v >= bound case Infinite(positive) => positive case NotANumber => true
  }

  predicate Above(x: Num, bound: real)
  {
    match x case Finite(v) => v > bound case Infinite(positive) => positive case NotANumber => true
  }

  predicate BelowInfinity(x: Num) { x.Finite? || (x.Infinite? && !x.positive) }

  datatype Row = Row(assetId: string, embedded: bool, isDecorItem: Option<bool>, isDeleted: Option<bool>,
                     source: Option<string>, category: Option<string>, color: Option<string>, style: Option<string>,
                     materials: Option<string>, availableColors: Option<seq<Option<string>>>, price: Option<Num>,
                     width: Option<Num>, depth: Option<Num>, height: Option<Num>)
  {
    function Of(axis: Axis): Option<Num> { match axis case Width => width case Depth => depth case Height => height }
  }

  // ---- Rows as products -------------------------------------------------------------

  const MAX_SAFE_INTEGER := 9007199254740991

  function Coalesce(value: Option<bool>): bool { value.Some? && value.value }

  function MetreDimension(value: Option<Num>): Option<real>
  {
    if value.Some? && value.value.Finite? && value.value.value > 0.0 then Some(value.value.value) else None
  }

  /** `Math.round`. */
  function Round(x: real): int { (x + 0.5).Floor }

  function ProductPrice(price: Option<Num>): Option<Money>
  {
    if price.Some? && price.value.Finite? && price.value.value > 0.0
    && 0 < Round(price.value.value * 100.0) <= MAX_SAFE_INTEGER
    then Some(Money(Round(price.value.value * 100.0), "USD")) else None
  }

  function AsTextArray(values: seq<Option<string>>): seq<string>
  {
    if values == [] then [] else Facts(AsText(values[0])) + AsTextArray(values[1..])
  }

  function MapRegistryRow(row: Row): Product
  {
    Product(row.assetId, if row.source.Some?
            && Trim(row.source.value) != [] then row.source else None, AsText(row.category),
            AsText(row.color), if row.availableColors.None? then [] else AsTextArray(row.availableColors.value),
            AsText(row.style), AsText(row.materials),
            Dimensions(MetreDimension(row.width), MetreDimension(row.depth), MetreDimension(row.height)),
              ProductPrice(row.price))
  }

  // ---- The meaning of the clauses ---------------------------------------------------

  predicate Active(row: Row) { row.embedded && !Coalesce(row.isDecorItem) && !Coalesce(row.isDeleted) }

  predicate SqlCategorySelected(row: Row, wanted: Option<Categories>)
  {
    wanted.Some? ==> SqlCategoryMatches(row.category, wanted.value)
  }

  predicate SqlBrandSelected(row: Row, wanted: Option<string>)
  {
    Truthy(wanted).Some? ==> SqlBrandMatches(row.source, wanted.value)
  }

  predicate SqlColorSelected(row: Row, wanted: Option<string>)
  {
    Truthy(wanted).Some? ==>
      SqlTokenMatches(row.color, Lower(wanted.value)) || SqlAvailableMatches(row.availableColors, Lower(wanted.value))
  }

  predicate SqlTextSelected(column: Option<string>, wanted: Option<string>)
  {
    Truthy(wanted).Some? ==> SqlTokenMatches(column, Lower(wanted.value))
  }

  predicate SqlBrandMatches(source: Option<string>, brand: string) { source.Some? && SqlBrand(source.value) == brand }

  predicate SqlTokenMatches(column: Option<string>, token: string)
  {
    && column.Some? && BTrim(column.value) != []
    && (Lower(BTrim(column.value)) == token || token in Tokens(column.value))
  }

  predicate SqlAvailableMatches(colors: Option<seq<Option<string>>>, token: string)
  {
    colors.Some? && exists i | 0 <= i < |colors.value| :: SqlTokenMatches(colors.value[i], token)
  }

  predicate SqlKnown(value: Option<Num>) { value.Some? && Above(value.value, 0.0) }

  predicate SqlAtMost(value: Option<Num>, max: real, exclusive: bool)
  {
    value.Some? && if exclusive then !AtLeast(value.value, max) else !Above(value.value, max)
  }

  predicate SqlSizeMatches(value: Option<Num>, range: Range)
  {
    || (range.min.None? && range.max.None?)
    || (&& SqlKnown(value) && (range.min.Some? ==> AtLeast(value.value, range.min.value))
        && (range.max.Some? ==> SqlAtMost(value, range.max.value, range.exclusiveMax)))
  }

  predicate SqlPriceKnown(price: Option<Num>) { price.Some? && Above(price.value, 0.0) && BelowInfinity(price.value) }

  /** `round` of the database, which rounds halves away from zero. */
  function SqlRound(x: real): int { if x >= 0.0 then (x + 0.5).Floor else -((0.5 - x).Floor) }

  function MinorUnits(price: Num): int { if price.Finite? then SqlRound(price.value * 100.0) else 0 }

  predicate SqlPriceMatches(price: Option<Num>, min: Option<Money>, max: Option<Money>)
  {
    || (min.None? && max.None?)
    || (&& SqlPriceKnown(price) && (min.Some? ==> MinorUnits(price.value) >= min.value.amountMinor)
        && (max.Some? ==> MinorUnits(price.value) <= max.value.amountMinor))
  }

  /** What the database is asked for, without parameters. */
  predicate Selects(row: Row, n: Normalized)
  {
    && Active(row)
    && SqlCategorySelected(row, n.categories) && SqlBrandSelected(row, n.brand) && SqlColorSelected(row, n.color)
    && SqlTextSelected(row.style, n.style) && SqlTextSelected(row.materials, n.material)
    && SqlSizeMatches(row.width, n.sizes.width) && SqlSizeMatches(row.depth, n.sizes.depth)
       && SqlSizeMatches(row.height, n.sizes.height)
    && SqlPriceMatches(row.price, n.minPrice, n.maxPrice)
    && row.assetId !in n.ExcludeIds()
  }

  // ---- Clauses with numbered parameters ---------------------------------------------

  datatype Value = Text(text: string) | Number(number: real) | Whole(whole: int) | Texts(texts: set<string>)

  datatype TextColumn = Style | Materials

  /** The clauses of the WHERE; a parameter is written as its number, counted from 1. */
  datatype Clause =
    | NoDecorItem
    | NotDeleted
    | CategoryAny(param: nat)
    | BrandIs(param: nat)
    | ColorToken(param: nat)
    | TextToken(column: TextColumn, param: nat)
    | SizeKnown(axis: Axis)
    | SizeAtLeast(axis: Axis, param: nat)
    | SizeAtMost(axis: Axis, param: nat, exclusive: bool)
    | PriceKnown
    | PriceAtLeast(param: nat)
    | PriceAtMost(param: nat)
    | NotAny(param: nat)

  /** The parameters that a clause mentions. */
  function Params(c: Clause): set<nat>
  {
    match c
    case NoDecorItem => {}
    case NotDeleted => {}
    case SizeKnown(_) => {}
    case PriceKnown => {}
    case _ => {c.param}
  }

  predicate Numbered(c: Clause, count: nat) { forall p | p in Params(c) :: 1 <= p <= count }

  function Parameter(values: seq<Value>, param: nat): Option<Value>
  {
    if 1 <= param <= |values| then Some(values[param - 1]) else None
  }

  function TextOf(values: seq<Value>, param: nat): string
  {
    match Parameter(values, param) case Some(Text(text)) => text case _ => []
  }

  function WholeOf(values: seq<Value>, param: nat): int
  {
    match Parameter(values, param) case Some(Whole(whole)) => whole case _ => 0
  }

  function NumberOf(values: seq<Value>, param: nat): real
  {
    match Parameter(values, param) case Some(Number(number)) => number case _ => 0.0
  }

  function TextsOf(values: seq<Value>, param: nat): set<string>
  {
    match Parameter(values, param) case Some(Texts(texts)) => texts case _ => {}
  }

  predicate Holds(c: Clause, row: Row, values: seq<Value>)
  {
    match c
    case NoDecorItem => !Coalesce(row.isDecorItem)
    case NotDeleted => !Coalesce(row.isDeleted)
    case CategoryAny(p) =>
      && row.category.Some? && BTrim(row.category.value) != []
      && var key := Key(BTrim(row.category.value));
      key in TextsOf(values, p) || Singular(key) in TextsOf(values, p)
    case BrandIs(p) => SqlBrandMatches(row.source, TextOf(values, p))
    case ColorToken(p) => SqlTokenMatches(row.color, TextOf(values, p))
                          || SqlAvailableMatches(row.availableColors, TextOf(values, p))
    case TextToken(column, p) => SqlTokenMatches(if column.Style? then row.style else row.materials, TextOf(values, p))
    case SizeKnown(axis) => SqlKnown(row.Of(axis))
    case SizeAtLeast(axis, p) => row.Of(axis).Some? && AtLeast(row.Of(axis).value, NumberOf(values, p))
    case SizeAtMost(axis, p, exclusive) => SqlAtMost(row.Of(axis), NumberOf(values, p), exclusive)
    case PriceKnown => SqlPriceKnown(row.price)
    case PriceAtLeast(p) => row.price.Some? && MinorUnits(row.price.value) >= WholeOf(values, p)
    case PriceAtMost(p) => row.price.Some? && MinorUnits(row.price.value) <= WholeOf(values, p)
    case NotAny(p) => row.assetId !in TextsOf(values, p)
  }

  predicate Accepts(where: seq<Clause>, values: seq<Value>, row: Row)
  {
    forall i | 0 <= i < |where| :: Holds(where[i], row, values)
  }

  predicate AllNumbered(where: seq<Clause>, count: nat) { forall i | 0 <= i < |where| :: Numbered(where[i], count) }

  /** Later parameters do not change what a clause means. */
  lemma {:induction false} HoldsLater(c: Clause, row: Row, values: seq<Value>, more: seq<Value>)
    requires Numbered(c, |values|)
    ensures Holds(c, row, values + more) <==> Holds(c, row, values)
  {
    forall p | p in Params(c) ensures Parameter(values + more, p) == Parameter(values, p) {
    }
  }

  lemma {:induction false} AcceptsLater(where: seq<Clause>, row: Row, values: seq<Value>, more: seq<Value>)
    requires AllNumbered(where, |values|)
    ensures Accepts(where, values + more, row) <==> Accepts(where, values, row)
  {
    forall i | 0 <= i < |where| ensures Holds(where[i], row, values + more) <==> Holds(where[i], row, values) {
      HoldsLater(where[i], row, values, more);
    }
  }

  lemma {:induction false} AcceptsOneMore(where: seq<Clause>, c: Clause, row: Row, values: seq<Value>)
    ensures Accepts(where + [c], values, row) <==> Accepts(where, values, row) && Holds(c, row, values)
  {
    if Accepts(where + [c], values, row) {
      assert Holds((where + [c])[|where|], row, values);
      forall i | 0 <= i < |where| ensures Holds(where[i], row, values) {
        assert Holds((where + [c])[i], row, values);
      }
    }
  }

  lemma {:induction false} ActiveClauses(row: Row, values: seq<Value>)
    ensures Accepts([NoDecorItem, NotDeleted], values, row) <==> !Coalesce(row.isDecorItem) && !Coalesce(row.isDeleted)
  {
    var where := [NoDecorItem, NotDeleted];
    if Accepts(where, values, row) {
      assert Holds(where[0], row, values) && Holds(where[1], row, values);
    }
  }

  // ---- Writing the clauses ----------------------------------------------------------

  /** The clauses and the parameters that are written so far. */
  class SqlText {
    var where: seq<Clause>
    var values: seq<Value>

    ghost predicate Valid()
      reads this
    {
      AllNumbered(where, |values|)
    }

    ghost predicate Selecting(row: Row)
      reads this
    {
      Accepts(where, values, row)
    }

    constructor ()
      ensures Valid() && where == [NoDecorItem, NotDeleted] && values == []
      ensures forall row :: Selecting(row) <==> !Coalesce(row.isDecorItem) && !Coalesce(row.isDeleted)
    {
      where := [NoDecorItem, NotDeleted];
      values := [];
      new;
      forall row: Row ensures Accepts(where, values, row) <==> !Coalesce(row.isDecorItem) && !Coalesce(row.isDeleted) {
        ActiveClauses(row, values);
      }
    }

    /** A new parameter gets the next number, and the clauses keep their meaning. */
    method Add(value: Value) returns (param: nat)
      requires Valid()
      modifies `values
      ensures Valid() && values == old(values) + [value] && param == |values|
      ensures Parameter(values, param) == Some(value)
      ensures forall row :: Selecting(row) <==> old(Selecting(row))
    {
      forall row ensures Accepts(where, values + [value], row) <==> Accepts(where, values, row) {
        AcceptsLater(where, row, values, [value]);
      }
      values := values + [value];
      param := |values|;
    }

    method Push(clause: Clause)
      requires Valid() && Numbered(clause, |values|)
      modifies `where
      ensures Valid() && where == old(where) + [clause]
      ensures forall row :: Selecting(row) <==> old(Selecting(row)) && Holds(clause, row, values)
    {
      forall row ensures Accepts(where + [clause], values, row)
      <==> Accepts(where, values, row) && Holds(clause, row, values) {
        AcceptsOneMore(where, clause, row, values);
      }
      where := where + [clause];
    }

    method PushDimension(axis: Axis, range: Range)
      requires Valid()
      modifies this
      ensures Valid()
      ensures forall row :: Selecting(row) <==> old(Selecting(row)) && SqlSizeMatches(row.Of(axis), range)
    {
      if range.min.None? && range.max.None? {
        return;
      }
      Push(SizeKnown(axis));
      if range.min.Some? {
        var param := Add(Number(range.min.value));
        Push(SizeAtLeast(axis, param));
      }
      if range.max.Some? {
        var param := Add(Number(range.max.value));
        Push(SizeAtMost(axis, param, range.exclusiveMax));
      }
    }

    method PushText(column: TextColumn, wanted: Option<string>)
      requires Valid()
      modifies this
      ensures Valid()
      ensures forall row ::
                Selecting(row)
                <==> old(Selecting(row)) && SqlTextSelected(if column.Style? then row.style else row.materials, wanted)
    {
      if Truthy(wanted).Some? {
        var param := Add(Text(Lower(wanted.value)));
        Push(TextToken(column, param));
      }
    }

    method PushCategories(wanted: Option<Categories>)
      requires Valid()
      modifies this
      ensures Valid()
      ensures forall row :: Selecting(row) <==> old(Selecting(row)) && SqlCategorySelected(row, wanted)
    {
      if wanted.Some? {
        var param := Add(Texts({wanted.value.first} + wanted.value.others));
        Push(CategoryAny(param));
      }
    }

    method PushBrand(wanted: Option<string>)
      requires Valid()
      modifies this
      ensures Valid()
      ensures forall row :: Selecting(row) <==> old(Selecting(row)) && SqlBrandSelected(row, wanted)
    {
      if Truthy(wanted).Some? {
        var param := Add(Text(wanted.value));
        Push(BrandIs(param));
      }
    }

    method PushColor(wanted: Option<string>)
      requires Valid()
      modifies this
      ensures Valid()
      ensures forall row :: Selecting(row) <==> old(Selecting(row)) && SqlColorSelected(row, wanted)
    {
      if Truthy(wanted).Some? {
        var param := Add(Text(Lower(wanted.value)));
        Push(ColorToken(param));
      }
    }

    method PushExclusions(ids: seq<string>)
      requires Valid()
      modifies this
      ensures Valid()
      ensures forall row :: Selecting(row) <==> old(Selecting(row)) && row.assetId !in ids
    {
      if ids != [] {
        var param := Add(Texts(set id | id in ids));
        Push(NotAny(param));
      }
    }

    method PushPrices(min: Option<Money>, max: Option<Money>)
      requires Valid()
      modifies this
      ensures Valid()
      ensures forall row :: Selecting(row) <==> old(Selecting(row)) && SqlPriceMatches(row.price, min, max)
    {
      if min.None? && max.None? {
        return;
      }
      Push(PriceKnown);
      if min.Some? {
        var param := Add(Whole(min.value.amountMinor));
        Push(PriceAtLeast(param));
      }
      if max.Some? {
        var param := Add(Whole(max.value.amountMinor));
        Push(PriceAtMost(param));
      }
    }
  }

  datatype Statement = Statement(where: seq<Clause>, values: seq<Value>, vector: nat, limit: nat, offset: nat)

  /** The statement finds the rows that the request means, whatever else it is given as parameters. */
  method SearchSql(n: Normalized, embedding: string) returns (sql: Statement)
    ensures forall row: Row :: row.embedded && Accepts(sql.where, sql.values, row) <==> Selects(row, n)
    ensures Parameter(sql.values, sql.vector) == Some(Text(embedding))
    ensures Parameter(sql.values, sql.limit) == Some(Whole(n.limit + 1))
            && Parameter(sql.values, sql.offset) == Some(Whole(n.offset))
  {
    var text := new SqlText();
    text.PushCategories(n.categories);
    text.PushBrand(n.brand);
    text.PushColor(n.color);
    text.PushText(Style, n.style);
    text.PushText(Materials, n.material);
    text.PushDimension(Width, n.sizes.width);
    text.PushDimension(Depth, n.sizes.depth);
    text.PushDimension(Height, n.sizes.height);
    text.PushPrices(n.minPrice, n.maxPrice);
    text.PushExclusions(n.ExcludeIds());
    var vector := text.Add(Text(embedding));
    var limit := text.Add(Whole(n.limit + 1));
    var offset := text.Add(Whole(n.offset));
    sql := Statement(text.where, text.values, vector, limit, offset);
  }
}
