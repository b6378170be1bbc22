/** The filter of the database and the filter of the program: where they agree, clause by clause, and that the
    search of the database is then the search of the program on the mapped rows. */
module CatalogFilters {
  import opened Outcomes
  import opened Sequences
  import opened CatalogText
  import opened WhiteSpace
  import opened CatalogLists
  import opened CatalogCategories
  import opened CatalogSearch
  import opened CatalogPages
  import opened CatalogSql

  // ---- Text -------------------------------------------------------------------------

  /** The needle of a normalized request. */
  predicate Needle(text: string) { text != [] && Bare(text, IsSpace) }

  predicate FactMatches(column: Option<string>, needle: string)
  {
    AsText(column).Some? && TokenMatch(AsText(column).value, needle)
  }

  /** White space other than blanks surrounds a text that is wanted as a whole, and is not a single word. */
  predicate Padded(column: Option<string>, needle: string)
  {
    && column.Some? && BTrim(column.value) != Trim(column.value)
    && Lower(Trim(column.value)) == Lower(needle) && Lower(needle) !in Tokens(column.value)
  }

  lemma {:induction false} NoTokens(text: string)
    requires Trim(text) == []
    ensures Tokens(text) == []
  {
    TrimKeepsTokens(text);
  }

  lemma {:induction false} LowerBare(text: string)
    ensures Bare(Lower(text), IsSpace) <==> Bare(text, IsSpace)
  {
    LowerStrip(text, IsSpace);
    var _, _ := StripParts(text, IsSpace);
    if Bare(text, IsSpace) {
      StripBare(text, IsSpace);
      var _, _ := StripParts(Lower(text), IsSpace);
    }
    if Bare(Lower(text), IsSpace) {
      StripBare(Lower(text), IsSpace);
      assert |Trim(text)| == |text|;
      TrimWhole(text);
    }
  }

  lemma {:induction false} TrimWhole(text: string)
    requires |Trim(text)| == |text|
    ensures Trim(text) == text
  {
    var front, back := StripParts(text, IsSpace);
    Unpadded(Trim(text));
  }

  /** A text is found by the database exactly if it is found by the program, unless it is padded. */
  lemma {:induction false} TokensAgree(column: Option<string>, needle: string)
    requires Needle(needle)
    ensures (SqlTokenMatches(column, Lower(needle)) <==> FactMatches(column, needle)) <==> !Padded(column, needle)
  {
    StripBare(needle, IsSpace);
    if column.Some? {
      TrimIdempotent(column.value);
      TrimBTrim(column.value);
      TrimKeepsTokens(column.value);
      LowerBare(needle);
      LowerBare(BTrim(column.value));
      if BTrim(column.value) == [] || Trim(column.value) == [] {
        NoTokens(column.value);
      }
    }
  }

  /** After a tab, a text of several words is found by the program and not by the database. */
  lemma {:induction false} TabHidesWords(text: string, gap: nat)
    requires Needle(text) && gap < |text| && text[gap] == ' '
    ensures FactMatches(Some("\t" + text), text) && !SqlTokenMatches(Some("\t" + text), Lower(text))
  {
    AfterTab(text);
    assert Lower(text)[gap] == ' ';
    NoToken("\t" + text, Lower(text));
    PaddedMatches(Some("\t" + text), text);
    TokensAgree(Some("\t" + text), text);
  }

  lemma {:induction false} AfterTab(text: string)
    requires Needle(text)
    ensures Trim("\t" + text) == text && BTrim("\t" + text) == "\t" + text
  {
    AppendNone("\t" + text);
    StripIs("\t", text, [], IsSpace);
    StripBare("\t" + text, IsBlank);
  }

  predicate TextSelected(column: Option<string>, wanted: Option<string>)
  {
    Truthy(wanted).Some? ==> TokenMatches(Facts(AsText(column)), wanted.value)
  }

  lemma {:induction false} OneFact(column: Option<string>, needle: string)
    requires Needle(needle)
    ensures TokenMatches(Facts(AsText(column)), needle) <==> FactMatches(column, needle)
  {
    StripBare(needle, IsSpace);
    if FactMatches(column, needle) {
      assert TokenMatch(Facts(AsText(column))[0], needle);
    }
  }

  lemma {:induction false} TextAgrees(column: Option<string>, wanted: Option<string>)
    requires Truthy(wanted).Some? ==> Needle(wanted.value)
    ensures (SqlTextSelected(column, wanted) <==> TextSelected(column, wanted))
            <==> (Truthy(wanted).Some? ==> !Padded(column, wanted.value))
  {
    if Truthy(wanted).Some? {
      TokensAgree(column, wanted.value);
      OneFact(column, wanted.value);
    }
  }

  predicate SomeFact(columns: seq<Option<string>>, needle: string)
  {
    exists i | 0 <= i < |columns| :: FactMatches(columns[i], needle)
  }

  predicate SomePadded(columns: seq<Option<string>>, needle: string)
  {
    exists i | 0 <= i < |columns| :: Padded(columns[i], needle)
  }

  predicate SomeSql(columns: seq<Option<string>>, needle: string)
  {
    exists i | 0 <= i < |columns| :: SqlTokenMatches(columns[i], Lower(needle))
  }

  /** The color of a row and the colors that the retailer offers. */
  function Colors(row: Row): seq<Option<string>>
  {
    [row.color] + if row.availableColors.None? then [] else row.availableColors.value
  }

  lemma {:induction false} AppendTokens(a: seq<string>, b: seq<string>, needle: string)
    ensures TokenMatches(a + b, needle) <==> TokenMatches(a, needle) || TokenMatches(b, needle)
  {
    if Trim(needle) != [] {
      forall i | 0 <= i < |a| ensures (a + b)[i] == a[i] {
      }
      forall i | 0 <= i < |b| ensures (a + b)[|a| + i] == b[i] {
      }
    }
  }

  lemma {:induction false} ManyFacts(columns: seq<Option<string>>, needle: string)
    requires Needle(needle)
    ensures TokenMatches(AsTextArray(columns), needle) <==> SomeFact(columns, needle)
  {
    if columns != [] {
      ManyFacts(columns[1..], needle);
      OneFact(columns[0], needle);
      AppendTokens(Facts(AsText(columns[0])), AsTextArray(columns[1..]), needle);
      SomeFactCons(columns, needle);
    }
  }

  lemma {:induction false} SomeFactCons(columns: seq<Option<string>>, needle: string)
    requires columns != []
    ensures SomeFact(columns, needle) <==> FactMatches(columns[0], needle) || SomeFact(columns[1..], needle)
  {
    if SomeFact(columns, needle) {
      var i :| 0 <= i < |columns| && FactMatches(columns[i], needle);
      assert i > 0 ==> columns[1..][i - 1] == columns[i];
    }
    if SomeFact(columns[1..], needle) {
      var i :| 0 <= i < |columns[1..]| && FactMatches(columns[1..][i], needle);
      assert columns[i + 1] == columns[1..][i];
    }
  }

  lemma {:induction false} ColumnAgrees(column: Option<string>, needle: string)
    requires Needle(needle)
    ensures SqlTokenMatches(column, Lower(needle)) || Padded(column, needle) <==> FactMatches(column, needle)
  {
    TokensAgree(column, needle);
    if Padded(column, needle) {
      PaddedMatches(column, needle);
    }
  }

  lemma {:induction false} ColumnsAgree(columns: seq<Option<string>>, needle: string)
    requires Needle(needle)
    ensures SomeSql(columns, needle) || SomePadded(columns, needle) <==> SomeFact(columns, needle)
  {
    if SomeSql(columns, needle) {
      var i :| 0 <= i < |columns| && SqlTokenMatches(columns[i], Lower(needle));
      ColumnAgrees(columns[i], needle);
    }
    if SomePadded(columns, needle) {
      var i :| 0 <= i < |columns| && Padded(columns[i], needle);
      ColumnAgrees(columns[i], needle);
    }
    if SomeFact(columns, needle) {
      var i :| 0 <= i < |columns| && FactMatches(columns[i], needle);
      ColumnAgrees(columns[i], needle);
    }
  }

  lemma {:induction false} PaddedMatches(column: Option<string>, needle: string)
    requires Needle(needle) && Padded(column, needle)
    ensures FactMatches(column, needle)
  {
    StripBare(needle, IsSpace);
    TrimIdempotent(column.value);
  }

  lemma {:induction false} SqlColors(row: Row, needle: string)
    ensures SomeSql(Colors(row), needle)
            <==> SqlTokenMatches(row.color, Lower(needle)) || SqlAvailableMatches(row.availableColors, Lower(needle))
  {
    var columns := Colors(row);
    assert columns[0] == row.color;
    if row.availableColors.Some? {
      forall i | 0 <= i < |row.availableColors.value| ensures columns[i + 1] == row.availableColors.value[i] {
      }
    }
    if SomeSql(columns, needle) {
      var i :| 0 <= i < |columns| && SqlTokenMatches(columns[i], Lower(needle));
      assert i > 0 ==> columns[i] == row.availableColors.value[i - 1];
    }
  }

  predicate ColorSelected(row: Row, wanted: Option<string>)
  {
    Truthy(wanted).Some? ==>
      TokenMatches(Facts(MapRegistryRow(row).color) + MapRegistryRow(row).availableColors, wanted.value)
  }

  lemma {:induction false} ProgramColors(row: Row, needle: string)
    requires Needle(needle)
    ensures TokenMatches(Facts(MapRegistryRow(row).color) + MapRegistryRow(row).availableColors, needle)
            <==> SomeFact(Colors(row), needle)
  {
    var available := if row.availableColors.None? then [] else row.availableColors.value;
    AppendTokens(Facts(AsText(row.color)), AsTextArray(available), needle);
    OneFact(row.color, needle);
    ManyFacts(available, needle);
    SomeFactCons(Colors(row), needle);
    Tail(row.color, available);
  }

  /** A padded color is not the only one that matches. */
  predicate SameColor(row: Row, wanted: Option<string>)
  {
    Truthy(wanted).Some? && SomePadded(Colors(row), wanted.value) ==> SqlColorSelected(row, wanted)
  }

  /** A color is found by the database exactly if it is found by the program, unless only a padded one matches. */
  lemma {:induction false} ColorAgrees(row: Row, wanted: Option<string>)
    requires Truthy(wanted).Some? ==> Needle(wanted.value)
    ensures (SqlColorSelected(row, wanted) <==> ColorSelected(row, wanted)) <==> SameColor(row, wanted)
  {
    if Truthy(wanted).Some? {
      ColumnsAgree(Colors(row), wanted.value);
      SqlColors(row, wanted.value);
      ProgramColors(row, wanted.value);
    }
  }

  lemma {:induction false} BrandAgrees(source: Option<string>, brand: string)
    requires brand != []
    ensures SqlBrandMatches(source, brand)
            <==> BrandMatches(if source.Some? && Trim(source.value) != [] then source else None, brand)
  {
    CollapseNothing();
    if source.Some? {
      BrandsAgree(source.value);
    }
  }

  lemma {:induction false} CollapseNothing()
    ensures NormalizeBrand([]) == []
  {
    StripBare([], IsSpace);
  }

  // ---- Numbers ----------------------------------------------------------------------

  /** A size that is no number, or infinite, and is only asked to be large enough. */
  predicate Boundless(value: Option<Num>, range: Range)
  {
    && range.min.Some? && range.max.None?
    && value.Some? && (value.value.NotANumber? || (value.value.Infinite? && value.value.positive))
  }

  lemma {:induction false} SizesAgree(value: Option<Num>, range: Range)
    requires CheckBounds(range).None?
    ensures (SqlSizeMatches(value, range) <==> DimensionMatches(MetreDimension(value), range))
            <==> !Boundless(value, range)
  {
  }

  predicate Usd(bound: Option<Money>) { bound.Some? ==> Upper(bound.value.currency) == "USD" }

  /** A positive price of no minor unit, or of more than can be counted, that the bounds admit. */
  predicate Uncountable(price: Option<Num>, min: Option<Money>, max: Option<Money>)
  {
    && (min.Some? || max.Some?) && price.Some? && price.value.Finite? && price.value.value > 0.0
    && (Round(price.value.value * 100.0) == 0 || Round(price.value.value * 100.0) > MAX_SAFE_INTEGER)
    && (min.Some? ==> min.value.amountMinor <= Round(price.value.value * 100.0))
    && (max.Some? ==> Round(price.value.value * 100.0) <= max.value.amountMinor)
  }

  lemma {:induction false} DollarsAreDollars()
    ensures Upper(Trim("USD")) == "USD"
  {
    StripBare("USD", IsSpace);
    assert Upper("USD") == "USD";
  }

  lemma {:induction false} PositiveRounds(x: real)
    requires x > 0.0
    ensures SqlRound(x * 100.0) == Round(x * 100.0) >= 0
  {
  }

  lemma {:induction false} PricesAgree(price: Option<Num>, min: Option<Money>, max: Option<Money>)
    requires Usd(min) && Usd(max)
    ensures (SqlPriceMatches(price, min, max) <==> PriceMatches(ProductPrice(price), min, max))
            <==> !Uncountable(price, min, max)
  {
    DollarsAreDollars();
    if price.Some? && price.value.Finite? && price.value.value > 0.0 {
      PositiveRounds(price.value.value);
    }
  }

  /** An infinite width, and a price of a tenth of a cent, are found by the database and not by the program. */
  lemma {:induction false} UnusualNumbers()
    ensures var width, atLeast := Some(Infinite(true)), Range(Some(1.0), None, false);
            SqlSizeMatches(width, atLeast) && !DimensionMatches(MetreDimension(width), atLeast)
    ensures var price, atMost := Some(Finite(0.001)), Some(Money(500, "USD"));
            SqlPriceMatches(price, None, atMost) && !PriceMatches(ProductPrice(price), None, atMost)
  {
  }

  // ---- The whole filter -------------------------------------------------------------

  predicate UsdOnly(n: Normalized) { Usd(n.minPrice) && Usd(n.maxPrice) }

  /** The text columns of the row do not lie where the two filters differ. */
  predicate SameTexts(row: Row, n: Normalized)
  {
    && (n.categories.Some? ==> SameCategory(row.category, n.categories.value.first))
    && SameColor(row, n.color)
    && (Truthy(n.style).Some? ==> !Padded(row.style, n.style.value))
    && (Truthy(n.material).Some? ==> !Padded(row.materials, n.material.value))
  }

  predicate SameNumbers(row: Row, n: Normalized)
  {
    && !Boundless(row.width, n.sizes.width) && !Boundless(row.depth, n.sizes.depth)
    && !Boundless(row.height, n.sizes.height)
    && !Uncountable(row.price, n.minPrice, n.maxPrice)
  }

  /** No clause of the request is one where the two filters differ on the row. */
  predicate Comparable(row: Row, n: Normalized) { SameTexts(row, n) && SameNumbers(row, n) }

  lemma {:induction false} NormalizedNeedle(value: Option<string>)
    requires CheckText(value).None?
    ensures Truthy(Trimmed(value)).Some? ==> Needle(Trimmed(value).value)
  {
    if value.Some? {
      TrimIdempotent(value.value);
    }
  }

  lemma {:induction false} NormalizedForm(r: Request, n: Normalized)
    requires Normalize(r) == Ok(n)
    ensures Truthy(n.color).Some? ==> Needle(n.color.value)
    ensures Truthy(n.style).Some? ==> Needle(n.style.value)
    ensures Truthy(n.material).Some? ==> Needle(n.material.value)
    ensures CheckBounds(n.sizes.width).None? && CheckBounds(n.sizes.depth).None? && CheckBounds(n.sizes.height).None?
  {
    NormalizedNeedle(r.color);
    NormalizedNeedle(r.style);
    NormalizedNeedle(r.material);
  }

  predicate SqlTextsSelected(row: Row, n: Normalized)
  {
    && SqlCategorySelected(row, n.categories) && SqlBrandSelected(row, n.brand) && SqlColorSelected(row, n.color)
    && SqlTextSelected(row.style, n.style) && SqlTextSelected(row.materials, n.material)
  }

  lemma {:induction false} CategoryClause(row: Row, r: Request, n: Normalized)
    requires Normalize(r) == Ok(n) && n.categories.Some?
    ensures (SqlCategorySelected(row, n.categories) <==> CategoryMatches(AsText(row.category), n.categories.value))
            <==> SameCategory(row.category, n.categories.value.first)
  {
    CategoryAgrees(row.category, Trim(r.category.value));
  }

  lemma {:induction false} TextsAgree(row: Row, r: Request, n: Normalized)
    requires Normalize(r) == Ok(n)
    ensures SameTexts(row, n) ==> (SqlTextsSelected(row, n) <==> TextMatches(MapRegistryRow(row), n))
    ensures SqlTextsSelected(row, n) && TextMatches(MapRegistryRow(row), n) ==> SameTexts(row, n)
  {
    NormalizedForm(r, n);
    ColorAgrees(row, n.color);
    TextAgrees(row.style, n.style);
    TextAgrees(row.materials, n.material);
    if Truthy(n.brand).Some? {
      BrandAgrees(row.source, n.brand.value);
    }
    if n.categories.Some? {
      CategoryClause(row, r, n);
    }
  }

  predicate SqlNumbersSelected(row: Row, n: Normalized)
  {
    && SqlSizeMatches(row.width, n.sizes.width) && SqlSizeMatches(row.depth, n.sizes.depth)
    && SqlSizeMatches(row.height, n.sizes.height) && SqlPriceMatches(row.price, n.minPrice, n.maxPrice)
  }

  predicate NumbersMatch(p: Product, n: Normalized)
  {
    SizeMatches(p.dimensions, n.sizes) && PriceMatches(p.price, n.minPrice, n.maxPrice)
  }

  lemma {:induction false} NumbersAgree(row: Row, r: Request, n: Normalized)
    requires Normalize(r) == Ok(n) && UsdOnly(n)
    ensures SameNumbers(row, n) ==> (SqlNumbersSelected(row, n) <==> NumbersMatch(MapRegistryRow(row), n))
    ensures SqlNumbersSelected(row, n) && NumbersMatch(MapRegistryRow(row), n) ==> SameNumbers(row, n)
  {
    NormalizedForm(r, n);
    SizesAgree(row.width, n.sizes.width);
    SizesAgree(row.depth, n.sizes.depth);
    SizesAgree(row.height, n.sizes.height);
    PricesAgree(row.price, n.minPrice, n.maxPrice);
  }

  /** The row can be found, and the program accepts its product. */
  predicate Meant(row: Row, n: Normalized) { Active(row) && CatalogProductMatches(MapRegistryRow(row), n) }

  /** The rows that the database selects are the active rows whose product the program accepts. Where some clause
      differs, this is so only if both refuse the row. */
  lemma {:induction false} WholeFiltersAgree(row: Row, r: Request, n: Normalized)
    requires Normalize(r) == Ok(n) && UsdOnly(n)
    ensures (Selects(row, n) <==> Meant(row, n))
            <==> Comparable(row, n) || (!Selects(row, n) && !Meant(row, n))
  {
    TextsAgree(row, r, n);
    NumbersAgree(row, r, n);
  }

  // ---- The search -------------------------------------------------------------------

  function Live(): Row -> bool { row => Active(row) }

  function Selecting(n: Normalized): Row -> bool { row => Selects(row, n) }

  function Mapped(): Row -> Product { row => MapRegistryRow(row) }

  /** The products of the rows that can be found at all. */
  function Products(rows: seq<Row>): seq<Product> { Map(Filter(rows, Live()), Mapped()) }

  /** Rows are ranked as their products are. */
  function RowRank(rank: Rank): Row -> int { row => rank(MapRegistryRow(row)) }

  function DatabasePage(rows: seq<Row>, n: Normalized): Found
  {
    var page := Map(Slice(rows, 0, n.limit), Mapped());
    Found(page, ResolvedConstraints(n), n.limit, n.offset, n.offset + |page|, |rows| <= n.limit)
  }

  /** The rows that the request means, one more than the page holds. */
  function Candidates(rows: seq<Row>, rank: Rank, n: Normalized): seq<Row>
  {
    Slice(Sort(Filter(rows, Selecting(n)), RowRank(rank)), n.offset, n.offset + (n.limit + 1))
  }

  /** The search of the database: one row more than the page holds tells whether there is more. */
  function DatabaseSearch(rows: seq<Row>, rank: Rank, request: Request): Result<Found, CatalogError>
  {
    match Normalize(request)
    case Err(e) => Err(e)
    case Ok(n) =>
      if !UsdOnly(n) then Err(UnsupportedFilter)
      else Ok(DatabasePage(Candidates(rows, rank, n), n))
  }

  /** What the database does with a statement. */
  function Execute(rows: seq<Row>, rank: Rank, sql: Statement): seq<Row>
    requires WholeOf(sql.values, sql.limit) >= 0 && WholeOf(sql.values, sql.offset) >= 0
  {
    var accepted := Filter(rows, (row: Row) => row.embedded && Accepts(sql.where, sql.values, row));
    var offset := WholeOf(sql.values, sql.offset);
    Slice(Sort(accepted, RowRank(rank)), offset, offset + WholeOf(sql.values, sql.limit))
  }

  lemma {:induction false} SameFilter<T>(s: seq<T>, keep: T -> bool, kept: T -> bool)
    requires forall x | x in s :: keep(x) <==> kept(x)
    ensures Filter(s, keep) == Filter(s, kept)
  {
    if s != [] {
      SameFilter(s[1..], keep, kept);
    }
  }

  lemma {:induction false} ExecuteFinds(rows: seq<Row>, rank: Rank, sql: Statement, n: Normalized)
    requires forall row: Row :: row.embedded && Accepts(sql.where, sql.values, row) <==> Selects(row, n)
    requires Parameter(sql.values, sql.limit) == Some(Whole(n.limit + 1))
             && Parameter(sql.values, sql.offset) == Some(Whole(n.offset))
    ensures Execute(rows, rank, sql) == Candidates(rows, rank, n)
  {
    SameFilter(rows, (row: Row) => row.embedded && Accepts(sql.where, sql.values, row), Selecting(n));
  }

  /** Compiling, executing and mapping is the search that is meant. */
  method Search(rows: seq<Row>, rank: Rank, embedding: string, request: Request)
    returns (found: Result<Found, CatalogError>)
    ensures found == DatabaseSearch(rows, rank, request)
  {
    match Normalize(request)
    case Err(e) => return Err(e);
    case Ok(n) =>
      if !UsdOnly(n) {
        return Err(UnsupportedFilter);
      }
      var sql := SearchSql(n, embedding);
      ExecuteFinds(rows, rank, sql, n);
      var result := Execute(rows, rank, sql);
      found := Ok(DatabasePage(result, n));
  }

  lemma {:induction false} FilterTwice<T>(s: seq<T>, wide: T -> bool, narrow: T -> bool)
    requires forall x | x in s :: narrow(x) ==> wide(x)
    ensures Filter(Filter(s, wide), narrow) == Filter(s, narrow)
  {
    if s != [] {
      FilterTwice(s[1..], wide, narrow);
      FilterCons(s[0], Filter(s[1..], wide), narrow);
    }
  }

  predicate AllComparable(rows: seq<Row>, n: Normalized) { forall row | row in rows :: Comparable(row, n) }

  lemma {:induction false} SelectedProducts(rows: seq<Row>, r: Request, n: Normalized)
    requires Normalize(r) == Ok(n) && UsdOnly(n) && AllComparable(rows, n)
    ensures Map(Filter(rows, Selecting(n)), Mapped()) == Filter(Products(rows), Filtering(n))
  {
    forall row | row in rows ensures Selects(row, n) <==> Meant(row, n) {
      WholeFiltersAgree(row, r, n);
    }
    FilterTwice(rows, Live(), Selecting(n));
    forall row | row in Filter(rows, Live()) ensures Selecting(n)(row) <==> Filtering(n)(Mapped()(row)) {
      FilterMembers(rows, Live(), row);
    }
    MapFilter(Filter(rows, Live()), Mapped(), Selecting(n), Filtering(n));
  }

  lemma {:induction false} RankedProducts(rows: seq<Row>, rank: Rank, r: Request, n: Normalized)
    requires Normalize(r) == Ok(n) && UsdOnly(n) && AllComparable(rows, n)
    ensures Map(Sort(Filter(rows, Selecting(n)), RowRank(rank)), Mapped()) == Ranked(Products(rows), rank, n)
  {
    SelectedProducts(rows, r, n);
    MapSort(Filter(rows, Selecting(n)), Mapped(), RowRank(rank), rank);
  }

  lemma {:induction false} DatabasePageOf(rows: seq<Row>, n: Normalized)
    ensures DatabasePage(Slice(rows, n.offset, n.offset + (n.limit + 1)), n) == PageOf(Map(rows, Mapped()), n)
  {
    Lookahead(rows, n.offset, n.limit);
    MapSlice(rows, Mapped(), n.offset, n.offset + n.limit);
  }

  lemma {:induction false} CandidatesPage(rows: seq<Row>, rank: Rank, n: Normalized, all: seq<Product>)
    requires Map(Sort(Filter(rows, Selecting(n)), RowRank(rank)), Mapped()) == all
    ensures DatabasePage(Candidates(rows, rank, n), n) == PageOf(all, n)
  {
    PageFromRows(Sort(Filter(rows, Selecting(n)), RowRank(rank)), all, n);
  }

  lemma {:induction false} PageFromRows(rows: seq<Row>, all: seq<Product>, n: Normalized)
    requires Map(rows, Mapped()) == all
    ensures DatabasePage(Slice(rows, n.offset, n.offset + (n.limit + 1)), n) == PageOf(all, n)
  {
    DatabasePageOf(rows, n);
  }

  /** On comparable rows, the database finds page by page what the program finds among their products. */
  lemma {:induction false} DatabaseIsMemory(rows: seq<Row>, rank: Rank, r: Request, n: Normalized)
    requires Normalize(r) == Ok(n) && UsdOnly(n) && AllComparable(rows, n)
    ensures DatabaseSearch(rows, rank, r) == MemorySearch(Products(rows), rank, r)
  {
    RankedProducts(rows, rank, r, n);
    CandidatesPage(rows, rank, n, Ranked(Products(rows), rank, n));
  }

  lemma {:induction false} DatabaseServes(rows: seq<Row>, rank: Rank, r: Request, n: Normalized)
    requires Normalize(r) == Ok(n) && n.omitIds == [] && StableCategory(n) && UsdOnly(n) && AllComparable(rows, n)
    ensures Serves(q => DatabaseSearch(rows, rank, q), r, n, Ranked(Products(rows), rank, n))
  {
    DatabaseIsMemory(rows, rank, r, n);
    forall shown | Named(shown)
      ensures DatabaseSearch(rows, rank, Omitting(n, shown))
                == Ok(PageOf(Without(Ranked(Products(rows), rank, n), IdOf, shown), n))
    {
      OmittingNormalizes(r, n, shown);
      SameComparable(rows, n, shown);
      DatabaseIsMemory(rows, rank, Omitting(n, shown), n.(omitIds := shown));
      MemoryContinues(Products(rows), rank, r, n, shown);
    }
  }

  lemma {:induction false} SameComparable(rows: seq<Row>, n: Normalized, shown: seq<string>)
    requires AllComparable(rows, n)
    ensures AllComparable(rows, n.(omitIds := shown))
  {
    forall row | row in rows ensures Comparable(row, n.(omitIds := shown)) {
      assert Comparable(row, n);
    }
  }

  /** Asking the database for more lists its matches as asking the program does. */
  lemma {:induction false} DatabaseEnumerates(rows: seq<Row>, rank: Rank, r: Request, n: Normalized, pages: nat)
    requires Normalize(r) == Ok(n) && n.omitIds == [] && StableCategory(n) && UsdOnly(n) && AllComparable(rows, n)
    requires Identified(Products(rows)) && pages > 0
    ensures var search: CatalogPages.Search := q => DatabaseSearch(rows, rank, q);
            Enumerates(Pages(search, r, pages), Page(search, r, pages - 1), Ranked(Products(rows), rank, n), n.offset,
                       pages)
  {
    RankedIdentified(Products(rows), rank, n);
    DatabaseServes(rows, rank, r, n);
    LimitAtLeastOne(r, n);
    ServedEnumerates(q => DatabaseSearch(rows, rank, q), r, n, Ranked(Products(rows), rank, n), pages);
  }
}
