/**
 * The `GET /` handler of the products router: from the raw query-string
 * values it normalises the pagination, builds the row-fetch query and,
 * by a second hand-written copy of the same filter code, the count query,
 * resolves the sort through allow-lists, sends both queries to the
 * database and answers with one page of rows and the pagination summary.
 *
 * The database, `parseInt` and `parseFloat` are outside the model: they
 * are passed in as functions.
 */
module ProductsRoute {
  import opened Wrappers
  import opened SqlText
  import opened Pagination
  import opened Sorting
  import opened Filters

  /** The query-string values the handler reads; None when a value is absent. */
  datatype Request = Request(
    category: Option<string>,
    minPrice: Option<string>,
    maxPrice: Option<string>,
    search: Option<string>,
    sortBy: Option<string>,
    order: Option<string>,
    page: Option<string>,
    limit: Option<string>)

  /** `parseInt` and `parseFloat`; None stands for NaN. */
  datatype Parsers = Parsers(parseInt: string -> Option<int>, parseFloat: string -> Option<Price>)

  /** A query as handed to `db.execute`: its text and its positional parameters. */
  datatype Statement = Statement(text: string, params: seq<Param>)

  /**
   * `db.execute` for the two queries: the rows of a fetch, the `total` of a
   * count; None when the call throws.
   */
  datatype Storage<Row> = Storage(fetch: Statement -> Option<seq<Row>>, count: Statement -> Option<nat>)

  datatype PageInfo = PageInfo(page: int, limit: int, total: nat, pages: nat)

  /** The JSON body sent back: one page of rows, or the 500 error. */
  datatype Response<Row> =
    | Products(products: seq<Row>, pagination: PageInfo)
    | ServerError(status: int, error: string)

  // The two heads are the single literals `SELECT * FROM products WHERE 1=1`
  // and `SELECT COUNT(*) AS total FROM products WHERE 1=1`, written in two
  // short pieces so that the lemmas counting their `?` stay cheap.
  const FetchHead: string := "SELECT * FROM products" + " WHERE 1=1"
  const CountHead: string := "SELECT COUNT(*) AS total" + " FROM products WHERE 1=1"
  const FetchFailed: string := "Failed to fetch products"

  // The fragments of the fetch copy of the filter code, each spelled as the
  // `?`-free pieces around its placeholders.
  const CategoryClause: string := " AND category = " + "?"
  const MinPriceClause: string := " AND price >= " + "?"
  const MaxPriceClause: string := " AND price <= " + "?"
  const SearchClause: string := " AND (name LIKE " + "?" + " OR description LIKE " + "?" + " OR category LIKE " + "?" + ")"
  const FetchFragments: Fragments := Fragments(CategoryClause, MinPriceClause, MaxPriceClause, SearchClause)

  // The fragments of the count copy, spelled out again as that copy does.
  const CountCategoryClause: string := " AND category = " + "?"
  const CountMinPriceClause: string := " AND price >= " + "?"
  const CountMaxPriceClause: string := " AND price <= " + "?"
  const CountSearchClause: string := " AND (name LIKE " + "?" + " OR description LIKE " + "?" + " OR category LIKE " + "?" + ")"
  const CountFragments: Fragments := Fragments(CountCategoryClause, CountMinPriceClause, CountMaxPriceClause, CountSearchClause)

  /** JavaScript truthiness of a query value: present and not the empty string. */
  predicate Truthy(v: Option<string>)
  {
    v.Some? && v.value != ""
  }

  /** `parseInt` of a query value, or of its numeric default when it is absent. */
  function ParsedInt(v: Option<string>, default: int, parse: Parsers): Option<int>
  {
    match v
    case None => Some(default)
    case Some(s) => parse.parseInt(s)
  }

  function PageOf(req: Request, parse: Parsers): int
  {
    Normalise(ParsedInt(req.page, DefaultPage, parse), DefaultPage)
  }

  function LimitOf(req: Request, parse: Parsers): int
  {
    Normalise(ParsedInt(req.limit, DefaultLimit, parse), DefaultLimit)
  }

  /** The sort, after the defaults `sortBy = 'name'` and `order = 'ASC'`. */
  function SortOf(req: Request): Sort
  {
    ResolveSort(req.sortBy.GetOr("name"), req.order.GetOr("ASC"))
  }

  /** The category filter applies to a non-empty category other than "All". */
  predicate CategoryActive(category: Option<string>)
  {
    Truthy(category) && category.value != "All"
  }

  /** A price bound: a truthy value that `parseFloat` does not turn into NaN. */
  function PriceBound(v: Option<string>, parse: Parsers): Option<Price>
  {
    if Truthy(v) then parse.parseFloat(v.value) else None
  }

  function CategoryFilters(req: Request): seq<Filter>
  {
    if CategoryActive(req.category) then [CategoryIs(req.category.value)] else []
  }

  function MinPriceFilters(req: Request, parse: Parsers): seq<Filter>
  {
    match PriceBound(req.minPrice, parse)
    case Some(p) => [PriceAtLeast(p)]
    case None => []
  }

  function MaxPriceFilters(req: Request, parse: Parsers): seq<Filter>
  {
    match PriceBound(req.maxPrice, parse)
    case Some(p) => [PriceAtMost(p)]
    case None => []
  }

  function SearchFilters(req: Request): seq<Filter>
  {
    if Truthy(req.search) then [Matches(req.search.value)] else []
  }

  /** The conjuncts the request asks for, in the order the handler appends them. */
  function RequestFilters(req: Request, parse: Parsers): seq<Filter>
  {
    CategoryFilters(req) + MinPriceFilters(req, parse) + MaxPriceFilters(req, parse) + SearchFilters(req)
  }

  /** The `ORDER BY` clause, from the resolved sort. */
  function OrderByText(sort: Sort): string
  {
    " ORDER BY " + sort.field + " " + sort.direction
  }

  /** The `LIMIT` / `OFFSET` clause; both numbers are written into the text. */
  function LimitText(limit: nat, offset: nat): string
  {
    " LIMIT " + NatToString(limit) + " OFFSET " + NatToString(offset)
  }

  /** The row-fetch query for a request. */
  function FetchStatement(req: Request, parse: Parsers): Statement
  {
    var page, limit := PageOf(req, parse), LimitOf(req, parse);
    var fs := RequestFilters(req, parse);
    OffsetBounds(page, limit);
    Statement(Render(FetchFragments, FetchHead, fs) + OrderByText(SortOf(req)) + LimitText(limit, Offset(page, limit)),
              PredicateParams(fs))
  }

  /** The count query for a request. */
  function CountStatement(req: Request, parse: Parsers): Statement
  {
    var fs := RequestFilters(req, parse);
    Statement(Render(CountFragments, CountHead, fs), PredicateParams(fs))
  }

  /**
   * The handler. `issued` lists the queries sent to the database, in order:
   * the fetch, then the count once the fetch has succeeded. Every query
   * binds exactly one parameter per `?`.
   */
  method GetProducts<Row>(req: Request, parse: Parsers, db: Storage<Row>)
    returns (issued: seq<Statement>, resp: Response<Row>)
    ensures var fetch, count := FetchStatement(req, parse), CountStatement(req, parse);
            issued == [fetch] + (if db.fetch(fetch).Some? then [count] else [])
    ensures forall st | st in issued :: Placeholders(st.text) == |st.params|
    ensures var fetch, count := FetchStatement(req, parse), CountStatement(req, parse);
            resp == if db.fetch(fetch).None? || db.count(count).None? then ServerError(500, FetchFailed)
                    else
                      var limit, total := LimitOf(req, parse), db.count(count).value;
                      Products(db.fetch(fetch).value, PageInfo(PageOf(req, parse), limit, total, PageCount(total, limit)))
  {
    var page, limit, offset := NormalisePaging(req, parse);
    var fetch := BuildFetchQuery(req, parse, limit, offset);
    StatementPlaceholders(req, parse);
    issued := [fetch];
    var products := db.fetch(fetch);
    if products.None? {
      resp := ServerError(500, FetchFailed);
      return;
    }

    var count := BuildCountQuery(req, parse);
    issued := issued + [count];
    var total := db.count(count);
    if total.None? {
      resp := ServerError(500, FetchFailed);
      return;
    }

    resp := Products(products.value, PageInfo(page, limit, total.value, PageCount(total.value, limit)));
  }

  /** `page` and `limit` parsed and normalised, and the offset derived from them. */
  method NormalisePaging(req: Request, parse: Parsers) returns (page: int, limit: int, offset: nat)
    ensures page == PageOf(req, parse) && limit == LimitOf(req, parse)
    ensures offset == Offset(page, limit)
  {
    var parsedPage := ParsedInt(req.page, DefaultPage, parse);
    page := parsedPage.GetOr(0);
    if parsedPage.None? || page < 1 {
      page := DefaultPage;
    }

    var parsedLimit := ParsedInt(req.limit, DefaultLimit, parse);
    limit := parsedLimit.GetOr(0);
    if parsedLimit.None? || limit < 1 {
      limit := DefaultLimit;
    }

    OffsetBounds(page, limit);
    offset := (page - 1) * limit;
  }

  /** The row-fetch query: filters, then the sort, then `LIMIT` and `OFFSET` written into the text. */
  method BuildFetchQuery(req: Request, parse: Parsers, limit: nat, offset: nat) returns (fetch: Statement)
    requires limit == LimitOf(req, parse) && offset == Offset(PageOf(req, parse), limit)
    ensures fetch == FetchStatement(req, parse)
  {
    var query, params := FetchFilters(req, parse);
    var sortField, sortOrder := ResolveSortFields(req.sortBy.GetOr("name"), req.order.GetOr("ASC"));
    query := query + (" ORDER BY " + sortField + " " + sortOrder);
    query := query + (" LIMIT " + NatToString(limit) + " OFFSET " + NatToString(offset));
    fetch := Statement(query, params);
  }

  /** The filter part of the fetch query, grown clause by clause. */
  method FetchFilters(req: Request, parse: Parsers) returns (query: string, params: seq<Param>)
    ensures query == Render(FetchFragments, FetchHead, RequestFilters(req, parse))
    ensures params == PredicateParams(RequestFilters(req, parse))
  {
    query := FetchHead;
    params := [];
    query, params := AddCategory(req, FetchHead, [], query, params);
    query, params := AddMinPrice(req, parse, FetchHead, CategoryFilters(req), query, params);
    query, params := AddMaxPrice(req, parse, FetchHead, CategoryFilters(req) + MinPriceFilters(req, parse), query, params);
    query, params := AddSearch(req, FetchHead,
                               CategoryFilters(req) + MinPriceFilters(req, parse) + MaxPriceFilters(req, parse),
                               query, params);
  }

  /** The category block: ` AND category = ?` for a category other than empty or "All". */
  method AddCategory(req: Request, ghost head: string, ghost fs: seq<Filter>, query: string, params: seq<Param>)
    returns (query': string, params': seq<Param>)
    requires query == Render(FetchFragments, head, fs) && params == PredicateParams(fs)
    ensures query' == Render(FetchFragments, head, fs + CategoryFilters(req))
    ensures params' == PredicateParams(fs + CategoryFilters(req))
  {
    query', params' := query, params;
    if Truthy(req.category) && req.category.value != "All" {
      RenderSnoc(FetchFragments, head, fs, CategoryIs(req.category.value));
      ParamsSnoc(fs, CategoryIs(req.category.value));
      query' := query' + CategoryClause;
      params' := params' + [Text(req.category.value)];
    } else {
      assert fs + CategoryFilters(req) == fs;
    }
  }

  /** The minimum-price block: ` AND price >= ?` for a value `parseFloat` does not turn into NaN. */
  method AddMinPrice(req: Request, parse: Parsers, ghost head: string, ghost fs: seq<Filter>, query: string, params: seq<Param>)
    returns (query': string, params': seq<Param>)
    requires query == Render(FetchFragments, head, fs) && params == PredicateParams(fs)
    ensures query' == Render(FetchFragments, head, fs + MinPriceFilters(req, parse))
    ensures params' == PredicateParams(fs + MinPriceFilters(req, parse))
  {
    query', params' := query, params;
    if Truthy(req.minPrice) {
      var min := parse.parseFloat(req.minPrice.value);
      if min.Some? {
        RenderSnoc(FetchFragments, head, fs, PriceAtLeast(min.value));
        ParamsSnoc(fs, PriceAtLeast(min.value));
        query' := query' + MinPriceClause;
        params' := params' + [Number(min.value)];
        return;
      }
    }
    assert fs + MinPriceFilters(req, parse) == fs;
  }

  /** The maximum-price block: ` AND price <= ?` for a value `parseFloat` does not turn into NaN. */
  method AddMaxPrice(req: Request, parse: Parsers, ghost head: string, ghost fs: seq<Filter>, query: string, params: seq<Param>)
    returns (query': string, params': seq<Param>)
    requires query == Render(FetchFragments, head, fs) && params == PredicateParams(fs)
    ensures query' == Render(FetchFragments, head, fs + MaxPriceFilters(req, parse))
    ensures params' == PredicateParams(fs + MaxPriceFilters(req, parse))
  {
    query', params' := query, params;
    if Truthy(req.maxPrice) {
      var max := parse.parseFloat(req.maxPrice.value);
      if max.Some? {
        RenderSnoc(FetchFragments, head, fs, PriceAtMost(max.value));
        ParamsSnoc(fs, PriceAtMost(max.value));
        query' := query' + MaxPriceClause;
        params' := params' + [Number(max.value)];
        return;
      }
    }
    assert fs + MaxPriceFilters(req, parse) == fs;
  }

  /** The search block: one `LIKE ?` on each of three columns, all bound to `%search%`. */
  method AddSearch(req: Request, ghost head: string, ghost fs: seq<Filter>, query: string, params: seq<Param>)
    returns (query': string, params': seq<Param>)
    requires query == Render(FetchFragments, head, fs) && params == PredicateParams(fs)
    ensures query' == Render(FetchFragments, head, fs + SearchFilters(req))
    ensures params' == PredicateParams(fs + SearchFilters(req))
  {
    query', params' := query, params;
    if Truthy(req.search) {
      RenderSnoc(FetchFragments, head, fs, Matches(req.search.value));
      ParamsSnoc(fs, Matches(req.search.value));
      query' := query' + SearchClause;
      var searchTerm := "%" + req.search.value + "%";
      params' := params' + [Text(searchTerm), Text(searchTerm), Text(searchTerm)];
    } else {
      assert fs + SearchFilters(req) == fs;
    }
  }

  /**
   * The sort column and direction, overwritten step by step: `name ASC`,
   * then an allowed `sortBy`, then the price tokens or a valid `order`.
   */
  method ResolveSortFields(sortBy: string, order: string) returns (sortField: string, sortOrder: string)
    ensures Sort(sortField, sortOrder) == ResolveSort(sortBy, order)
  {
    sortField := "name";
    sortOrder := "ASC";
    if sortBy in ValidSortFields {
      sortField := sortBy;
    }
    if sortBy == "price_desc" {
      sortField := "price";
      sortOrder := "DESC";
    } else if sortBy == "price" {
      sortField := "price";
      sortOrder := "ASC";
    } else if order != "" && Upper(order) in ValidOrders {
      sortOrder := Upper(order);
    }
  }

  /**
   * The count query. The handler builds its predicate with a second,
   * hand-written copy of the filter code, with its own fragment texts.
   */
  method BuildCountQuery(req: Request, parse: Parsers) returns (count: Statement)
    ensures count == CountStatement(req, parse)
  {
    var countQuery: string;
    var countParams: seq<Param>;
    countQuery := CountHead;
    countParams := [];
    countQuery, countParams := CountCategory(req, CountHead, [], countQuery, countParams);
    countQuery, countParams := CountMinPrice(req, parse, CountHead, CategoryFilters(req), countQuery, countParams);
    countQuery, countParams := CountMaxPrice(req, parse, CountHead, CategoryFilters(req) + MinPriceFilters(req, parse),
                                             countQuery, countParams);
    countQuery, countParams := CountSearch(req, CountHead,
                                           CategoryFilters(req) + MinPriceFilters(req, parse) + MaxPriceFilters(req, parse),
                                           countQuery, countParams);
    count := Statement(countQuery, countParams);
  }

  /** The count copy of the category block: ` AND category = ?` for a category other than empty or "All". */
  method CountCategory(req: Request, ghost head: string, ghost fs: seq<Filter>, countQuery: string, countParams: seq<Param>)
    returns (countQuery': string, countParams': seq<Param>)
    requires countQuery == Render(CountFragments, head, fs) && countParams == PredicateParams(fs)
    ensures countQuery' == Render(CountFragments, head, fs + CategoryFilters(req))
    ensures countParams' == PredicateParams(fs + CategoryFilters(req))
  {
    countQuery', countParams' := countQuery, countParams;
    if Truthy(req.category) && req.category.value != "All" {
      RenderSnoc(CountFragments, head, fs, CategoryIs(req.category.value));
      ParamsSnoc(fs, CategoryIs(req.category.value));
      countQuery' := countQuery' + CountCategoryClause;
      countParams' := countParams' + [Text(req.category.value)];
    } else {
      assert fs + CategoryFilters(req) == fs;
    }
  }

  /** The count copy of the minimum-price block: ` AND price >= ?` for a value `parseFloat` does not turn into NaN. */
  method CountMinPrice(req: Request, parse: Parsers, ghost head: string, ghost fs: seq<Filter>, countQuery: string, countParams: seq<Param>)
    returns (countQuery': string, countParams': seq<Param>)
    requires countQuery == Render(CountFragments, head, fs) && countParams == PredicateParams(fs)
    ensures countQuery' == Render(CountFragments, head, fs + MinPriceFilters(req, parse))
    ensures countParams' == PredicateParams(fs + MinPriceFilters(req, parse))
  {
    countQuery', countParams' := countQuery, countParams;
    if Truthy(req.minPrice) {
      var min := parse.parseFloat(req.minPrice.value);
      if min.Some? {
        RenderSnoc(CountFragments, head, fs, PriceAtLeast(min.value));
        ParamsSnoc(fs, PriceAtLeast(min.value));
        countQuery' := countQuery' + CountMinPriceClause;
        countParams' := countParams' + [Number(min.value)];
        return;
      }
    }
    assert fs + MinPriceFilters(req, parse) == fs;
  }

  /** The count copy of the maximum-price block: ` AND price <= ?` for a value `parseFloat` does not turn into NaN. */
  method CountMaxPrice(req: Request, parse: Parsers, ghost head: string, ghost fs: seq<Filter>, countQuery: string, countParams: seq<Param>)
    returns (countQuery': string, countParams': seq<Param>)
    requires countQuery == Render(CountFragments, head, fs) && countParams == PredicateParams(fs)
    ensures countQuery' == Render(CountFragments, head, fs + MaxPriceFilters(req, parse))
    ensures countParams' == PredicateParams(fs + MaxPriceFilters(req, parse))
  {
    countQuery', countParams' := countQuery, countParams;
    if Truthy(req.maxPrice) {
      var max := parse.parseFloat(req.maxPrice.value);
      if max.Some? {
        RenderSnoc(CountFragments, head, fs, PriceAtMost(max.value));
        ParamsSnoc(fs, PriceAtMost(max.value));
        countQuery' := countQuery' + CountMaxPriceClause;
        countParams' := countParams' + [Number(max.value)];
        return;
      }
    }
    assert fs + MaxPriceFilters(req, parse) == fs;
  }

  /** The count copy of the search block: one `LIKE ?` on each of three columns, all bound to `%search%`. */
  method CountSearch(req: Request, ghost head: string, ghost fs: seq<Filter>, countQuery: string, countParams: seq<Param>)
    returns (countQuery': string, countParams': seq<Param>)
    requires countQuery == Render(CountFragments, head, fs) && countParams == PredicateParams(fs)
    ensures countQuery' == Render(CountFragments, head, fs + SearchFilters(req))
    ensures countParams' == PredicateParams(fs + SearchFilters(req))
  {
    countQuery', countParams' := countQuery, countParams;
    if Truthy(req.search) {
      RenderSnoc(CountFragments, head, fs, Matches(req.search.value));
      ParamsSnoc(fs, Matches(req.search.value));
      countQuery' := countQuery' + CountSearchClause;
      var searchTerm := "%" + req.search.value + "%";
      countParams' := countParams' + [Text(searchTerm), Text(searchTerm), Text(searchTerm)];
    } else {
      assert fs + SearchFilters(req) == fs;
    }
  }

  /** Both queries bind exactly one parameter per `?` placeholder in their text. */
  lemma StatementPlaceholders(req: Request, parse: Parsers)
    ensures Placeholders(FetchStatement(req, parse).text) == |FetchStatement(req, parse).params|
    ensures Placeholders(CountStatement(req, parse).text) == |CountStatement(req, parse).params|
  {
    var page, limit := PageOf(req, parse), LimitOf(req, parse);
    OffsetBounds(page, limit);
    var fs := RequestFilters(req, parse);
    HeadsHoldNoPlaceholder();
    FetchFragmentsMarkValues();
    CountFragmentsMarkValues();
    RenderPlaceholders(FetchFragments, FetchHead, fs);
    RenderPlaceholders(CountFragments, CountHead, fs);
    TailHoldsNoPlaceholder(SortOf(req), limit, Offset(page, limit));
    PlaceholdersAppend(Render(FetchFragments, FetchHead, fs), OrderByText(SortOf(req)));
    PlaceholdersAppend(Render(FetchFragments, FetchHead, fs) + OrderByText(SortOf(req)), LimitText(limit, Offset(page, limit)));
  }

  lemma HeadsHoldNoPlaceholder()
    ensures Placeholders(FetchHead) == 0 && Placeholders(CountHead) == 0
  {
    FetchHeadHoldsNoPlaceholder();
    CountHeadHoldsNoPlaceholder();
  }

  lemma FetchHeadHoldsNoPlaceholder()
    ensures Placeholders(FetchHead) == 0
  {
    PlaceholdersAppend("SELECT * FROM products", " WHERE 1=1");
    NoPlaceholders("SELECT * FROM products");
    NoPlaceholders(" WHERE 1=1");
  }

  lemma CountHeadHoldsNoPlaceholder()
    ensures Placeholders(CountHead) == 0
  {
    PlaceholdersAppend("SELECT COUNT(*) AS total", " FROM products WHERE 1=1");
    NoPlaceholders("SELECT COUNT(*) AS total");
    NoPlaceholders(" FROM products WHERE 1=1");
  }

  /** The search fragment, in either copy, holds three placeholders, one per `LIKE`. */
  lemma SearchPlaceholders()
    ensures Placeholders(SearchClause) == 3 && Placeholders(CountSearchClause) == 3
  {
    ThreePlaceholders(" AND (name LIKE ", " OR description LIKE ", " OR category LIKE ", ")");
  }

  /** Each fetch fragment holds exactly as many `?` as its block binds values. */
  lemma FetchFragmentsMarkValues()
    ensures MarksMatchValues(FetchFragments)
  {
    OnePlaceholder(" AND category = ");
    OnePlaceholder(" AND price >= ");
    OnePlaceholder(" AND price <= ");
    SearchPlaceholders();
  }

  /** Each count fragment holds exactly as many `?` as its block binds values. */
  lemma CountFragmentsMarkValues()
    ensures MarksMatchValues(CountFragments)
  {
    OnePlaceholder(" AND category = ");
    OnePlaceholder(" AND price >= ");
    OnePlaceholder(" AND price <= ");
    SearchPlaceholders();
  }

  /** The count copy spells every fragment exactly as the fetch copy does. */
  lemma FragmentsAgree()
    ensures CountFragments == FetchFragments
  {
    assert CountCategoryClause == CategoryClause;
    assert CountMinPriceClause == MinPriceClause;
    assert CountMaxPriceClause == MaxPriceClause;
    assert CountSearchClause == SearchClause;
  }

  lemma TailHoldsNoPlaceholder(sort: Sort, limit: nat, offset: nat)
    requires sort.field in ValidSortFields && sort.direction in ValidOrders
    ensures Placeholders(OrderByText(sort)) == 0 && Placeholders(LimitText(limit, offset)) == 0
  {
    AllowListsHoldNoMark(sort);
    NoPlaceholders(OrderByText(sort));
    NoPlaceholders(LimitText(limit, offset));
  }

  /**
   * The hand-duplicated count code yields the fetch query's predicate: the
   * same values in the same order, and the same predicate text after each
   * query's own head.
   */
  lemma FetchAndCountAgree(req: Request, parse: Parsers)
    ensures CountStatement(req, parse).params == FetchStatement(req, parse).params
    ensures var filterText, page, limit := Render(FetchFragments, "", RequestFilters(req, parse)), PageOf(req, parse), LimitOf(req, parse);
            Offset(page, limit) >= 0 &&
            FetchStatement(req, parse).text == FetchHead + filterText + OrderByText(SortOf(req)) + LimitText(limit, Offset(page, limit)) &&
            CountStatement(req, parse).text == CountHead + filterText
  {
    var fs := RequestFilters(req, parse);
    OffsetBounds(PageOf(req, parse), LimitOf(req, parse));
    RenderAfterHead(FetchFragments, FetchHead, fs);
    RenderAfterHead(CountFragments, CountHead, fs);
    FragmentsAgree();
  }

  /** `category=All`, an empty category and no category give the same two queries. */
  lemma CategoryAllIsAbsent(req: Request, parse: Parsers)
    ensures FetchStatement(req.(category := Some("All")), parse) == FetchStatement(req.(category := None), parse)
    ensures CountStatement(req.(category := Some("All")), parse) == CountStatement(req.(category := None), parse)
    ensures FetchStatement(req.(category := Some("")), parse) == FetchStatement(req.(category := None), parse)
    ensures CountStatement(req.(category := Some("")), parse) == CountStatement(req.(category := None), parse)
  {
    var all, empty, none := req.(category := Some("All")), req.(category := Some("")), req.(category := None);
    assert CategoryFilters(all) == CategoryFilters(empty) == CategoryFilters(none) == [];
    assert RequestFilters(all, parse) == RequestFilters(none, parse);
    assert RequestFilters(empty, parse) == RequestFilters(none, parse);
  }

  /**
   * The bound values, in order: the category when it filters, the minimum
   * and the maximum price when they parse, and the search pattern
   * `%search%` three times when a search is given.
   */
  lemma FilterParamsInOrder(req: Request, parse: Parsers)
    ensures FetchStatement(req, parse).params ==
              (if CategoryActive(req.category) then [Text(req.category.value)] else [])
              + (match PriceBound(req.minPrice, parse) case Some(p) => [Number(p)] case None => [])
              + (match PriceBound(req.maxPrice, parse) case Some(p) => [Number(p)] case None => [])
              + (if Truthy(req.search)
                 then var t := SearchPattern(req.search.value); [Text(t), Text(t), Text(t)]
                 else [])
  {
    var c, lo, hi, q := CategoryFilters(req), MinPriceFilters(req, parse), MaxPriceFilters(req, parse), SearchFilters(req);
    PredicateParamsAppend(c + lo + hi, q);
    PredicateParamsAppend(c + lo, hi);
    PredicateParamsAppend(c, lo);
    PieceParams(req, parse);
  }

  lemma SingletonParams(f: Filter)
    ensures PredicateParams([f]) == ClauseParams(f)
  {
    assert [f][..0] == [];
  }

  lemma PieceParams(req: Request, parse: Parsers)
    ensures PredicateParams(CategoryFilters(req)) ==
              if CategoryActive(req.category) then [Text(req.category.value)] else []
    ensures PredicateParams(MinPriceFilters(req, parse)) ==
              match PriceBound(req.minPrice, parse) case Some(p) => [Number(p)] case None => []
    ensures PredicateParams(MaxPriceFilters(req, parse)) ==
              match PriceBound(req.maxPrice, parse) case Some(p) => [Number(p)] case None => []
    ensures PredicateParams(SearchFilters(req)) ==
              if Truthy(req.search)
              then var t := SearchPattern(req.search.value); [Text(t), Text(t), Text(t)]
              else []
  {
    if CategoryActive(req.category) { SingletonParams(CategoryIs(req.category.value)); }
    if PriceBound(req.minPrice, parse).Some? { SingletonParams(PriceAtLeast(PriceBound(req.minPrice, parse).value)); }
    if PriceBound(req.maxPrice, parse).Some? { SingletonParams(PriceAtMost(PriceBound(req.maxPrice, parse).value)); }
    if Truthy(req.search) { SingletonParams(Matches(req.search.value)); }
  }

  /**
   * The worked example of the listing: category Books, minimum price 10,
   * search "intro", sorted by price, page 2 of 10 rows. First its filters
   * and bound values.
   */
  lemma BooksExample(parse: Parsers, ten: Price)
    requires parse.parseFloat("10") == Some(ten)
    ensures var req := Request(Some("Books"), Some("10"), None, Some("intro"), Some("price"), None, Some("2"), Some("10"));
            && RequestFilters(req, parse) == [CategoryIs("Books"), PriceAtLeast(ten), Matches("intro")]
            && PredicateParams(RequestFilters(req, parse)) == [Text("Books"), Number(ten), Text("%intro%"), Text("%intro%"), Text("%intro%")]
  {
    BooksFilters(parse, ten);
    BooksParams(ten);
  }

  lemma BooksFilters(parse: Parsers, ten: Price)
    requires parse.parseFloat("10") == Some(ten)
    ensures var req := Request(Some("Books"), Some("10"), None, Some("intro"), Some("price"), None, Some("2"), Some("10"));
            RequestFilters(req, parse) == [CategoryIs("Books"), PriceAtLeast(ten), Matches("intro")]
  {
    var req := Request(Some("Books"), Some("10"), None, Some("intro"), Some("price"), None, Some("2"), Some("10"));
    assert CategoryFilters(req) == [CategoryIs("Books")] && MinPriceFilters(req, parse) == [PriceAtLeast(ten)];
    assert MaxPriceFilters(req, parse) == [] && SearchFilters(req) == [Matches("intro")];
  }

  lemma BooksParams(ten: Price)
    ensures PredicateParams([CategoryIs("Books"), PriceAtLeast(ten), Matches("intro")]) ==
            [Text("Books"), Number(ten), Text("%intro%"), Text("%intro%"), Text("%intro%")]
  {
    var one, two := [CategoryIs("Books")], [CategoryIs("Books"), PriceAtLeast(ten)];
    SingletonParams(CategoryIs("Books"));
    ParamsSnoc(one, PriceAtLeast(ten));
    assert one + [PriceAtLeast(ten)] == two;
    ParamsSnoc(two, Matches("intro"));
    assert two + [Matches("intro")] == [CategoryIs("Books"), PriceAtLeast(ten), Matches("intro")];
    assert SearchPattern("intro") == "%intro%";
  }

  /** The same example: its sort, its page and limit, and the offset of page 2. */
  lemma BooksExamplePaging(parse: Parsers)
    requires parse.parseInt("2") == Some(2) && parse.parseInt("10") == Some(10)
    ensures var req := Request(Some("Books"), Some("10"), None, Some("intro"), Some("price"), None, Some("2"), Some("10"));
            && SortOf(req) == Sort("price", "ASC")
            && PageOf(req, parse) == 2 && LimitOf(req, parse) == 10
            && Offset(PageOf(req, parse), LimitOf(req, parse)) == 10
  {
    var req := Request(Some("Books"), Some("10"), None, Some("intro"), Some("price"), None, Some("2"), Some("10"));
    assert SortOf(req) == ResolveSort("price", "ASC");
  }
}
