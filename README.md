# Product listing query composer

This project models the product-listing endpoint of a small e-commerce
backend: `GET /api/products`, the `router.get('/')` handler in
`backend/routes/products.js`. The handler reads optional query values:
category, price bounds, a search term, `sortBy` and `order`, `page` and
`limit`. From them it does the following:

- It normalises `page` and `limit` and derives the row offset.
- It builds a row-fetch query. The query text grows clause by clause, and
  the values bound to its `?` placeholders are collected alongside.
- It resolves the sort column and direction through two allow-lists.
- It writes `ORDER BY`, `LIMIT` and `OFFSET` into the fetch text.
- A second, hand-written copy of the filter code builds the count query.
- It runs the fetch and then the count. It answers with the rows and
  `{page, limit, total, pages = ceil(total / limit)}`, or with status 500
  and `Failed to fetch products` when either call throws.

The modules follow that structure:

- `Wrappers`: `Option`.
- `SqlText`: counting `?` placeholders in a text, and decimal rendering of
  the numbers written into the text.
- `Pagination`: normalisation, offset and page count.
- `Sorting`: the allow-lists and sort resolution.
- `Filters`: the filter conjuncts, their SQL fragments and their bound
  values.
- `ProductsRoute`: the request, the two queries as specification functions,
  and the handler as imperative methods proved equal to them.

The handler is the method `ProductsRoute.GetProducts`. The handler and
its helper methods update the locals as the source does: `page`, `limit`,
`query`, `params`, `sortField`, `sortOrder`, `countQuery` and
`countParams`. Each `if` block of the filter code is a small method that
appends its fragment and its values. The fetch copy's blocks are
`AddCategory`, `AddMinPrice`, `AddMaxPrice` and `AddSearch`. The count
copy has its own blocks, `CountCategory`, `CountMinPrice`, `CountMaxPrice`
and `CountSearch`, with its own fragment texts (`CountFragments`). The
model proves that the two copies produce the same predicate.

External collaborators are parameters:

- `db.execute` is a `Storage` value holding two functions: the rows of a
  fetch, and the `total` of a count. Either returns None when the call
  throws.
- `parseInt` and `parseFloat` are a `Parsers` value. Each returns None for
  NaN.
- A parsed price is an abstract type `Price`. The handler only binds it to
  a placeholder and never inspects it.

Behaviour worth noting, as the code has it:

- An unknown `sortBy` falls back to `name` but still honours an `order`
  of `asc`/`desc` in any letter case (`products.js:58-63`, `71-72`).
  `Sorting.ResolveSort`, `Sorting.FieldFromAllowList`,
  `Sorting.DescendingIff` and `Sorting.DirectionAnyCase` state this.
- `LIMIT` and `OFFSET` are written into the query text, not bound
  (`products.js:78`). The model proves that both are decimal digit
  strings of the normalised numbers, that they add no placeholder, and
  that they read back to those numbers.
- The count runs only after the fetch has succeeded
  (`products.js:83`, `116`). `GetProducts` states this order in its
  `issued` out-parameter.

## Model

| member | source | states |
|---|---|---|
| Pagination.Normalise | backend/routes/products.js:19-23 | the normalised value is at least 1; it is the parsed value when that is a number ≥ 1, and the default (1 for page, 50 for limit) otherwise |
| Pagination.NormaliseIdempotent | backend/routes/products.js:19-23 | normalising an already normalised value leaves it unchanged |
| Pagination.OffsetBounds | backend/routes/products.js:25 | for page, limit ≥ 1 the offset `(page-1)*limit` is never negative, is 0 exactly on page 1, and consecutive pages are `limit` rows apart |
| Pagination.PageCountIsCeiling | backend/routes/products.js:125 | `pages` is `ceil(total/limit)`: `pages*limit` covers every row, `(pages-1)*limit` does not, and `pages` is 0 exactly when `total` is 0 |
| Pagination.PageCountUnique | backend/routes/products.js:125 | any whole number meeting both ceiling conditions equals `pages` |
| Pagination.PageNonEmptyIff | backend/routes/products.js:125 | a page's offset is below `total` exactly when the page number is at most `pages` |
| Sorting.DirectionAnyCase | backend/routes/products.js:71-72 | for a `sortBy` other than the price tokens, the direction is DESC exactly when `order` is `desc` in any mix of letter cases, and `asc` in any case gives ASC |
| Sorting.ResolveSort | backend/routes/products.js:57-73 | the resolved column is always in `name, price, rating, created_at` and the direction always `ASC` or `DESC`, whatever `sortBy` and `order` are |
| Sorting.PriceTokensIgnoreOrder | backend/routes/products.js:65-70 | `price_desc` gives price DESC and `price` gives price ASC, for every `order` |
| Sorting.FieldFromAllowList | backend/routes/products.js:57-63 | apart from `price_desc`, the column is `sortBy` itself iff `sortBy` is allowed; an unknown `sortBy` gives `name` |
| Sorting.DescendingIff | backend/routes/products.js:65-72 | descending order is chosen iff `sortBy` is `price_desc`, or `sortBy` is not `price` and a non-empty `order` upper-cases to `DESC` |
| Sorting.OrderCaseInsensitive | backend/routes/products.js:71-72 | two `order` values with the same upper-cased form resolve to the same sort |
| Sorting.AllowListsHoldNoMark | backend/routes/products.js:75 | no allowed column or direction contains a `?`, so the `ORDER BY` text binds nothing |
| SqlText.PlaceholdersAppend | backend/routes/products.js:31 | the placeholders of a text grown by `+=` are those of its two parts added together |
| SqlText.NatToString | backend/routes/products.js:78 | the text written for `limit` and `offset` is a non-empty string of decimal digits, with a leading `0` only for zero |
| SqlText.DigitsRoundTrip | backend/routes/products.js:78 | reading the written digits back yields the number written |
| SqlText.NumberHasNoPlaceholder | backend/routes/products.js:78 | a written number contains no `?` |
| Filters.SearchPattern | backend/routes/products.js:53 | the bound search pattern is the term with one `%` before and one after |
| Filters.ClausePlaceholders | backend/routes/products.js:30-55 | for a fragment set whose fragments hold 1, 1, 1 and 3 `?`, each clause fragment holds exactly as many `?` as values its block pushes |
| Filters.RenderSnoc | backend/routes/products.js:30-33 | appending a conjunct appends its fragment to the text |
| Filters.ParamsSnoc | backend/routes/products.js:30-33 | appending a conjunct appends its values to the parameters |
| Filters.RenderPlaceholders | backend/routes/products.js:27-55 | with fragments whose `?` counts match their values, a predicate's text holds its head's placeholders plus exactly one per bound value, for every list of conjuncts |
| Filters.RenderAfterHead | backend/routes/products.js:86-114 | the predicate after any head is that head followed by the predicate text rendered alone |
| Filters.PredicateParamsAppend | backend/routes/products.js:28-54 | the values bound by two runs of conjuncts laid end to end are their two value lists concatenated |
| Filters.TextIgnoresValues | backend/routes/products.js:30-55 | the SQL text depends only on which conjuncts are present, never on the category, price or search values, which only reach placeholders |
| ProductsRoute.GetProducts | backend/routes/products.js:6-132 | the fetch is issued first and the count only when the fetch succeeded; every issued query binds one value per `?`; the response is the 500 error when either call throws, else the rows with normalised page and limit, the counted total and `ceil(total/limit)` pages |
| ProductsRoute.NormalisePaging | backend/routes/products.js:19-25 | page and limit after parsing and normalising, and the offset `(page-1)*limit` of that page |
| ProductsRoute.BuildFetchQuery | backend/routes/products.js:27-78 | the fetch query is the filter predicate after its head, then `ORDER BY` the resolved sort, then `LIMIT`/`OFFSET` with the normalised numbers |
| ProductsRoute.FetchFilters | backend/routes/products.js:27-55 | the filter part of the fetch text and its values are the rendering of exactly the conjuncts the request activates, in block order |
| ProductsRoute.AddCategory | backend/routes/products.js:30-33 | the category clause and value are appended exactly when the category is non-empty and not `All` |
| ProductsRoute.AddMinPrice | backend/routes/products.js:35-41 | the `price >= ?` clause and the parsed value are appended exactly when `minPrice` is non-empty and does not parse to NaN |
| ProductsRoute.AddMaxPrice | backend/routes/products.js:43-49 | the `price <= ?` clause and the parsed value are appended exactly when `maxPrice` is non-empty and does not parse to NaN |
| ProductsRoute.AddSearch | backend/routes/products.js:51-55 | for a non-empty search, the three-`LIKE` clause and `%search%` three times are appended |
| ProductsRoute.ResolveSortFields | backend/routes/products.js:57-73 | the column and direction left by the step-by-step overwrites are the resolved sort, hence always from the allow-lists |
| ProductsRoute.BuildCountQuery | backend/routes/products.js:86-114 | the count query is the count copy's rendering of the request's conjuncts after the count head, with no ordering or limit |
| ProductsRoute.CountCategory | backend/routes/products.js:89-92 | the count copy appends its category clause and value exactly when the category is non-empty and not `All` |
| ProductsRoute.CountMinPrice | backend/routes/products.js:94-100 | the count copy appends its `price >= ?` clause and the parsed value exactly when `minPrice` is non-empty and does not parse to NaN |
| ProductsRoute.CountMaxPrice | backend/routes/products.js:102-108 | the count copy appends its `price <= ?` clause and the parsed value exactly when `maxPrice` is non-empty and does not parse to NaN |
| ProductsRoute.CountSearch | backend/routes/products.js:110-114 | for a non-empty search, the count copy appends its three-`LIKE` clause and `%search%` three times |
| ProductsRoute.SearchPlaceholders | backend/routes/products.js:52 | the search fragment holds three placeholders, in the fetch copy and in the count copy (line 111) |
| ProductsRoute.FetchFragmentsMarkValues | backend/routes/products.js:30-55 | each fragment of the fetch copy holds as many `?` as its block pushes values |
| ProductsRoute.CountFragmentsMarkValues | backend/routes/products.js:89-114 | each fragment of the count copy holds as many `?` as its block pushes values |
| ProductsRoute.FragmentsAgree | backend/routes/products.js:89-114 | the count copy spells each of its four fragments exactly as the fetch copy does |
| ProductsRoute.StatementPlaceholders | backend/routes/products.js:27-116 | in both queries the number of `?` equals the number of bound values |
| ProductsRoute.FetchAndCountAgree | backend/routes/products.js:86-114 | the count copy binds the same values in the same order as the fetch copy, and the count text is its head followed by exactly the predicate text the fetch text carries after its own head |
| ProductsRoute.CategoryAllIsAbsent | backend/routes/products.js:30 | category `All`, an empty category and no category give identical fetch and count queries |
| ProductsRoute.FilterParamsInOrder | backend/routes/products.js:28-54 | the fetch binds, in order: the active category, the minimum and the maximum price when they parse, and `%search%` three times when a search is given |
| ProductsRoute.BooksExample | backend/routes/products.js:27-55 | category Books, minPrice 10 and search intro give the conjuncts category, price ≥ 10 and search, in that order, bound to `Books, 10, %intro%, %intro%, %intro%` |
| ProductsRoute.BooksExamplePaging | backend/routes/products.js:13-25 | for `sortBy=price&page=2&limit=10` the sort is price ASC, page 2 with limit 10, offset 10 (rows 11–20) |

## Left out

- `db.execute` is not modelled. It is a function parameter (`Storage`), as are the reading of `countResult[0].total` and a thrown error.
- The Express `req`/`res` objects are reduced to the `Request` record and the `Response` value. Status codes other than 500 and the JSON serialisation are not modelled.
- The `console.log` and `console.error` calls are not modelled. They have no effect on the result.
- `parseInt` and `parseFloat` are parameters (`Parsers`). Their treatment of partial numbers like `"12abc"` or `"1e3"` is not modelled.
- A price is never compared or computed by the handler. It is an abstract `Price`.
- `Math.ceil` on floating point is modelled as the whole-number ceiling `(total + limit - 1) / limit`. That agrees with the float result for counts and limits below 2^53.
- Pagination.Offset: the offset is the exact integer product `(page-1)*limit`. JavaScript computes it in double precision, so the two agree only while the product is below 2^53. For instance, `page=4&limit=4503599627370497` gives a different offset in JavaScript.
- ProductsRoute.NormalisePaging: `parseInt` returns `Infinity` for a digit string whose value is above the largest double (about 1.8e308; `1` followed by 308 zeros still parses to the finite 1e308). `Infinity` passes the `< 1` test. As `page` with a finite limit it gives `OFFSET Infinity`. As `limit` it gives `LIMIT Infinity`, with `OFFSET NaN` on page 1 (0 × Infinity) and `OFFSET Infinity` on later pages. Values between 2^53 and that bound come back as rounded doubles. The `Parsers` interface returns a whole number or NaN, so none of this is modelled.
- SqlText.NatToString: `${limit}` and `${offset}` are written as the exact decimal numeral of the integer. That agrees with JavaScript only below 2^53. From 2^53 on, JavaScript writes the shortest digits that read back to the same double, padded with zeros. For example, `limit=1152921504606846976&page=1` (2^60) gives `LIMIT 1152921504606847000` in JavaScript. From 1e21 on, JavaScript uses exponent notation.
- Query values that Express parses into arrays or objects (a key repeated, or bracket syntax) are not modelled. Every value is an absent or present string.
- Sorting.Upper: upper-cases ASCII letters only. Characters whose JavaScript upper case changes (`ß`, or `ſ`, whose upper case is `S`) are kept unchanged, so an `order` like `deſc` is not modelled as `DESC`.
- `backend/server.js`, the database setup script and the front-end components are not part of this model.
