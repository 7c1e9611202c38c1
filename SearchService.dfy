/**
 * `searchProducts` of src/services/search.service.js: sanitise the page and
 * the page size, build the two where-clauses, run the query (a foreign call,
 * here a parameter) and describe the page that came back.
 */
module SearchService {
  import opened Common
  import opened Values

  // ---------------------------------------------------------------------------
  // Pagination
  // ---------------------------------------------------------------------------

  /** `PAGINATION.DEFAULT_PAGE`, `PAGINATION.DEFAULT_LIMIT` and `PAGINATION.MAX_LIMIT`. */
  datatype PaginationConfig = PaginationConfig(defaultPage: int, defaultLimit: int, maxLimit: int)

  /** The `page` and `limit` the caller passed, already read as integers. */
  datatype PageRequest = PageRequest(page: Option<int>, limit: Option<int>)

  /** The page that is asked for, its size and the number of rows before it. */
  datatype Window = Window(pageNumber: int, pageSize: int, offset: int)

  function Max(a: int, b: int): int {
    if a >= b then a else b
  }

  function Min(a: int, b: int): int {
    if a <= b then a else b
  }

  function OrDefault(o: Option<int>, default: int): int {
    if o.Some? then o.value else default
  }

  /**
   * Lines 10-15: the page is at least 1, the size lies between 1 and the
   * maximum, a value already in range is kept as asked, and a value out of
   * range is clamped to the nearest bound.
   */
  function Paginate(config: PaginationConfig, request: PageRequest): (w: Window)
    requires config.maxLimit >= 1
    ensures w.pageNumber >= 1
    ensures 1 <= w.pageSize <= config.maxLimit
    ensures OrDefault(request.page, config.defaultPage) >= 1 ==>
              w.pageNumber == OrDefault(request.page, config.defaultPage)
    ensures 1 <= OrDefault(request.limit, config.defaultLimit) <= config.maxLimit ==>
              w.pageSize == OrDefault(request.limit, config.defaultLimit)
    ensures OrDefault(request.page, config.defaultPage) < 1 ==> w.pageNumber == 1
    ensures OrDefault(request.limit, config.defaultLimit) < 1 ==> w.pageSize == 1
    ensures OrDefault(request.limit, config.defaultLimit) > config.maxLimit ==> w.pageSize == config.maxLimit
    ensures w.offset >= 0 && w.offset % w.pageSize == 0
    ensures w.offset / w.pageSize == w.pageNumber - 1
  {
    var page := OrDefault(request.page, config.defaultPage);
    var limit := OrDefault(request.limit, config.defaultLimit);
    var pageNumber := Max(1, page);
    var pageSize := Min(Max(1, limit), config.maxLimit);
    MultipleOf(pageNumber - 1, pageSize);
    Window(pageNumber, pageSize, (pageNumber - 1) * pageSize)
  }

  /** A whole number of pages divides exactly by the page size. */
  lemma MultipleOf(k: nat, s: int)
    requires s >= 1
    ensures k * s >= 0 && (k * s) % s == 0 && (k * s) / s == k
  {
    var q, r := (k * s) / s, (k * s) % s;
    assert s * (k - q) == r;
    if k - q >= 1 {
      MultiplyMonotonic(1, k - q, s);
    } else if k - q <= -1 {
      MultiplyMonotonic(k - q, -1, s);
    }
  }

  /** Consecutive pages of the same size cover consecutive, disjoint ranges of rows. */
  lemma PagesTile(config: PaginationConfig, page: int, limit: Option<int>)
    requires config.maxLimit >= 1 && page >= 1
    ensures Paginate(config, PageRequest(Some(page + 1), limit)).offset
            == Paginate(config, PageRequest(Some(page), limit)).offset
               + Paginate(config, PageRequest(Some(page), limit)).pageSize
  {
  }

  /** `Math.ceil(count / pageSize)`: the fewest pages that hold `count` rows. */
  function TotalPages(count: nat, pageSize: int): (t: nat)
    requires pageSize >= 1
    ensures t * pageSize >= count
    ensures count > 0 ==> (t - 1) * pageSize < count
    ensures count == 0 ==> t == 0
  {
    (count + pageSize - 1) / pageSize
  }

  /** The `pagination` object of the response. */
  datatype PageInfo = PageInfo(
    currentPage: int,
    pageSize: int,
    totalResults: nat,
    totalPages: nat,
    hasNextPage: bool,
    hasPreviousPage: bool)

  /** Lines 79 and 90-97. */
  function Describe(w: Window, count: nat): (p: PageInfo)
    requires w.pageSize >= 1
    ensures p.currentPage == w.pageNumber && p.pageSize == w.pageSize && p.totalResults == count
    ensures p.totalPages == TotalPages(count, w.pageSize)
  {
    var totalPages := TotalPages(count, w.pageSize);
    PageInfo(w.pageNumber, w.pageSize, count, totalPages, w.pageNumber < totalPages, w.pageNumber > 1)
  }

  /**
   * For a sanitised window, the flags say whether rows lie after and before
   * the page: there is a next page exactly when rows remain beyond it, and a
   * previous one exactly when rows were skipped.
   */
  lemma {:induction false} FlagsMatchRows(config: PaginationConfig, request: PageRequest, count: nat)
    requires config.maxLimit >= 1
    ensures var w := Paginate(config, request);
            var p := Describe(w, count);
            && (p.hasNextPage <==> w.offset + w.pageSize < count)
            && (p.hasPreviousPage <==> w.offset > 0)
  {
    var w := Paginate(config, request);
    var t := TotalPages(count, w.pageSize);
    var n, s := w.pageNumber, w.pageSize;
    assert w.offset + s == n * s;
    if n < t {
      MultiplyMonotonic(n, t - 1, s);
    } else {
      MultiplyMonotonic(t, n, s);
    }
    if n > 1 {
      MultiplyMonotonic(1, n - 1, s);
    }
  }

  lemma MultiplyMonotonic(a: int, b: int, s: int)
    requires a <= b && s >= 0
    ensures a * s <= b * s
  {
    assert b * s - a * s == (b - a) * s;
  }

  // ---------------------------------------------------------------------------
  // Where-clauses
  // ---------------------------------------------------------------------------

  /** The search filters of the query string. */
  datatype SearchFilters = SearchFilters(
    familyCode: Value,
    productLine: Value,
    brand: Value,
    sku: Value,
    name: Value,
    status: Value)

  /** A condition on one column: `{ [Op.like]: pattern }` or an exact value. */
  datatype Condition = Like(pattern: string) | Equals(value: Value)

  /** `%${v}%`: the LIKE pattern for rows containing the filter text. */
  function ContainsPattern(v: Value): string {
    "%" + ToJsString(v) + "%"
  }

  /** The pattern is the filter text with a wildcard on each side. */
  lemma ContainsPatternWrapsText(v: Value)
    ensures var p := ContainsPattern(v);
            |p| >= 2 && p[0] == '%' && p[|p| - 1] == '%' && p[1..|p| - 1] == ToJsString(v)
  {
  }

  function ProductFilter(filters: SearchFilters, column: string): Value {
    if column == "sku" then filters.sku else filters.name
  }

  function FamilyFilter(filters: SearchFilters, column: string): Value {
    if column == "familyCode" then filters.familyCode
    else if column == "productLine" then filters.productLine
    else if column == "brand" then filters.brand
    else filters.status
  }

  /** The product where-clause: a substring match on each truthy text filter and nothing else. */
  function ProductWhere(filters: SearchFilters): (where: map<string, Condition>)
    ensures where.Keys <= {"sku", "name"}
    ensures "sku" in where <==> Truthy(filters.sku)
    ensures "name" in where <==> Truthy(filters.name)
    ensures forall column :: column in where ==> where[column] == ProductCondition(filters, column)
  {
    map column | column in {"sku", "name"} && Truthy(ProductFilter(filters, column))
      :: ProductCondition(filters, column)
  }

  /** `{ [Op.like]: `%${value}%` }` for the filter of that column. */
  function ProductCondition(filters: SearchFilters, column: string): Condition {
    Like(ContainsPattern(ProductFilter(filters, column)))
  }

  /** The family where-clause: an exact match on each truthy family filter and nothing else. */
  function FamilyWhere(filters: SearchFilters): (where: map<string, Condition>)
    ensures where.Keys <= {"familyCode", "productLine", "brand", "status"}
    ensures "familyCode" in where <==> Truthy(filters.familyCode)
    ensures "productLine" in where <==> Truthy(filters.productLine)
    ensures "brand" in where <==> Truthy(filters.brand)
    ensures "status" in where <==> Truthy(filters.status)
    ensures forall column :: column in where ==> where[column] == Equals(FamilyFilter(filters, column))
  {
    map column | column in {"familyCode", "productLine", "brand", "status"} && Truthy(FamilyFilter(filters, column))
      :: Equals(FamilyFilter(filters, column))
  }

  /** With no filter set, the search puts no condition on either table. */
  lemma NoFiltersNoConditions(filters: SearchFilters)
    requires !Truthy(filters.familyCode) && !Truthy(filters.productLine) && !Truthy(filters.brand)
    requires !Truthy(filters.sku) && !Truthy(filters.name) && !Truthy(filters.status)
    ensures ProductWhere(filters) == map[] && FamilyWhere(filters) == map[]
  {
    assert ProductWhere(filters).Keys == {};
    assert FamilyWhere(filters).Keys == {};
  }

  /** Lines 18-32: `productWhere` grows one key at a time. */
  method BuildProductWhere(filters: SearchFilters) returns (where: map<string, Condition>)
    ensures where == ProductWhere(filters)
  {
    where := map[];
    if Truthy(filters.sku) {
      where := where["sku" := ProductCondition(filters, "sku")];
    }
    if Truthy(filters.name) {
      where := where["name" := ProductCondition(filters, "name")];
    }
  }

  /** Lines 35-55: `familyWhere` grows one key at a time. */
  method BuildFamilyWhere(filters: SearchFilters) returns (where: map<string, Condition>)
    ensures where == FamilyWhere(filters)
  {
    where := map[];
    if Truthy(filters.familyCode) {
      where := where["familyCode" := Equals(filters.familyCode)];
    }
    if Truthy(filters.productLine) {
      where := where["productLine" := Equals(filters.productLine)];
    }
    if Truthy(filters.brand) {
      where := where["brand" := Equals(filters.brand)];
    }
    if Truthy(filters.status) {
      where := where["status" := Equals(filters.status)];
    }
  }

  // ---------------------------------------------------------------------------
  // The search
  // ---------------------------------------------------------------------------

  /** What `findAndCountAll` returns: the number of matching products and one page of them. */
  datatype QueryResult<R> = QueryResult(count: nat, rows: seq<R>)

  datatype SearchResult<R> = SearchResult(data: seq<R>, pagination: PageInfo)

  /**
   * `searchProducts`: the query receives the two where-clauses, the page
   * size as its limit and the offset; its rows are returned as they come
   * and its count is described page by page. A failing query is rethrown.
   */
  method SearchProducts<R>(
    filters: SearchFilters,
    request: PageRequest,
    config: PaginationConfig,
    query: (map<string, Condition>, map<string, Condition>, int, int) -> Result<QueryResult<R>, string>)
    returns (r: Result<SearchResult<R>, string>)
    requires config.maxLimit >= 1
    ensures var w := Paginate(config, request);
            var q := query(ProductWhere(filters), FamilyWhere(filters), w.pageSize, w.offset);
            && (r.Failure? <==> q.Failure?)
            && (q.Failure? ==> r.error == q.error)
            && (q.Success? ==> r.value == SearchResult(q.value.rows, Describe(w, q.value.count)))
  {
    var w := Paginate(config, request);
    var productWhere := BuildProductWhere(filters);
    var familyWhere := BuildFamilyWhere(filters);
    var q := query(productWhere, familyWhere, w.pageSize, w.offset);
    if q.Failure? {
      return Failure(q.error);
    }
    r := Success(SearchResult(q.value.rows, Describe(w, q.value.count)));
  }
}
