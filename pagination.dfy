/**
 * Pagination arithmetic shared by the campaign and lead listings: clamping a
 * requested page and page size, deriving the navigation metadata, the
 * sliding strip of page numbers, and the URL query-string form of the
 * listing parameters.
 */
module Pagination {
  import opened Wrappers
  import opened Text

  const DefaultPageSize: int := 10
  const DefaultPage: int := 1
  const MaxPageSize: int := 100

  /** The page sizes offered by the page-size selector. */
  const PageSizeOptions: seq<int> := [5, 10, 20, 50]

  /**
   * A listing request. `None` in `page` or `limit` is an absent value or NaN;
   * both behave alike under `||` and `&&`, which are the only ways the
   * numbers are inspected.
   */
  datatype PaginationParams = PaginationParams(
    page: Option<int>,
    limit: Option<int>,
    search: Option<string>,
    status: Option<string>,
    campaign: Option<string>)

  const NoParams := PaginationParams(None, None, None, None, None)

  datatype PaginationOptions = PaginationOptions(page: int, limit: int, offset: int)

  datatype PaginationMeta = PaginationMeta(
    page: int,
    limit: int,
    total: int,
    totalPages: int,
    hasNextPage: bool,
    hasPreviousPage: bool)

  datatype PaginatedResponse<T> = PaginatedResponse(
    success: bool,
    data: seq<T>,
    meta: PaginationMeta,
    error: Option<string>)

  /** JavaScript truthiness of an optional number. */
  predicate Truthy(x: Option<int>) {
    x.Some? && x.value != 0
  }

  /** JavaScript truthiness of an optional string. */
  predicate NonEmpty(s: Option<string>) {
    s.Some? && s.value != ""
  }

  // ---------------------------------------------------------------------------
  // calculatePagination
  // ---------------------------------------------------------------------------

  function CalculatePagination(params: PaginationParams): (r: PaginationOptions)
    ensures r.page >= 1 && 1 <= r.limit <= MaxPageSize
    ensures r.offset == (r.page - 1) * r.limit && r.offset >= 0
    // `||` treats a missing, NaN or zero value as absent
    ensures !Truthy(params.page) ==> r.page == DefaultPage
    ensures !Truthy(params.limit) ==> r.limit == DefaultPageSize
    // an in-range request is honoured, an out-of-range one is clamped
    ensures Truthy(params.page) ==> r.page == if params.page.value < 1 then 1 else params.page.value
    ensures Truthy(params.limit) ==>
      r.limit == if params.limit.value < 1 then 1
                 else if params.limit.value > MaxPageSize then MaxPageSize
                 else params.limit.value
  {
    var page := Max(1, if Truthy(params.page) then params.page.value else DefaultPage);
    var limit := Min(MaxPageSize, Max(1, if Truthy(params.limit) then params.limit.value else DefaultPageSize));
    PaginationOptions(page, limit, (page - 1) * limit)
  }

  function Max(a: int, b: int): int { if a < b then b else a }
  function Min(a: int, b: int): int { if a < b then a else b }

  /** The offset always lands on a page boundary. */
  lemma OffsetOnPageBoundary(params: PaginationParams)
    ensures CalculatePagination(params).offset % CalculatePagination(params).limit == 0
    ensures CalculatePagination(params).offset / CalculatePagination(params).limit
         == CalculatePagination(params).page - 1
  {
    var r := CalculatePagination(params);
    MultipleDivides(r.page - 1, r.limit);
  }

  lemma MultipleDivides(k: nat, m: int)
    requires m >= 1
    ensures (k * m) % m == 0 && (k * m) / m == k
  {
    var q, r := (k * m) / m, (k * m) % m;
    assert k * m == q * m + r && 0 <= r < m;
    assert (k - q) * m == r;
    if k > q {
      MulAtLeast(k - q, m);
    } else if k < q {
      MulAtLeast(q - k, m);
    }
  }

  lemma MulAtLeast(a: int, m: int)
    requires a >= 1 && m >= 1
    ensures a * m >= m
  {
    assert a * m == (a - 1) * m + m;
  }

  // ---------------------------------------------------------------------------
  // createPaginationMeta
  // ---------------------------------------------------------------------------

  /** `Math.ceil(total / limit)` for a non-negative count and a positive page size. */
  function CeilDiv(total: int, limit: int): (k: int)
    requires total >= 0 && limit >= 1
    ensures k >= 0
    ensures (k - 1) * limit < total <= k * limit
  {
    var k := (total + limit - 1) / limit;
    CeilDivBounds(total, limit, k);
    k
  }

  lemma CeilDivBounds(total: int, limit: int, k: int)
    requires total >= 0 && limit >= 1 && k == (total + limit - 1) / limit
    ensures k >= 0
    ensures (k - 1) * limit < total <= k * limit
  {
    var r := (total + limit - 1) % limit;
    assert total + limit - 1 == k * limit + r;
    assert (k - 1) * limit == k * limit - limit;
  }

  function CreatePaginationMeta(page: int, limit: int, total: int): (m: PaginationMeta)
    requires limit >= 1 && total >= 0
    ensures m.page == page && m.limit == limit && m.total == total
    // totalPages is the least number of pages of `limit` rows that hold `total` rows
    ensures m.totalPages >= 0
    ensures (m.totalPages - 1) * limit < total <= m.totalPages * limit
    ensures m.hasNextPage <==> page < m.totalPages
    ensures m.hasPreviousPage <==> page > 1
  {
    var totalPages := CeilDiv(total, limit);
    PaginationMeta(page, limit, total, totalPages, page < totalPages, page > 1)
  }

  /** No rows means no pages and nothing to move to. */
  lemma EmptyListingMeta(page: int, limit: int)
    requires page >= 1 && limit >= 1
    ensures CreatePaginationMeta(page, limit, 0).totalPages == 0
    ensures !CreatePaginationMeta(page, limit, 0).hasNextPage
  {
  }

  /** The envelope a listing returns when the datastore fails. */
  function FailureResponse<T>(message: string): (r: PaginatedResponse<T>)
    ensures !r.success && r.data == [] && r.error == Some(message)
    ensures r.meta.page == 1 && r.meta.limit == DefaultPageSize && r.meta.total == 0
    ensures r.meta.totalPages == 0 && !r.meta.hasNextPage && !r.meta.hasPreviousPage
  {
    EmptyListingMeta(1, DefaultPageSize);
    PaginatedResponse(false, [], CreatePaginationMeta(1, DefaultPageSize, 0), Some(message))
  }

  // ---------------------------------------------------------------------------
  // generatePageNumbers
  // ---------------------------------------------------------------------------

  /** `[lo, lo + 1, ..., hi]`, empty when `hi < lo`. */
  function Range(lo: int, hi: int): (r: seq<int>)
    ensures |r| == if hi < lo then 0 else hi - lo + 1
    ensures forall i :: 0 <= i < |r| ==> r[i] == lo + i
  {
    seq(if hi < lo then 0 else hi - lo + 1, i => lo + i)
  }

  function GeneratePageNumbers(currentPage: int, totalPages: int, maxVisible: int): (r: seq<int>)
    // always an increasing run of existing page numbers
    ensures forall i :: 0 <= i < |r| ==> 1 <= r[i] <= totalPages && r[i] == r[0] + i
  {
    if totalPages <= maxVisible then
      Range(1, totalPages)
    else
      var half := maxVisible / 2;
      var start := Max(1, currentPage - half);
      var end := Min(totalPages, start + maxVisible - 1);
      var start' := if end - start + 1 < maxVisible then Max(1, end - maxVisible + 1) else start;
      Range(start', end)
  }

  /** The default width of the page strip. */
  const DefaultMaxVisible: int := 5

  /** Few pages: the strip is every page, in order. */
  lemma PageStripShowsAllPages(currentPage: int, totalPages: int, maxVisible: int)
    requires totalPages <= maxVisible
    ensures var r := GeneratePageNumbers(currentPage, totalPages, maxVisible);
      |r| == (if totalPages < 0 then 0 else totalPages) &&
      forall i :: 0 <= i < |r| ==> r[i] == i + 1
  {
  }

  /**
   * Many pages: the strip has exactly `maxVisible` consecutive numbers inside
   * `[1, totalPages]`, and shows the current page whenever it exists.
   */
  lemma PageStripWindow(currentPage: int, totalPages: int, maxVisible: int)
    requires 1 <= maxVisible < totalPages
    ensures var r := GeneratePageNumbers(currentPage, totalPages, maxVisible);
      && |r| == maxVisible
      && 1 <= r[0] && r[|r| - 1] <= totalPages
      && (1 <= currentPage <= totalPages ==> currentPage in r)
  {
    var r := GeneratePageNumbers(currentPage, totalPages, maxVisible);
    var half := maxVisible / 2;
    var start := Max(1, currentPage - half);
    var end := Min(totalPages, start + maxVisible - 1);
    assert half <= maxVisible - 1;
    if end - start + 1 < maxVisible {
      assert end == totalPages;
      assert r[0] == totalPages - maxVisible + 1;
    } else {
      assert end == start + maxVisible - 1;
      assert r[0] == start;
    }
    if 1 <= currentPage <= totalPages {
      assert r[currentPage - r[0]] == currentPage;
    }
  }

  /** The strips of the three reference situations: first, last and a middle page of 20. */
  lemma PageStripExamples()
    ensures GeneratePageNumbers(1, 20, 5) == [1, 2, 3, 4, 5]
    ensures GeneratePageNumbers(20, 20, 5) == [16, 17, 18, 19, 20]
    ensures GeneratePageNumbers(10, 20, 5) == [8, 9, 10, 11, 12]
  {
  }

  // ---------------------------------------------------------------------------
  // createPaginationSearchParams / parsePaginationParams
  // ---------------------------------------------------------------------------

  /** The entries of a `URLSearchParams`, in insertion order. */
  type Query = seq<(string, string)>

  /** `searchParams.get(key)`: the value of the first entry with that key. */
  function Get(q: Query, key: string): Option<string> {
    if |q| == 0 then None
    else if q[0].0 == key then Some(q[0].1)
    else Get(q[1..], key)
  }

  lemma {:induction false} GetAppend(q: Query, k: string, v: string, key: string)
    ensures Get(q + [(k, v)], key) ==
      if Get(q, key).Some? then Get(q, key) else if key == k then Some(v) else None
  {
    if |q| > 0 {
      assert (q + [(k, v)])[1..] == q[1..] + [(k, v)];
      GetAppend(q[1..], k, v, key);
    }
  }

  lemma {:induction false} GetConcat(a: Query, b: Query, key: string)
    ensures Get(a + b, key) == if Get(a, key).Some? then Get(a, key) else Get(b, key)
  {
    if |a| == 0 {
      assert a + b == b;
    } else {
      assert (a + b)[0] == a[0];
      assert (a + b)[1..] == a[1..] + b;
      GetConcat(a[1..], b, key);
    }
  }

  /** The position of each key `createPaginationSearchParams` may emit. */
  function KeyRank(key: string): int {
    if key == "page" then 0
    else if key == "limit" then 1
    else if key == "search" then 2
    else if key == "status" then 3
    else if key == "campaign" then 4
    else 5
  }

  /** Only the five listing keys, each at most once, in the order page, limit, search, status, campaign. */
  predicate InKeyOrder(q: Query) {
    && (forall i :: 0 <= i < |q| ==> KeyRank(q[i].0) < 5)
    && (forall i, j :: 0 <= i < j < |q| ==> KeyRank(q[i].0) < KeyRank(q[j].0))
  }

  /** What the query string built for `params` holds under `key`. */
  function Expected(params: PaginationParams, key: string): Option<string> {
    if key == "page" then
      (if params.page.Some? && params.page.value > 1 then Some(IntToString(params.page.value)) else None)
    else if key == "limit" then
      (if Truthy(params.limit) && params.limit.value != DefaultPageSize
       then Some(IntToString(params.limit.value)) else None)
    else if key == "search" then
      (if NonEmpty(params.search) then params.search else None)
    else if key == "status" then
      (if NonEmpty(params.status) && params.status.value != "all" then params.status else None)
    else if key == "campaign" then
      (if NonEmpty(params.campaign) then params.campaign else None)
    else None
  }

  /** Every key holds what `Expected` says, and no other key is present. */
  ghost predicate Encodes(q: Query, params: PaginationParams) {
    forall key {:trigger Get(q, key)} :: Get(q, key) == Expected(params, key)
  }

  /** The entry for `key` when `Expected` calls for one, otherwise nothing. */
  function EntryFor(params: PaginationParams, key: string): (e: Query)
    ensures forall k :: Get(e, k) == if k == key then Expected(params, key) else None
  {
    match Expected(params, key)
    case Some(v) => [(key, v)]
    case None => []
  }

  /** The entries `createPaginationSearchParams` emits, key by key in emission order. */
  function SearchParamsOf(params: PaginationParams): Query {
    EntryFor(params, "page") + EntryFor(params, "limit") + EntryFor(params, "search")
      + EntryFor(params, "status") + EntryFor(params, "campaign")
  }

  method CreatePaginationSearchParams(params: PaginationParams) returns (q: Query)
    ensures q == SearchParamsOf(params)
  {
    q := [];
    if params.page.Some? && params.page.value > 1 {
      q := q + [("page", IntToString(params.page.value))];
    }
    assert q == EntryFor(params, "page");
    if Truthy(params.limit) && params.limit.value != DefaultPageSize {
      q := q + [("limit", IntToString(params.limit.value))];
    }
    assert q == EntryFor(params, "page") + EntryFor(params, "limit");
    if NonEmpty(params.search) {
      q := q + [("search", params.search.value)];
    }
    assert q == EntryFor(params, "page") + EntryFor(params, "limit") + EntryFor(params, "search");
    if NonEmpty(params.status) && params.status.value != "all" {
      q := q + [("status", params.status.value)];
    }
    assert q == EntryFor(params, "page") + EntryFor(params, "limit") + EntryFor(params, "search")
      + EntryFor(params, "status");
    if NonEmpty(params.campaign) {
      q := q + [("campaign", params.campaign.value)];
    }
  }

  /** Each key holds exactly the value its condition calls for, and nothing else is emitted. */
  lemma SearchParamsEncode(params: PaginationParams)
    ensures Encodes(SearchParamsOf(params), params)
  {
    var a, b, c, d, e :=
      EntryFor(params, "page"), EntryFor(params, "limit"), EntryFor(params, "search"),
      EntryFor(params, "status"), EntryFor(params, "campaign");
    forall key
      ensures Get(SearchParamsOf(params), key) == Expected(params, key)
    {
      GetConcat(a, b, key);
      GetConcat(a + b, c, key);
      GetConcat(a + b + c, d, key);
      GetConcat(a + b + c + d, e, key);
    }
  }

  /** The keys come out in the order page, limit, search, status, campaign, each at most once. */
  lemma SearchParamsInKeyOrder(params: PaginationParams)
    ensures InKeyOrder(SearchParamsOf(params))
  {
    var a, b, c, d, e :=
      EntryFor(params, "page"), EntryFor(params, "limit"), EntryFor(params, "search"),
      EntryFor(params, "status"), EntryFor(params, "campaign");
    assert KeyRank("page") == 0 && KeyRank("limit") == 1 && KeyRank("search") == 2;
    assert KeyRank("status") == 3 && KeyRank("campaign") == 4;
    OrderedConcat(a, b, 1);
    OrderedConcat(a + b, c, 2);
    OrderedConcat(a + b + c, d, 3);
    OrderedConcat(a + b + c + d, e, 4);
  }

  /** Appending entries of higher rank to ordered entries keeps them ordered. */
  lemma OrderedConcat(a: Query, b: Query, n: int)
    requires InKeyOrder(a) && InKeyOrder(b)
    requires forall i :: 0 <= i < |a| ==> KeyRank(a[i].0) < n
    requires forall i :: 0 <= i < |b| ==> KeyRank(b[i].0) == n
    requires |b| <= 1
    ensures InKeyOrder(a + b)
    ensures forall i :: 0 <= i < |a + b| ==> KeyRank((a + b)[i].0) <= n
  {
  }

  /** A missing or empty value reads as absent. */
  function Present(v: Option<string>): Option<string> {
    if v.Some? && v.value != "" then v else None
  }

  /**
   * Text values are read exactly when the query holds a non-empty value for
   * their key; page and limit are parsed exactly when it does.
   */
  function ParsePaginationParams(q: Query): (p: PaginationParams)
    ensures p.search.Some? ==> p.search.value != "" && Get(q, "search") == p.search
    ensures p.status.Some? ==> p.status.value != "" && Get(q, "status") == p.status
    ensures p.campaign.Some? ==> p.campaign.value != "" && Get(q, "campaign") == p.campaign
    ensures p.search == Present(Get(q, "search"))
    ensures p.status == Present(Get(q, "status"))
    ensures p.campaign == Present(Get(q, "campaign"))
    ensures p.page.Some? ==> Get(q, "page").Some? && ParseInt(Get(q, "page").value) == p.page
    ensures p.limit.Some? ==> Get(q, "limit").Some? && ParseInt(Get(q, "limit").value) == p.limit
    ensures Present(Get(q, "page")).Some? ==> p.page == ParseInt(Get(q, "page").value)
    ensures Present(Get(q, "page")).None? ==> p.page.None?
    ensures Present(Get(q, "limit")).Some? ==> p.limit == ParseInt(Get(q, "limit").value)
    ensures Present(Get(q, "limit")).None? ==> p.limit.None?
  {
    var page := Present(Get(q, "page"));
    var limit := Present(Get(q, "limit"));
    PaginationParams(
      if page.Some? then ParseInt(page.value) else None,
      if limit.Some? then ParseInt(limit.value) else None,
      Present(Get(q, "search")),
      Present(Get(q, "status")),
      Present(Get(q, "campaign")))
  }

  /** The parameters as they survive a trip through the URL: defaults and empty strings drop out. */
  function Normalize(params: PaginationParams): PaginationParams {
    PaginationParams(
      if params.page.Some? && params.page.value > 1 then params.page else None,
      if Truthy(params.limit) && params.limit.value != DefaultPageSize then params.limit else None,
      if NonEmpty(params.search) then params.search else None,
      if NonEmpty(params.status) && params.status.value != "all" then params.status else None,
      if NonEmpty(params.campaign) then params.campaign else None)
  }

  /** Parsing the query string built for `params` recovers every value that was emitted. */
  lemma SearchParamsRoundTrip(params: PaginationParams, q: Query)
    requires Encodes(q, params)
    ensures ParsePaginationParams(q) == Normalize(params)
  {
    var p := ParsePaginationParams(q);
    var n := Normalize(params);
    ExpectedByKey(params);
    EncodedAt(q, params, "page");
    EncodedAt(q, params, "limit");
    EncodedAt(q, params, "search");
    EncodedAt(q, params, "status");
    EncodedAt(q, params, "campaign");
    NumberRoundTrip(params.page, params.page.Some? && params.page.value > 1, Get(q, "page"));
    NumberRoundTrip(params.limit, Truthy(params.limit) && params.limit.value != DefaultPageSize, Get(q, "limit"));
    assert p.page == n.page && p.limit == n.limit;
    assert p.search == n.search && p.status == n.status && p.campaign == n.campaign;
  }

  lemma EncodedAt(q: Query, params: PaginationParams, key: string)
    requires Encodes(q, params)
    ensures Get(q, key) == Expected(params, key)
  {
  }

  /** What `Expected` calls for under each of the five keys. */
  lemma ExpectedByKey(params: PaginationParams)
    ensures Expected(params, "page") ==
      if params.page.Some? && params.page.value > 1 then Some(IntToString(params.page.value)) else None
    ensures Expected(params, "limit") ==
      if Truthy(params.limit) && params.limit.value != DefaultPageSize
      then Some(IntToString(params.limit.value)) else None
    ensures Expected(params, "search") == if NonEmpty(params.search) then params.search else None
    ensures Expected(params, "status") ==
      if NonEmpty(params.status) && params.status.value != "all" then params.status else None
    ensures Expected(params, "campaign") == if NonEmpty(params.campaign) then params.campaign else None
  {
  }

  /** A number emitted under its key is parsed back; one not emitted stays absent. */
  lemma NumberRoundTrip(x: Option<int>, emitted: bool, v: Option<string>)
    requires emitted ==> x.Some?
    requires v == if emitted then Some(IntToString(x.value)) else None
    ensures (var s := Present(v); if s.Some? then ParseInt(s.value) else None)
         == if emitted then x else None
  {
    if emitted {
      ParseIntOfIntToString(x.value);
      NonEmptyIntToString(x.value);
    }
  }

  /** `parsePaginationParams(createPaginationSearchParams(params))` is `params` without its defaults. */
  lemma CreateThenParse(params: PaginationParams)
    ensures ParsePaginationParams(SearchParamsOf(params)) == Normalize(params)
  {
    SearchParamsEncode(params);
    SearchParamsRoundTrip(params, SearchParamsOf(params));
  }

  lemma NonEmptyIntToString(n: int)
    ensures IntToString(n) != ""
  {
  }

  /** Dropping what the URL drops never changes the page that is fetched. */
  lemma NormalizeKeepsWindow(params: PaginationParams)
    ensures CalculatePagination(Normalize(params)) == CalculatePagination(params)
  {
  }
}
