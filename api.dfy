/** The `/search` endpoint of cmd/main.go: query-parameter validation, the
    call into the search engine, and the pagination of its result. A
    parameter that is absent and one that is present but empty both read
    as the empty string, as gin's `c.Query` returns them. */
module Api {
  import opened Wrappers
  import opened GoStrings
  import Strconv
  import Search

  /** An error response: HTTP status and the `error` message. */
  datatype ApiError = ApiError(status: int, message: string)

  /** A validated request. */
  datatype Request = Request(query: string, page: int, perPage: int, exclude: seq<string>)

  /** A 200 response: the page of keys and the counters sent beside it. */
  datatype Page = Page(results: seq<Search.Key>, total: int, totalPages: int, page: int, perPage: int)

  function WithDefault(v: string, default: string): string {
    if v == "" then default else v
  }

  /** The parameter is a decimal integer of at least 1. */
  predicate ValidCount(s: string) {
    Strconv.Atoi(s).Ok? && Strconv.Atoi(s).value >= 1
  }

  /** One of the two counting parameters: not a number, or a number below 1,
      is a 400 with the parameter's own message. */
  function ParseCount(s: string, invalid: string, notPositive: string): (r: Result<int, ApiError>)
    ensures r.Ok? <==> ValidCount(s)
    ensures r.Ok? ==> Strconv.Atoi(s) == Ok(r.value) && r.value >= 1
    ensures Strconv.Atoi(s).Err? ==> r == Err(ApiError(400, invalid))
    ensures Strconv.Atoi(s).Ok? && Strconv.Atoi(s).value < 1 ==> r == Err(ApiError(400, notPositive))
  {
    match Strconv.Atoi(s)
    case Err(_) => Err(ApiError(400, invalid))
    case Ok(n) => if n < 1 then Err(ApiError(400, notPositive)) else Ok(n)
  }

  /** The `exclude` parameter: comma-separated source names, none when empty. */
  function ExcludeList(s: string): seq<string> {
    if s == "" then [] else Split(s, ',')
  }

  const InvalidPage: string := "Invalid page number"
  const PageNotPositive: string := "Page number must be greater than 0"
  const InvalidPerPage: string := "Invalid per_page number"
  const PerPageNotPositive: string := "per_page number must be greater than 0"
  const MissingQuery: string := "Query parameter 'q' is required"

  /** A slice out of bounds panics; gin's Recovery middleware answers the
      panic with status 500 and an empty body, so the message is empty. */
  const SlicePanic: ApiError := ApiError(500, "")

  /** The validation of the handler: `page` (default `1`) first, then
      `per_page` (default `20`), then `q`; every failure is a 400. */
  function ParseRequest(q: string, page: string, perPage: string, exclude: string): (r: Result<Request, ApiError>)
    ensures r.Ok? <==> ValidCount(WithDefault(page, "1")) && ValidCount(WithDefault(perPage, "20")) && q != ""
    ensures r.Err? ==> r.error.status == 400
    ensures Strconv.Atoi(WithDefault(page, "1")).Err? ==> r == Err(ApiError(400, InvalidPage))
    ensures Strconv.Atoi(WithDefault(page, "1")).Ok? && Strconv.Atoi(WithDefault(page, "1")).value < 1 ==>
      r == Err(ApiError(400, PageNotPositive))
    ensures ValidCount(WithDefault(page, "1")) && Strconv.Atoi(WithDefault(perPage, "20")).Err? ==>
      r == Err(ApiError(400, InvalidPerPage))
    ensures (ValidCount(WithDefault(page, "1")) && Strconv.Atoi(WithDefault(perPage, "20")).Ok? &&
             Strconv.Atoi(WithDefault(perPage, "20")).value < 1) ==>
      r == Err(ApiError(400, PerPageNotPositive))
    ensures ValidCount(WithDefault(page, "1")) && ValidCount(WithDefault(perPage, "20")) && q == "" ==>
      r == Err(ApiError(400, MissingQuery))
    ensures r.Ok? ==>
      r.value.query == q && r.value.page >= 1 && r.value.perPage >= 1 &&
      Strconv.Atoi(WithDefault(page, "1")) == Ok(r.value.page) &&
      Strconv.Atoi(WithDefault(perPage, "20")) == Ok(r.value.perPage) &&
      r.value.exclude == ExcludeList(exclude)
  {
    var p :- ParseCount(WithDefault(page, "1"), InvalidPage, PageNotPositive);
    var pp :- ParseCount(WithDefault(perPage, "20"), InvalidPerPage, PerPageNotPositive);
    if q == "" then Err(ApiError(400, MissingQuery))
    else Ok(Request(q, p, pp, ExcludeList(exclude)))
  }

  /** Absent `page` and `per_page` are 1 and 20, and no `exclude` excludes
      nothing. */
  lemma Defaults(q: string)
    requires q != ""
    ensures ParseRequest(q, "", "", "") == Ok(Request(q, 1, 20, []))
  {
    Strconv.AtoiItoa(1);
    Strconv.AtoiItoa(20);
    assert Strconv.Itoa(1) == "1";
    assert Strconv.NatDigits(20) == "20" by {
      assert Strconv.NatDigits(2) == "2";
    }
  }

  /** `exclude` lists the comma-separated pieces of the parameter: they
      contain no comma and joined with commas give the parameter back. */
  lemma ExcludeListRoundTrip(s: string)
    requires s != ""
    ensures Join(ExcludeList(s), ',') == s
    ensures forall e :: e in ExcludeList(s) ==> ',' !in e
  {
    SplitJoin(s, ',');
  }

  function Min(a: int, b: int): int {
    if a <= b then a else b
  }

  /** The pagination of the handler, in unbounded integers; a slice start
      past the end, which makes Go panic and gin's recovery middleware
      answer 500, is an error. */
  function Paginate(results: seq<Search.Key>, page: int, perPage: int): (r: Result<Page, ApiError>)
    requires page >= 1 && perPage >= 1
    ensures results == [] ==> r == Ok(Page([], 0, 1, page, perPage))
    ensures r.Ok? ==> r.value.total == |results| && r.value.page == page && r.value.perPage == perPage
    ensures r.Ok? && results != [] ==>
      (r.value.totalPages - 1) * perPage < |results| <= r.value.totalPages * perPage
    ensures |results| <= perPage ==> r.Ok? && r.value.results == results
    ensures |results| > perPage ==>
      (r.Ok? <==> (page - 1) * perPage <= |results|)
    ensures |results| > perPage && r.Ok? ==>
      r.value.results == results[(page - 1) * perPage .. Min(page * perPage, |results|)] &&
      |r.value.results| <= perPage
    ensures r.Err? ==> r == Err(SlicePanic)
  {
    if |results| == 0 then Ok(Page([], 0, 1, page, perPage))
    else
      var total := |results|;
      var totalPages := (total + perPage - 1) / perPage;
      CeilingDivision(total, perPage);
      if total > perPage then
        var start := (page - 1) * perPage;
        var end := Min(start + perPage, total);
        if start > end then Err(SlicePanic)
        else Ok(Page(results[start..end], total, totalPages, page, perPage))
      else Ok(Page(results, total, totalPages, page, perPage))
  }

  /** `(n + d - 1) / d` is the ceiling of `n / d`. */
  lemma CeilingDivision(n: nat, d: int)
    requires n >= 1 && d >= 1
    ensures ((n + d - 1) / d - 1) * d < n <= ((n + d - 1) / d) * d
  {
    var c := (n + d - 1) / d;
    var m := (n + d - 1) % d;
    assert n + d - 1 == c * d + m && 0 <= m < d;
    assert (c - 1) * d == c * d - d;
  }

  /** Every key of a long result is on exactly one page, page
      `i / perPage + 1`, at offset `i % perPage`, and that page exists. */
  lemma PageCoverage(results: seq<Search.Key>, perPage: int, i: nat)
    requires perPage >= 1 && |results| > perPage && i < |results|
    ensures Paginate(results, i / perPage + 1, perPage).Ok?
    ensures i / perPage + 1 <= Paginate(results, i / perPage + 1, perPage).value.totalPages
    ensures |Paginate(results, i / perPage + 1, perPage).value.results| > i % perPage
    ensures Paginate(results, i / perPage + 1, perPage).value.results[i % perPage] == results[i]
  {
    var p := i / perPage + 1;
    var o := i % perPage;
    assert i == (p - 1) * perPage + o;
    assert (p - 1) * perPage <= i;
    assert p * perPage == (p - 1) * perPage + perPage;
    var r := Paginate(results, p, perPage);
    assert r.value.results == results[(p - 1) * perPage .. Min(p * perPage, |results|)];
    MulCancel(p - 1, r.value.totalPages, perPage);
  }

  lemma MulCancel(a: int, b: int, d: int)
    requires d >= 1 && a * d < b * d
    ensures a < b
  {
    assert (b - a) * d == b * d - a * d;
  }

  // ---------------------------------------------------------------------
  // The handler as Go's 64-bit `int` evaluates it.

  const TwoTo64: int := 0x1_0000_0000_0000_0000

  /** Two's-complement wrap-around to 64 bits: the one value in the int64
      range that differs from `x` by a multiple of 2^64. */
  function Wrap64(x: int): (r: int)
    ensures Strconv.MinInt64 <= r <= Strconv.MaxInt64
    ensures (x - r) % TwoTo64 == 0
    ensures Strconv.MinInt64 <= x <= Strconv.MaxInt64 ==> r == x
  {
    var d := x - Strconv.MinInt64;
    assert d == (d / TwoTo64) * TwoTo64 + d % TwoTo64;
    d % TwoTo64 + Strconv.MinInt64
  }

  /** Go's integer division, which truncates toward zero, for a positive
      divisor. */
  function Quo(a: int, b: int): int
    requires b >= 1
  {
    if a >= 0 then a / b else -((-a) / b)
  }

  /** The pagination exactly as written: every `+`, `-` and `*` wraps at 64
      bits, the division truncates, and a slice with `start < 0` or
      `start > end` panics. */
  function PaginateInt64(results: seq<Search.Key>, page: int, perPage: int): (r: Result<Page, ApiError>)
    requires 1 <= page <= Strconv.MaxInt64 && 1 <= perPage <= Strconv.MaxInt64
    requires |results| <= Strconv.MaxInt64
    ensures r.Ok? ==> r.value.total == |results|
  {
    if |results| == 0 then Ok(Page([], 0, 1, page, perPage))
    else
      var total := |results|;
      var totalPages := Quo(Wrap64(Wrap64(total + perPage) - 1), perPage);
      if total > perPage then
        var start := Wrap64(Wrap64(page - 1) * perPage);
        var end := Min(Wrap64(start + perPage), total);
        if start < 0 || start > end then Err(SlicePanic)
        else Ok(Page(results[start..end], total, totalPages, page, perPage))
      else Ok(Page(results, total, totalPages, page, perPage))
  }

  /** Where nothing overflows, the as-written pagination is Paginate. */
  lemma PaginateInt64Agrees(results: seq<Search.Key>, page: int, perPage: int)
    requires 1 <= page && 1 <= perPage
    requires |results| + perPage <= Strconv.MaxInt64 && page * perPage <= Strconv.MaxInt64
    ensures PaginateInt64(results, page, perPage) == Paginate(results, page, perPage)
  {
    var total := |results|;
    if total != 0 {
      assert Wrap64(Wrap64(total + perPage) - 1) == total + perPage - 1;
      if total > perPage {
        StartNoWrap(page, perPage);
      }
    }
  }

  /** The page offset `(page - 1) * perPage` and the end of the page stay in
      range whenever `page * perPage` does. */
  lemma StartNoWrap(page: int, perPage: int)
    requires 1 <= page && 1 <= perPage && page * perPage <= Strconv.MaxInt64
    ensures 0 <= (page - 1) * perPage
    ensures (page - 1) * perPage + perPage == page * perPage
    ensures Wrap64(Wrap64(page - 1) * perPage) == (page - 1) * perPage
    ensures Wrap64((page - 1) * perPage + perPage) == page * perPage
  {
    var a := page - 1;
    assert a * perPage + perPage == page * perPage by {
      assert page * perPage == (a + 1) * perPage;
    }
    assert 0 <= a * perPage by {
      assert 0 <= a;
    }
    assert Wrap64(a) == a;
    assert Wrap64(a * perPage) == a * perPage;
  }

  /** `total + perPage - 1` wraps: two results with the largest `per_page`
      report -1 pages instead of 1. */
  lemma TotalPagesOverflow(results: seq<Search.Key>)
    requires |results| == 2
    ensures PaginateInt64(results, 1, Strconv.MaxInt64).Ok?
    ensures PaginateInt64(results, 1, Strconv.MaxInt64).value.totalPages == -1
    ensures Paginate(results, 1, Strconv.MaxInt64).Ok?
    ensures Paginate(results, 1, Strconv.MaxInt64).value.totalPages == 1
  {
    assert Wrap64(2 + Strconv.MaxInt64) == Strconv.MinInt64 + 1;
    assert Quo(Strconv.MinInt64, Strconv.MaxInt64) == -1;
  }

  /** `(page - 1) * perPage` wraps: page 2^62 + 1 of five results, four per
      page, serves the first page instead of failing. */
  lemma StartOverflow(results: seq<Search.Key>)
    requires |results| == 5
    ensures PaginateInt64(results, 0x4000_0000_0000_0001, 4) == Ok(Page(results[0..4], 5, 2, 0x4000_0000_0000_0001, 4))
    ensures Paginate(results, 0x4000_0000_0000_0001, 4) == Err(SlicePanic)
  {
    assert Wrap64(0x4000_0000_0000_0000 * 4) == 0;
    assert Wrap64(0 + 4) == 4;
    assert Quo(Wrap64(Wrap64(5 + 4) - 1), 4) == 2;
  }

  // ---------------------------------------------------------------------
  // The handler.

  /** The `/search` handler: validation errors, then the search and the
      page of its ranked result. The check that `q` is present is on the
      raw parameter, so a `q` of spaces passes it and, trimming to nothing
      in the search, pages through every key unfiltered and unsorted. The
      page is cut by the unbounded Paginate, not by the 64-bit
      PaginateInt64: on the two overflow inputs of TotalPagesOverflow and
      StartOverflow it answers 1 page and 500 where the code as written
      answers -1 pages and the first page. */
  method HandleSearch(keys: seq<Search.Key>, q: string, page: string, perPage: string, exclude: string)
    returns (r: Result<Page, ApiError>)
    ensures ParseRequest(q, page, perPage, exclude).Err? ==> r == Err(ParseRequest(q, page, perPage, exclude).error)
    ensures ParseRequest(q, page, perPage, exclude).Ok? && AllSpace(q) ==>
      var req := ParseRequest(q, page, perPage, exclude).value;
      r == Paginate(keys, req.page, req.perPage)
    ensures ParseRequest(q, page, perPage, exclude).Ok? && !AllSpace(q) ==>
      var req := ParseRequest(q, page, perPage, exclude).value;
      exists ranked: seq<Search.Key> ::
        Search.SortedByLen(ranked) &&
        multiset(ranked) == multiset(Search.Selected(keys, q, req.exclude)) &&
        r == Paginate(ranked, req.page, req.perPage)
  {
    var req :- ParseRequest(q, page, perPage, exclude);
    TrimSpaceEmpty(q);
    var results := Search.Search(keys, req.query, req.exclude);
    r := Paginate(results, req.page, req.perPage);
  }
}
