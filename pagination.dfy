/**
 * `paginateResource`: wraps a page of results with the total count and the links to the
 * next, previous and last pages, built from the request's URL and query parameters.
 */
module Pagination {
  import opened Wrappers
  import opened Text

  /** The `page` and `limit` query values, absent when not given. */
  datatype PaginationQuery = PaginationQuery(page: Option<int>, limit: Option<int>)

  /** Query parameters as `URLSearchParams` holds them: name-value pairs in order. */
  type Params = seq<(string, string)>

  datatype PaginatedResult<T> = PaginatedResult(
    statusCode: string,
    data: seq<T>,
    count: nat,
    currentPage: string,
    nextPage: Option<string>,
    prevPage: Option<string>,
    lastPage: string)

  /** `x || fallback` for a number: an absent value or 0 gives the fallback. */
  function OrDefault(x: Option<int>, fallback: int): (r: int)
    ensures x.Some? && x.value != 0 ==> r == x.value
    ensures x.None? || x.value == 0 ==> r == fallback
  {
    if x.Some? && x.value != 0 then x.value else fallback
  }

  function PageOf(q: PaginationQuery): int {
    OrDefault(q.page, 1)
  }

  function LimitOf(q: PaginationQuery): int {
    OrDefault(q.limit, 20)
  }

  /** `Math.ceil(a / b)`. Dafny's division is Euclidean, which rounds down for a positive
      divisor and up for a negative one. */
  function CeilDiv(a: int, b: int): int
    requires b != 0
  {
    if b > 0 then -((-a) / b) else a / b
  }

  /** `CeilDiv(a, b)` is the least whole number at or above `a / b`. */
  lemma CeilDivBounds(a: int, b: int)
    requires b != 0
    ensures b > 0 ==> (CeilDiv(a, b) - 1) * b < a <= CeilDiv(a, b) * b
    ensures b < 0 ==> CeilDiv(a, b) * b <= a < (CeilDiv(a, b) - 1) * b
  {
    var q := CeilDiv(a, b);
    if b > 0 {
      var d := (-a) / b;
      assert -a == b * d + (-a) % b;
      assert q * b == -(d * b);
      assert (q - 1) * b == -(d * b) - b;
    } else {
      assert a == b * q + a % b;
      assert (q - 1) * b == q * b - b;
    }
  }

  /** `url.split('?')[0]`. */
  function BaseUrl(url: string): (base: string)
    ensures '?' !in base
    ensures base <= url
    ensures |base| < |url| ==> url[|base|] == '?'
  {
    url[..IndexOf(url, '?')]
  }

  /** The values of the parameters named `name`, in order. */
  function Values(ps: Params, name: string): seq<string> {
    if ps == [] then []
    else (if ps[0].0 == name then [ps[0].1] else []) + Values(ps[1..], name)
  }

  /** `params.set(name, value)`, past the first `name` parameter when `found`: the first
      parameter of that name takes the value and the others are removed; without one, the
      parameter is appended. */
  function SetFrom(ps: Params, name: string, value: string, found: bool): Params {
    if ps == [] then (if found then [] else [(name, value)])
    else if ps[0].0 == name then
      (if found then [] else [(name, value)]) + SetFrom(ps[1..], name, value, true)
    else [ps[0]] + SetFrom(ps[1..], name, value, found)
  }

  function SetParam(ps: Params, name: string, value: string): Params {
    SetFrom(ps, name, value, false)
  }

  lemma {:induction false} ValuesAppend(a: Params, b: Params, name: string)
    ensures Values(a + b, name) == Values(a, name) + Values(b, name)
  {
    if a == [] {
      assert a + b == b;
    } else {
      assert (a + b)[0] == a[0] && (a + b)[1..] == a[1..] + b;
      ValuesAppend(a[1..], b, name);
    }
  }

  /** After `SetFrom`, the parameter `name` has the one value `value` (none past the first
      when `found`), and every other parameter keeps its values in order. */
  lemma {:induction false} SetFromValues(ps: Params, name: string, value: string, found: bool, other: string)
    requires other != name
    ensures Values(SetFrom(ps, name, value, found), name) == if found then [] else [value]
    ensures Values(SetFrom(ps, name, value, found), other) == Values(ps, other)
  {
    if ps == [] {
    } else {
      SetFromValues(ps[1..], name, value, ps[0].0 == name || found, other);
      var rest := SetFrom(ps[1..], name, value, ps[0].0 == name || found);
      if ps[0].0 == name {
        var head: Params := if found then [] else [(name, value)];
        ValuesAppend(head, rest, name);
        ValuesAppend(head, rest, other);
      } else {
        ValuesAppend([ps[0]], rest, name);
        ValuesAppend([ps[0]], rest, other);
      }
    }
  }

  /** `params.set(name, value)` leaves exactly one parameter `name`, holding `value`, and
      every other parameter as it was. */
  lemma SetParamValues(ps: Params, name: string, value: string, other: string)
    requires other != name
    ensures Values(SetParam(ps, name, value), name) == [value]
    ensures Values(SetParam(ps, name, value), other) == Values(ps, other)
  {
    SetFromValues(ps, name, value, false, other);
  }

  /** `params.toString()`, for names and values that need no percent-encoding. */
  function ParamsText(ps: Params): string {
    Join(seq(|ps|, i requires 0 <= i < |ps| => ps[i].0 + "=" + ps[i].1), "&")
  }

  /** The parameters of the link to page `pageNum`: the request's own, with `page` and
      `limit` set. */
  function LinkParams(query: Params, limit: int, pageNum: int): Params {
    SetParam(SetParam(query, "page", IntToString(pageNum)), "limit", IntToString(limit))
  }

  /** `buildPageUrl(pageNum)`. */
  function PageUrl(baseUrl: string, query: Params, limit: int, pageNum: int): string {
    baseUrl + "?" + ParamsText(LinkParams(query, limit, pageNum))
  }

  /** Every link goes to the base URL, and has exactly one `page` parameter, naming its page,
      exactly one `limit` parameter, the limit in use, and every other parameter of the
      request with its values in order. */
  lemma PageUrlParams(baseUrl: string, query: Params, limit: int, pageNum: int)
    ensures PageUrl(baseUrl, query, limit, pageNum)[..|baseUrl| + 1] == baseUrl + "?"
    ensures Values(LinkParams(query, limit, pageNum), "page") == [IntToString(pageNum)]
    ensures Values(LinkParams(query, limit, pageNum), "limit") == [IntToString(limit)]
    ensures forall other :: other != "page" && other != "limit" ==>
              Values(LinkParams(query, limit, pageNum), other) == Values(query, other)
  {
    var withPage := SetParam(query, "page", IntToString(pageNum));
    SetParamValues(query, "page", IntToString(pageNum), "limit");
    SetParamValues(withPage, "limit", IntToString(limit), "page");
    forall other | other != "page" && other != "limit"
      ensures Values(LinkParams(query, limit, pageNum), other) == Values(query, other)
    {
      SetParamValues(query, "page", IntToString(pageNum), other);
      SetParamValues(withPage, "limit", IntToString(limit), other);
    }
  }

  /** `paginateResource([result, total], query, req)` for a request with URL `url` and query
      parameters `reqQuery`. */
  function PaginateResource<T>(data: (seq<T>, nat), query: PaginationQuery, url: string, reqQuery: Params)
    : PaginatedResult<T>
  {
    var page := PageOf(query);
    var limit := LimitOf(query);
    var (result, total) := data;
    var lastPageNum := CeilDiv(total, limit);
    var baseUrl := BaseUrl(url);
    PaginatedResult(
      "success",
      result,
      total,
      url,
      if page + 1 > lastPageNum then None else Some(PageUrl(baseUrl, reqQuery, limit, page + 1)),
      if page - 1 < 1 then None else Some(PageUrl(baseUrl, reqQuery, limit, page - 1)),
      PageUrl(baseUrl, reqQuery, limit, lastPageNum))
  }

  /** For a positive limit, a page is before the last exactly when items lie beyond it. */
  lemma BeforeLastPage(page: int, limit: int, total: int, last: int)
    requires limit > 0 && (last - 1) * limit < total <= last * limit
    ensures page < last <==> page * limit < total
  {
    if page < last {
      assert (last - 1 - page) * limit >= 0;
      assert page * limit == (last - 1) * limit - (last - 1 - page) * limit;
    } else {
      assert (page - last) * limit >= 0;
      assert page * limit == last * limit + (page - last) * limit;
    }
  }

  /** The wrapper reports success, the results unchanged, the total as the count and the
      request URL as the current page. */
  lemma PaginateFields<T>(data: (seq<T>, nat), query: PaginationQuery, url: string, reqQuery: Params)
    ensures var p := PaginateResource(data, query, url, reqQuery);
            p.statusCode == "success" && p.data == data.0 && p.count == data.1 && p.currentPage == url
  {
  }

  /** The last page is the total divided by the limit, rounded up, and the last-page link
      goes to it. */
  lemma PaginateLast<T>(data: (seq<T>, nat), query: PaginationQuery, url: string, reqQuery: Params)
    ensures var limit := LimitOf(query);
            var last := CeilDiv(data.1, limit);
            && (limit > 0 ==> (last - 1) * limit < data.1 <= last * limit)
            && PaginateResource(data, query, url, reqQuery).lastPage == PageUrl(BaseUrl(url), reqQuery, limit, last)
  {
    CeilDivBounds(data.1, LimitOf(query));
  }

  /** There is a next page exactly when the page after this one is not past the last; for a
      positive limit, exactly when items lie beyond this page. The link goes to the next
      page of the same list. */
  lemma PaginateNext<T>(data: (seq<T>, nat), query: PaginationQuery, url: string, reqQuery: Params)
    ensures var next := PaginateResource(data, query, url, reqQuery).nextPage;
            var page := PageOf(query);
            var limit := LimitOf(query);
            && (next.None? <==> page + 1 > CeilDiv(data.1, limit))
            && (limit > 0 ==> (next.Some? <==> page * limit < data.1))
            && (next.Some? ==> next.value == PageUrl(BaseUrl(url), reqQuery, limit, page + 1))
  {
    var limit := LimitOf(query);
    if limit > 0 {
      CeilDivBounds(data.1, limit);
      BeforeLastPage(PageOf(query), limit, data.1, CeilDiv(data.1, limit));
    }
  }

  /** There is a previous page exactly when this is not the first page, and the link goes to
      the page before it. */
  lemma PaginatePrev<T>(data: (seq<T>, nat), query: PaginationQuery, url: string, reqQuery: Params)
    ensures var prev := PaginateResource(data, query, url, reqQuery).prevPage;
            var page := PageOf(query);
            && (prev.None? <==> page < 2)
            && (prev.Some? ==> prev.value == PageUrl(BaseUrl(url), reqQuery, LimitOf(query), page - 1))
  {
  }

  /** With nothing to show, the last page is 0, and from any page that is not negative there
      is no next page. */
  lemma PaginateEmpty<T>(result: seq<T>, query: PaginationQuery, url: string, reqQuery: Params)
    requires PageOf(query) >= 0
    ensures CeilDiv(0, LimitOf(query)) == 0
    ensures PaginateResource((result, 0), query, url, reqQuery).nextPage.None?
  {
  }

  // ----- The list endpoint's call -----

  /** The list endpoint's query (`JobOfferQueryDto`) as far as the links read it: a page and a
      page size, which the DTO declares, and a `limit`, which it does not declare but which
      the transforming validation pipe keeps on the query when the client sends one. */
  datatype ListQuery = ListQuery(page: Option<int>, pageSize: Option<int>, limit: Option<int>)

  /** `paginateResource(data, query, req)` as the list endpoint calls it: the helper reads
      `query.limit`, never the page size the repository used, so the links use the client's
      own `limit`, and the default of 20 when the request sends none. */
  function ListLinksAsWritten<T>(data: (seq<T>, nat), q: ListQuery, url: string, reqQuery: Params)
    : (r: PaginatedResult<T>)
    ensures var limit := OrDefault(q.limit, 20);
            && r.lastPage == PageUrl(BaseUrl(url), reqQuery, limit, CeilDiv(data.1, limit))
            && (limit > 0 ==> (r.nextPage.Some? <==> OrDefault(q.page, 1) * limit < data.1))
    ensures q.limit.None? ==> r.lastPage == PageUrl(BaseUrl(url), reqQuery, 20, CeilDiv(data.1, 20))
  {
    var pq := PaginationQuery(q.page, q.limit);
    PaginateNext(data, pq, url, reqQuery);
    PaginateResource(data, pq, url, reqQuery)
  }

  /** The links as intended: they use the page size the repository used, so there is a next
      page exactly when rows lie beyond this one. */
  function ListLinks<T>(data: (seq<T>, nat), q: ListQuery, url: string, reqQuery: Params)
    : (r: PaginatedResult<T>)
    ensures var size := OrDefault(q.pageSize, 20);
            size > 0 ==> (r.nextPage.Some? <==> OrDefault(q.page, 1) * size < data.1)
  {
    var pq := PaginationQuery(q.page, q.pageSize);
    PaginateNext(data, pq, url, reqQuery);
    PaginateResource(data, pq, url, reqQuery)
  }

  /** Page 1 of 10 rows with page size 5 and no `limit` in the request: as written, the links
      assume 20 rows a page, so the last page is 1 and there is no next page although rows 6
      to 10 are on page 2; as intended, the last page is 2 and there is a next page. */
  lemma ListLinksIgnorePageSize(rows: seq<int>, url: string, reqQuery: Params)
    ensures var d := (rows, 10);
            var q := ListQuery(Some(1), Some(5), None);
            && ListLinksAsWritten(d, q, url, reqQuery).nextPage.None?
            && ListLinksAsWritten(d, q, url, reqQuery).lastPage == PageUrl(BaseUrl(url), reqQuery, 20, 1)
            && ListLinks(d, q, url, reqQuery).nextPage.Some?
            && ListLinks(d, q, url, reqQuery).lastPage == PageUrl(BaseUrl(url), reqQuery, 5, 2)
  {
  }

  /** The same request with `limit=5` as well: the client's limit reaches the helper, so the
      links as written agree with the intended ones. */
  lemma ListLinksClientLimit(rows: seq<int>, url: string, reqQuery: Params)
    ensures var d := (rows, 10);
            var q := ListQuery(Some(1), Some(5), Some(5));
            && ListLinksAsWritten(d, q, url, reqQuery).nextPage.Some?
            && ListLinksAsWritten(d, q, url, reqQuery).lastPage == PageUrl(BaseUrl(url), reqQuery, 5, 2)
            && ListLinksAsWritten(d, q, url, reqQuery) == ListLinks(d, q, url, reqQuery)
  {
  }
}
