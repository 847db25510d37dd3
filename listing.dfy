/**
 * What the listing handlers share: reading `offset` and `limit` from the
 * query string, the optional `status` and appointment-time filters, running
 * findAndCountAll on the request table, and the `forEach` that pushes the
 * rows into the response.
 */
module Listing {
  import opened Wrappers
  import opened Js
  import opened Primitives
  import opened Http
  import opened Query
  import Rq = Requests

  /** The `offset` and `limit` a listing sends to findAndCountAll and echoes back. */
  datatype Page = Page(offset: Num, limit: Num)

  const DefaultPage: Page := Page(Finite(0), Finite(5))

  /**
   * The offset is parseInt of a non-empty `offset`, 0 otherwise; the limit
   * is parseInt of a non-empty `limit` when that is below 30, 5 otherwise.
   */
  function PageOf(q: QueryString): Page {
    Page(
      if NonEmpty(q, "offset") then ParseInt(q["offset"]) else Finite(0),
      if "limit" in q && LessThan(ParseInt(q["limit"]), 30) && |q["limit"]| > 0 then ParseInt(q["limit"]) else Finite(5))
  }

  /** The `result.offset`/`result.limit` assignments of a listing handler. */
  method ReadPage(q: QueryString) returns (p: Page)
    ensures p == PageOf(q)
  {
    p := DefaultPage;
    if NonEmpty(q, "offset") {
      p := p.(offset := ParseInt(q["offset"]));
    }
    if "limit" in q && LessThan(ParseInt(q["limit"]), 30) && |q["limit"]| > 0 {
      p := p.(limit := ParseInt(q["limit"]));
    }
  }

  /**
   * The limit is 5 or a number below 30, taken from the query only when
   * that is non-empty and parses below 30; without an `offset` the offset
   * is 0. A page with a positive limit holds at most that many rows, so
   * never more than 29.
   */
  lemma {:induction false} PageRules<R>(q: QueryString, rows: seq<R>)
    ensures var p := PageOf(q);
      && (p.limit == Finite(5) || (p.limit.Finite? && p.limit.n < 30))
      && (p.limit != Finite(5) ==> NonEmpty(q, "limit") && p.limit == ParseInt(q["limit"]))
      && (!NonEmpty(q, "offset") ==> p.offset == Finite(0))
      && (p.limit.Finite? && p.limit.n > 0 ==> |Window(rows, p.offset, p.limit)| <= p.limit.n < 30)
  {
  }

  /**
   * A limit that parses to zero or below passes the `< 30` test but sends
   * no usable LIMIT: the page is every row from the offset on.
   */
  lemma NonPositiveLimitListsEverything<R>(q: QueryString, rows: seq<R>)
    requires "limit" in q && ParseInt(q["limit"]).Finite? && ParseInt(q["limit"]).n <= 0
    requires !NonEmpty(q, "offset")
    ensures Window(rows, PageOf(q).offset, PageOf(q).limit) == rows
  {
  }

  /** `where.status = query.status` whenever the key is present. */
  function WithStatus(w: Where, q: QueryString): Where {
    if "status" in q then w["status" := Eq(Str(q["status"]))] else w
  }

  /**
   * The appointment-time filter, built only when `after` or `before` is
   * non-empty; each bound is set when its key is present, even empty.
   */
  function TimeFilter(host: Host, q: QueryString): Option<Filter> {
    if NonEmpty(q, "after") || NonEmpty(q, "before") then
      Some(Range(
        if "after" in q then Some(host.parseDate(q["after"])) else None,
        if "before" in q then Some(host.parseDate(q["before"])) else None))
    else None
  }

  function WithTime(host: Host, w: Where, q: QueryString): Where {
    match TimeFilter(host, q)
    case None => w
    case Some(f) => w["appointmentTime" := f]
  }

  /** The optional filters leave every other condition of the `where` as it was. */
  lemma FiltersKeep(host: Host, w: Where, q: QueryString, k: string)
    requires k in w && k != "status" && k != "appointmentTime"
    ensures k in WithTime(host, WithStatus(w, q), q) && WithTime(host, WithStatus(w, q), q)[k] == w[k]
  {
    var w1 := WithStatus(w, q);
    assert k in w1 && w1[k] == w[k];
  }

  /** The two optional filters every request listing adds, as its handler adds them. */
  method AddOptionalFilters(host: Host, w: Where, q: QueryString) returns (r: Where)
    ensures r == WithTime(host, WithStatus(w, q), q)
  {
    r := w;
    if "status" in q {
      r := r["status" := Eq(Str(q["status"]))];
    }
    if NonEmpty(q, "after") || NonEmpty(q, "before") {
      var gte := if "after" in q then Some(host.parseDate(q["after"])) else None;
      var lte := if "before" in q then Some(host.parseDate(q["before"])) else None;
      r := r["appointmentTime" := Range(gte, lte)];
    }
  }

  /**
   * What the optional filters guarantee of every row they let through: the
   * requested status, and an appointment time within each bound that was set.
   */
  lemma OptionalFiltersHold(host: Host, w: Where, q: QueryString, x: Rq.Request)
    requires Matches(Rq.ToJson(x), WithTime(host, WithStatus(w, q), q))
    ensures "status" in q ==> x.status == q["status"]
    ensures NonEmpty(q, "after") || NonEmpty(q, "before") ==>
      && ("after" in q ==> AtLeast(x.appointmentTime, Some(host.parseDate(q["after"]))))
      && ("before" in q ==> AtMost(x.appointmentTime, Some(host.parseDate(q["before"]))))
  {
    var cols := Rq.ToJson(x);
    var w2 := WithTime(host, WithStatus(w, q), q);
    if "status" in q {
      assert w2["status"] == Eq(Str(q["status"]));
    }
    if NonEmpty(q, "after") || NonEmpty(q, "before") {
      assert "appointmentTime" in w2;
      assert Satisfies(cols["appointmentTime"], w2["appointmentTime"]);
    }
  }

  /** findAndCountAll on the request table. */
  function RunRequests(rows: seq<Rq.Request>, w: Where, p: Page): Option<Counted<Rq.Request>> {
    FindAndCountAll(rows, Rq.ToJson, Rq.Schema, w, p.offset, p.limit)
  }

  /** Every row a request query returns meets its `where`. */
  lemma RunRequestsMatches(rows: seq<Rq.Request>, w: Where, p: Page, x: Rq.Request)
    requires RunRequests(rows, w, p).Some? && x in RunRequests(rows, w, p).value.rows
    ensures x in rows && Matches(Rq.ToJson(x), w)
  {
    var found := Select(rows, Rq.ToJson, w);
    var k := Skip(p.offset, |found|);
    var page := Window(found, p.offset, p.limit);
    var i :| 0 <= i < |page| && page[i] == x;
    assert page[i] == found[k + i];
  }

  /**
   * A row a listing returns meets each equality the handler put in its
   * `where` before the optional filters, and the optional filters too.
   */
  lemma ListedRowMeets(host: Host, w: Where, q: QueryString, rows: seq<Rq.Request>, p: Page,
                       x: Rq.Request, k: string, v: Value)
    requires k in w && k != "status" && k != "appointmentTime" && w[k] == Eq(v)
    requires RunRequests(rows, WithTime(host, WithStatus(w, q), q), p).Some?
    requires x in RunRequests(rows, WithTime(host, WithStatus(w, q), q), p).value.rows
    ensures x in rows && SqlEq(Rq.ToJson(x)[k], v)
    ensures "status" in q ==> x.status == q["status"]
    ensures NonEmpty(q, "after") || NonEmpty(q, "before") ==>
      && ("after" in q ==> AtLeast(x.appointmentTime, Some(host.parseDate(q["after"]))))
      && ("before" in q ==> AtMost(x.appointmentTime, Some(host.parseDate(q["before"]))))
  {
    RunRequestsMatches(rows, WithTime(host, WithStatus(w, q), q), p, x);
    FiltersKeep(host, w, q, k);
    OptionalFiltersHold(host, w, q, x);
  }

  /** The JSON of each request row, in order. */
  function RequestsJson(rows: seq<Rq.Request>): (r: seq<Json>)
    ensures |r| == |rows|
    ensures forall i :: 0 <= i < |rows| ==> r[i] == Rq.ToJson(rows[i])
  {
    seq(|rows|, i requires 0 <= i < |rows| => Rq.ToJson(rows[i]))
  }

  /** `rows.forEach(request => result.requests.push(request))`. */
  method PushRequests(rows: seq<Rq.Request>) returns (items: seq<Json>)
    ensures items == RequestsJson(rows)
  {
    ghost var all := RequestsJson(rows);
    items := [];
    for i := 0 to |rows|
      invariant items == all[..i]
    {
      assert all[..i + 1] == all[..i] + [Rq.ToJson(rows[i])];
      items := items + [Rq.ToJson(rows[i])];
    }
    assert all[..|rows|] == all;
  }

  /**
   * The response of a request listing: 500 when the handler threw or the
   * query failed, otherwise 200 with the page, the total count and the rows.
   */
  function ListingResponse(p: Page, found: Option<Counted<Rq.Request>>): Response {
    match found
    case None => Response(500, None, Empty)
    case Some(c) => Response(200, None, Listing(p.offset, p.limit, c.count, "requests", RequestsJson(c.rows)))
  }

  /** Run a listing's query and answer, pushing the rows one by one. */
  method RespondWithRequests(rows: seq<Rq.Request>, w: Where, p: Page) returns (resp: Response)
    ensures resp == ListingResponse(p, RunRequests(rows, w, p))
  {
    var found := RunRequests(rows, w, p);
    if found.None? {
      return Response(500, None, Empty);
    }
    var items := PushRequests(found.value.rows);
    resp := Response(200, None, Listing(p.offset, p.limit, found.value.count, "requests", items));
  }
}
