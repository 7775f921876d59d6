/**
 * The handlers of app/api/buyers/route.ts: `POST` validates a JSON body and
 * builds the stored record; `GET` reads a page of the filtered list ordered
 * newest first.
 */
module BuyersRoute {
  import opened Wrappers
  import opened Text
  import opened JsValues
  import opened Validation
  import opened Tables
  import opened Store

  // ------------------------------------------------------------------ POST

  /** The outcome of `POST`. */
  datatype PostResult =
    | Created(row: BuyerRow)                          // 201, `{ success: true, buyer }`
    | Invalid(fieldErrors: map<Key, seq<Message>>)    // 400, `{ success: false, errors }`
    | ServerError                                      // 500, "Internal server error"

  function PostStatus(r: PostResult): nat {
    match r
    case Created(_) => 201
    case Invalid(_) => 400
    case ServerError => 500
  }

  /**
   * `POST`: `body` is the parsed JSON object (`None` when the body is not
   * JSON, which throws); `createFails` says whether `prisma.buyer.create`
   * throws. A schema failure answers 400 with the flattened field errors and
   * writes nothing.
   */
  function Post(body: Option<Raw>, createFails: bool): (r: PostResult)
    ensures body.None? ==> r.ServerError?
    ensures body.Some? ==> (r.Invalid? <==> !Accepted(BuyerSchema, FromObject(body.value)))
    ensures body.Some? && r.Invalid? ==> r.fieldErrors == FieldErrors(Issues(BuyerSchema, FromObject(body.value)))
    ensures r.Created? <==> body.Some? && Accepted(BuyerSchema, FromObject(body.value)) && !createFails
    ensures r.Created? ==> r.row == PostRecord(Parsed(BuyerSchema, FromObject(body.value))).value
  {
    match body
    case None => ServerError
    case Some(b) =>
      match Validate(BuyerSchema, FromObject(b))
      case Failure(issues) => Invalid(FieldErrors(issues))
      case Success(lead) =>
        SpelledLeadsMap(lead);
        match PostRecord(lead)
        case None => ServerError
        case Some(row) => if createFails then ServerError else Created(row)
  }

  /** A rejected body always names at least one field. */
  lemma InvalidNamesAField(body: Raw, createFails: bool)
    requires Post(Some(body), createFails).Invalid?
    ensures |Post(Some(body), createFails).fieldErrors| > 0
  {
    var issues := Issues(BuyerSchema, FromObject(body));
    assert issues[0].path in Paths(issues);
  }

  /**
   * The stored record of a created buyer: absent email, budgets and notes
   * are null, the BHK and source go through their tables, the tags default
   * to `[]`, and the owner is the fixed one.
   */
  lemma CreatedRecord(body: Raw)
    requires Post(Some(body), false).Created?
    ensures var row := Post(Some(body), false).row;
      && row.email == OptStr(Get(body, "email"))
      && row.notes == OptStr(Get(body, "notes"))
      && (row.budgetMin.None? <==> Get(body, "budgetMin").Undefined?)
      && (row.budgetMax.None? <==> Get(body, "budgetMax").Undefined?)
      && row.bhk == StoredBhk(OptStr(Get(body, "bhk")))
      && row.source == SourceMap[Get(body, "source").s]
      && row.tags == (if Get(body, "tags").List? then TrimmedItems(Get(body, "tags").items) else [])
      && row.status == (if Get(body, "status").Undefined? then "New" else Get(body, "status").s)
      && row.ownerId == OwnerId
  {
  }

  /**
   * The rest of a created buyer's stored record: the trimmed name, the
   * phone, city, property type and purpose as sent, the timeline through its
   * table, and the budgets as the whole numbers sent.
   */
  lemma CreatedRecordCopies(body: Raw)
    requires Post(Some(body), false).Created?
    ensures var row := Post(Some(body), false).row;
      && row.fullName == Trim(Get(body, "fullName").s)
      && row.phone == Get(body, "phone").s
      && row.city == Get(body, "city").s
      && row.propertyType == Get(body, "propertyType").s
      && row.purpose == Get(body, "purpose").s
      && row.timeline == TimelineMap[Get(body, "timeline").s]
      && (row.budgetMin.Some? ==> row.budgetMin.value as real == Get(body, "budgetMin").r)
      && (row.budgetMax.Some? ==> row.budgetMax.value as real == Get(body, "budgetMax").r)
  {
  }

  // ------------------------------------------------------------------- GET

  /**
   * `Math.max(parseInt(param || "1", 10), 1)`: a missing or empty parameter
   * is page 1, every number is raised to at least 1, and a parameter with no
   * leading digits gives `NaN` (`None`), which `Math.max` does not clamp.
   */
  function RequestedPage(param: Option<string>): (page: Option<int>)
    ensures page.Some? ==> page.value >= 1
    ensures param.None? || param == Some("") ==> page == Some(1)
  {
    var text := if param.None? || param.value == "" then "1" else param.value;
    assert text != "1" ==> param.Some?;
    assert ParseInt("1", false) == Some(1) by { ParseIntDecimal(1, false); assert DecimalString(1) == "1"; }
    match ParseInt(text, false)
    case None => None
    case Some(n) => Some(if n >= 1 then n else 1)
  }

  /** A page number spelled in decimal is that page, raised to 1. */
  lemma RequestedPageDecimal(n: nat)
    ensures RequestedPage(Some(DecimalString(n))) == Some(if n >= 1 then n else 1)
  {
    ParseIntDecimal(n, false);
    assert |DecimalString(n)| >= 1;
  }

  /** A parameter whose first non-space character is neither a digit nor a sign is page `NaN`. */
  lemma RequestedPageNaN(param: string)
    requires param != ""
    requires var t := TrimStart(param); |t| == 0 || (!IsDigit(t[0]) && t[0] != '-' && t[0] != '+')
    ensures RequestedPage(Some(param)) == None
  {
    ParseIntNoDigits(param, false);
  }

  /** The query parameters the list filters on. */
  const FilterFields: seq<string> := ["city", "propertyType", "status", "timeline"]

  /** `if (value) where[field] = value`. */
  function AddFilter(where: Where, params: map<string, string>, field: string): Where {
    if field in params && params[field] != "" then where[field := params[field]] else where
  }

  /** The filter the list builds, one parameter after the other. */
  function WhereOf(params: map<string, string>): Where {
    AddFilter(AddFilter(AddFilter(AddFilter(map[], params, "city"), params, "propertyType"), params, "status"), params, "timeline")
  }

  /** The filter holds exactly the four parameters that are present and non-empty, with their values. */
  lemma WhereOfMeans(params: map<string, string>)
    ensures forall f :: f in WhereOf(params) <==> f in FilterFields && f in params && params[f] != ""
    ensures forall f :: f in WhereOf(params) ==> WhereOf(params)[f] == params[f]
  {
    assert forall f :: f in FilterFields <==> f == "city" || f == "propertyType" || f == "status" || f == "timeline";
  }

  /** The `where` object, filled field by field as the handler does. */
  method BuildWhere(params: map<string, string>) returns (where: Where)
    ensures where == WhereOf(params)
  {
    where := map[];
    if "city" in params && params["city"] != "" {
      where := where["city" := params["city"]];
    }
    if "propertyType" in params && params["propertyType"] != "" {
      where := where["propertyType" := params["propertyType"]];
    }
    if "status" in params && params["status"] != "" {
      where := where["status" := params["status"]];
    }
    if "timeline" in params && params["timeline"] != "" {
      where := where["timeline" := params["timeline"]];
    }
  }

  /** `Math.ceil(a / b)` for naturals. */
  function CeilDiv(a: nat, b: nat): (q: nat)
    requires b > 0
    ensures q * b >= a
    ensures q == 0 || (q - 1) * b < a
  {
    (a + b - 1) / b
  }

  /** `Math.min(10, Math.max(Math.ceil(total / 10), 1))`. */
  function TotalPages(total: nat): (pages: nat)
    ensures 1 <= pages <= 10
    ensures total == 0 ==> pages == 1
    ensures total > 100 ==> pages == 10
    ensures total <= 100 ==> pages * 10 >= total
    ensures 0 < total <= 100 ==> (pages - 1) * 10 < total
  {
    var c := CeilDiv(total, 10);
    var atLeastOne := if c >= 1 then c else 1;
    if atLeastOne <= 10 then atLeastOne else 10
  }

  /** `Math.ceil(total / totalPages) || 1`: rows per page. */
  function Limit(total: nat, totalPages: nat): (limit: nat)
    requires totalPages >= 1
    ensures limit >= 1
    ensures total == 0 ==> limit == 1
    ensures limit * totalPages >= total
    ensures total > 0 ==> (limit - 1) * totalPages < total
  {
    var c := CeilDiv(total, totalPages);
    if c == 0 then 1 else c
  }

  /** Up to ten matches: a single page holding them all. */
  lemma SmallTotalExamples()
    ensures TotalPages(7) == 1 && Limit(7, 1) == 7
    ensures TotalPages(10) == 1 && Limit(10, 1) == 10
  {
  }

  /** Past ten matches the rows spread over at most ten pages. */
  lemma LargeTotalExamples()
    ensures TotalPages(95) == 10 && Limit(95, 10) == 10
    ensures TotalPages(1000) == 10 && Limit(1000, 10) == 100
  {
  }

  /** `(page - 1) * limit`. */
  function Skip(page: int, limit: nat): nat
    requires page >= 1
  {
    (page - 1) * limit
  }

  lemma MulMonotone(a: nat, b: nat, c: nat)
    requires a <= b
    ensures a * c <= b * c
  {
  }

  /** Record `i` lies in window `i / limit`. */
  lemma WindowOf(i: nat, limit: nat)
    requires limit >= 1
    ensures (i / limit) * limit <= i < (i / limit) * limit + limit
  {
    assert i == (i / limit) * limit + i % limit;
  }

  /** With `pages` windows of `limit` covering `total` records, record `i` lies in a window in range. */
  lemma WindowInRange(i: nat, total: nat, pages: nat, limit: nat)
    requires limit >= 1 && i < total <= limit * pages
    ensures i / limit < pages
  {
    WindowOf(i, limit);
    if i / limit >= pages {
      MulMonotone(pages, i / limit, limit);
      assert false;
    }
  }

  /**
   * Pages `1 .. totalPages` reach every matching record: record `i` of
   * `total` lies on a page in range, inside that page's window.
   */
  lemma PagesReachEveryRecord(total: nat, i: nat)
    requires i < total
    ensures var pages := TotalPages(total);
      var limit := Limit(total, pages);
      var page := i / limit + 1;
      && 1 <= page <= pages
      && Skip(page, limit) <= i < Skip(page, limit) + limit
  {
    var pages := TotalPages(total);
    var limit := Limit(total, pages);
    WindowInRange(i, total, pages, limit);
    PageOf(i, limit);
  }

  /** Record `i` lies inside the window of page `i / limit + 1`. */
  lemma PageOf(i: nat, limit: nat)
    requires limit >= 1
    ensures Skip(i / limit + 1, limit) <= i < Skip(i / limit + 1, limit) + limit
  {
    var q := i / limit;
    WindowOf(i, limit);
    calc {
      Skip(q + 1, limit);
      (q + 1 - 1) * limit;
      { assert q + 1 - 1 == q; }
      q * limit;
    }
  }

  /** A page past the last one comes back empty rather than failing. */
  lemma PageBeyondRangeIsEmpty(table: seq<Buyer>, where: Where, page: int)
    requires page > TotalPages(Count(table, where))
    ensures var total := Count(table, where);
      var limit := Limit(total, TotalPages(total));
      FindMany(table, where, Skip(page, limit), limit) == []
  {
    var total := Count(table, where);
    var pages := TotalPages(total);
    var limit := Limit(total, pages);
    MulMonotone(pages, page - 1, limit);
    assert limit * pages == pages * limit;
    assert Skip(page, limit) >= total;
    FindManyMeans(table, where, Skip(page, limit), limit);
  }

  /** The answer of `GET`. */
  datatype ListResult =
    | Listed(buyers: seq<Buyer>, total: nat, totalPages: nat, page: nat, limit: nat)
    | ListFailed   // 500, "Internal server error"

  /**
   * `GET`. The count and the page are two separate reads, so they take the
   * table as it is at each (`atCount`, `atFind`). `countFails` and
   * `findFails` say whether `count` and `findMany` throw; a failing count is
   * swallowed and leaves `total` at 0. A `NaN` page makes `skip` `NaN`,
   * which `findMany` does not accept; the model lets that read fail.
   */
  method List(params: map<string, string>, atCount: seq<Buyer>, atFind: seq<Buyer>, countFails: bool, findFails: bool)
    returns (r: ListResult)
    ensures var page := RequestedPage(if "page" in params then Some(params["page"]) else None);
      && (r.Listed? <==> page.Some? && !findFails)
      && (r.Listed? ==>
        && r.page == page.value
        && r.total == (if countFails then 0 else Count(atCount, WhereOf(params)))
        && r.totalPages == TotalPages(r.total)
        && r.limit == Limit(r.total, r.totalPages)
        && r.buyers == FindMany(atFind, WhereOf(params), Skip(r.page, r.limit), r.limit))
  {
    var page := RequestedPage(if "page" in params then Some(params["page"]) else None);
    var where := BuildWhere(params);
    var total := 0;
    if !countFails {
      total := Count(atCount, where);
    }
    var totalPages := TotalPages(total);
    var limit := Limit(total, totalPages);
    if page.None? || findFails {
      return ListFailed;
    }
    var skip := Skip(page.value, limit);
    r := Listed(FindMany(atFind, where, skip, limit), total, totalPages, page.value, limit);
  }

  /** What a listed page holds: at most `limit` records, all matching every filter, newest first. */
  lemma ListedPage(params: map<string, string>, total: nat, page: int, atFind: seq<Buyer>)
    requires page >= 1
    ensures var limit := Limit(total, TotalPages(total));
      var buyers := FindMany(atFind, WhereOf(params), Skip(page, limit), limit);
      && |buyers| <= limit
      && NewestFirst(buyers)
      && forall i :: 0 <= i < |buyers| ==> Matches(buyers[i], WhereOf(params))
  {
    var limit := Limit(total, TotalPages(total));
    FindManyMeans(atFind, WhereOf(params), Skip(page, limit), limit);
  }

  /**
   * Reading pages `1 .. totalPages` one after another lists every matching
   * record exactly once, newest first.
   */
  lemma AllPagesListEverything(table: seq<Buyer>, where: Where)
    ensures var total := Count(table, where);
      var pages := TotalPages(total);
      var sorted := SortNewest(Matching(table, where));
      Pages(sorted, Limit(total, pages), pages) == sorted
  {
    var total := Count(table, where);
    var pages := TotalPages(total);
    var limit := Limit(total, pages);
    var sorted := SortNewest(Matching(table, where));
    PagesCover(sorted, limit, pages);
    assert pages * limit >= |sorted|;
    assert sorted[..Min(pages * limit, |sorted|)] == sorted;
  }

  /** When the count fails the list claims one page of one record. */
  lemma FailedCountShowsOneRecord()
    ensures TotalPages(0) == 1 && Limit(0, 1) == 1
  {
  }
}
