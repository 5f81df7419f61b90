/**
 * The candidate listing page: the active-filter counter, `clearFilters`, the query string it sends, and
 * the pagination controls (previous/next enabling and the page-number window), and how a listing response
 * is read.
 */
module CandidatesPage {
  import opened Common
  import opened Strings
  import JobsPage
  import ApiUtils

  /** The filter controls of the candidate listing. */
  datatype CandidateFilters = CandidateFilters(
    searchQuery: string, location: string, skill: string, experience: string, education: string,
    salaryRange: (int, int), availableOnly: bool, verifiedOnly: bool, premiumOnly: bool)

  const ClearedFilters := CandidateFilters("", "all", "all", "all", "all", (1000, 10000), false, false, false)

  /** `activeFiltersCount`: the truthy items among the eight controls, plus one for a moved salary range. */
  function ActiveFiltersCount(f: CandidateFilters): (r: nat)
    ensures r <= 9
    ensures r == 0 <==> f == ClearedFilters
  {
    var flags := [f.searchQuery != "", f.location != "all", f.skill != "all", f.experience != "all",
                  f.education != "all", f.availableOnly, f.verifiedOnly, f.premiumOnly];
    assert CountTrue(flags) == 0 ==> !flags[0] && !flags[1] && !flags[2] && !flags[3] && !flags[4] && !flags[5]
                                     && !flags[6] && !flags[7];
    CountTrue(flags) + (if f.salaryRange != (1000, 10000) then 1 else 0)
  }

  /** A select control's value as sent: "all" becomes the empty string. */
  function Selection(v: string): (r: string)
    ensures r == "" <==> v == "all" || v == ""
    ensures v != "all" ==> r == v
  {
    if v != "all" then v else ""
  }

  function BoolText(b: bool): string { if b then "true" else "false" }

  /** The `URLSearchParams` of `fetchCandidates(page)`, in order. */
  function QueryParams(page: int, limit: int, f: CandidateFilters, sortBy: string): (r: seq<(string, string)>)
    ensures |r| == 13
    ensures r[0] == ("page", IntToString(page)) && r[1] == ("limit", IntToString(limit)) && r[2] == ("q", f.searchQuery)
    ensures r[3].0 == "location" && r[4].0 == "skill" && r[5].0 == "experience" && r[6].0 == "education"
    ensures r[3].1 == "" <==> f.location == "all" || f.location == ""
    ensures r[4].1 == "" <==> f.skill == "all" || f.skill == ""
    ensures r[5].1 == "" <==> f.experience == "all" || f.experience == ""
    ensures r[6].1 == "" <==> f.education == "all" || f.education == ""
    ensures r[12] == ("sort_by", sortBy)
  {
    [("page", IntToString(page)), ("limit", IntToString(limit)), ("q", f.searchQuery),
     ("location", Selection(f.location)), ("skill", Selection(f.skill)),
     ("experience", Selection(f.experience)), ("education", Selection(f.education)),
     ("salary_min", IntToString(f.salaryRange.0)), ("salary_max", IntToString(f.salaryRange.1)),
     ("available", BoolText(f.availableOnly)), ("verified", BoolText(f.verifiedOnly)),
     ("premium", BoolText(f.premiumOnly)), ("sort_by", sortBy)]
  }

  /** After `clearFilters` every select is sent empty and no search text is sent. */
  lemma ClearedSendsNoFilter(page: int, limit: int, sortBy: string)
    ensures var r := QueryParams(page, limit, ClearedFilters, sortBy);
      r[2].1 == "" && r[3].1 == "" && r[4].1 == "" && r[5].1 == "" && r[6].1 == ""
  {
    var r := QueryParams(page, limit, ClearedFilters, sortBy);
    assert r[3].1 == "" && r[4].1 == "" && r[5].1 == "" && r[6].1 == "";
  }

  /** The `pagination` object of a listing response. */
  datatype PageInfo = PageInfo(page: int, limit: int, total: int, totalPages: int, hasNext: bool, hasPrev: bool)

  /** A parsed JSON value, as far as the page reads one. */
  datatype Json = Null | Bool(b: bool) | Num(n: int) | Str(s: string) | Arr(items: seq<Json>) | Obj(fields: map<string, Json>)

  /** The property read `v.key`: `None` is JavaScript's `undefined`, which a key the object lacks yields. */
  function Get(v: Json, key: string): (r: Option<Json>)
    ensures r.Some? <==> v.Obj? && key in v.fields
    ensures r.Some? ==> r.value == v.fields[key]
  {
    if v.Obj? && key in v.fields then Some(v.fields[key]) else None
  }

  /** The JSON text of an API envelope, as `createApiResponse` and `createErrorResponse` write it. */
  function BodyJson(b: ApiUtils.Body<Json>): (r: Json)
    ensures r.Obj? && "success" in r.fields && "timestamp" in r.fields
    ensures r.fields["success"] == Bool(b.Success?)
    ensures b.Success? ==> r.fields.Keys == {"success", "data", "timestamp"} && r.fields["data"] == b.data
    ensures b.Failure? ==> r.fields.Keys == {"success", "error", "timestamp"}
  {
    match b
    case Success(data, timestamp) =>
      Obj(map["success" := Bool(true), "data" := data, "timestamp" := Str(timestamp)])
    case Failure(message, details, timestamp) =>
      var error := if details.Some? then map["message" := Str(message), "details" := Str(details.value)]
                   else map["message" := Str(message)];
      Obj(map["success" := Bool(false), "error" := Obj(error), "timestamp" := Str(timestamp)])
  }

  /** The `pagination` object as the listing route writes it. */
  function PageInfoJson(p: PageInfo): Json {
    Obj(map["page" := Num(p.page), "limit" := Num(p.limit), "total" := Num(p.total),
            "totalPages" := Num(p.totalPages), "hasNext" := Bool(p.hasNext), "hasPrev" := Bool(p.hasPrev)])
  }

  /** What the listing route puts under the envelope's `data`: the cards and the pagination. */
  function ListingJson(cards: seq<Json>, p: PageInfo): Json {
    Obj(map["candidates" := Arr(cards), "pagination" := PageInfoJson(p)])
  }

  predicate IsNum(v: Option<Json>) { v.Some? && v.value.Num? }
  predicate IsBool(v: Option<Json>) { v.Some? && v.value.Bool? }

  /** A `pagination` value as the page keeps it; `None` when it is undefined or not such an object. */
  function PageInfoOf(v: Option<Json>): (r: Option<PageInfo>)
    ensures r.Some? ==> v.Some? && v.value.Obj?
  {
    if v.None? then None
    else
      var page, limit, total, totalPages := Get(v.value, "page"), Get(v.value, "limit"), Get(v.value, "total"),
                                            Get(v.value, "totalPages");
      var hasNext, hasPrev := Get(v.value, "hasNext"), Get(v.value, "hasPrev");
      if IsNum(page) && IsNum(limit) && IsNum(total) && IsNum(totalPages) && IsBool(hasNext) && IsBool(hasPrev) then
        Some(PageInfo(page.value.n, limit.value.n, total.value.n, totalPages.value.n, hasNext.value.b, hasPrev.value.b))
      else None
  }

  /** A `candidates` value as the page keeps it; `None` when it is undefined or not an array. */
  function ArrayOf(v: Option<Json>): (r: Option<seq<Json>>)
    ensures r.Some? <==> v.Some? && v.value.Arr?
  {
    if v.Some? && v.value.Arr? then Some(v.value.items) else None
  }

  /** `data.candidates` and `data.pagination` read off an object. */
  function ListingOf(v: Json): (Option<seq<Json>>, Option<PageInfo>) {
    (ArrayOf(Get(v, "candidates")), PageInfoOf(Get(v, "pagination")))
  }

  /** The pagination object reads back as what the route wrote. */
  lemma PageInfoRoundTrip(p: PageInfo)
    ensures PageInfoOf(Some(PageInfoJson(p))) == Some(p)
  {
    var v := PageInfoJson(p);
    assert Get(v, "page") == Some(Num(p.page)) && Get(v, "limit") == Some(Num(p.limit));
    assert Get(v, "total") == Some(Num(p.total)) && Get(v, "totalPages") == Some(Num(p.totalPages));
    assert Get(v, "hasNext") == Some(Bool(p.hasNext)) && Get(v, "hasPrev") == Some(Bool(p.hasPrev));
  }

  /** Read directly off the parsed body, as `fetchCandidates` does, the listing is lost: the envelope has
      neither `candidates` nor `pagination`, so both become undefined. */
  lemma EnvelopeHidesListing(cards: seq<Json>, p: PageInfo, timestamp: string)
    ensures ListingOf(BodyJson(ApiUtils.Success(ListingJson(cards, p), timestamp))) == (None, None)
  {
    var body := BodyJson(ApiUtils.Success(ListingJson(cards, p), timestamp));
    assert "candidates" !in body.fields && "pagination" !in body.fields;
  }

  /** The listing read through the envelope's `data`, as the route nests it. */
  function ReadListing(body: Json): (r: (Option<seq<Json>>, Option<PageInfo>))
    ensures Get(body, "data").None? ==> r == (None, None)
  {
    match Get(body, "data")
    case None => (None, None)
    case Some(data) => ListingOf(data)
  }

  /** Read through `data`, the route's cards and pagination arrive unchanged. */
  lemma ListingRoundTrip(cards: seq<Json>, p: PageInfo, timestamp: string)
    ensures ReadListing(BodyJson(ApiUtils.Success(ListingJson(cards, p), timestamp))) == (Some(cards), Some(p))
  {
    var listing := ListingJson(cards, p);
    assert Get(listing, "candidates") == Some(Arr(cards));
    assert Get(listing, "pagination") == Some(PageInfoJson(p));
    PageInfoRoundTrip(p);
  }

  /** The state of the candidate listing that its handlers change; `None` is an undefined value. */
  class CandidatesPageState {
    var filters: CandidateFilters
    var sortBy: string
    var candidates: Option<seq<Json>>
    var pagination: Option<PageInfo>
    var currentPage: int
    var loading: bool

    constructor ()
      ensures filters == ClearedFilters && sortBy == "relevance" && currentPage == 1 && loading
      ensures candidates == Some([]) && pagination == Some(PageInfo(1, 20, 0, 0, false, false))
      ensures Renders()
    {
      filters := ClearedFilters;
      sortBy := "relevance";
      candidates := Some([]);
      pagination := Some(PageInfo(1, 20, 0, 0, false, false));
      currentPage := 1;
      loading := true;
    }

    function ActiveFilters(): nat
      reads this
    {
      ActiveFiltersCount(filters)
    }

    /** Once loading ends the page reads `pagination.total` and `candidates.length`, which throw on an
        undefined value; while loading it shows placeholders. */
    predicate Renders()
      reads this
    {
      loading || (candidates.Some? && pagination.Some?)
    }

    /** `clearFilters`: every counted control back to its default; the sort order is kept. */
    method ClearFilters()
      modifies this
      ensures filters == ClearedFilters
      ensures sortBy == old(sortBy) && candidates == old(candidates) && pagination == old(pagination)
      ensures currentPage == old(currentPage) && loading == old(loading)
      ensures ActiveFilters() == 0
    {
      filters := ClearedFilters;
    }

    /** The "previous" button is enabled only when the server reported a previous page and no fetch runs. */
    predicate PrevEnabled()
      reads this
    {
      pagination.Some? && pagination.value.hasPrev && !loading
    }

    predicate NextEnabled()
      reads this
    {
      pagination.Some? && pagination.value.hasNext && !loading
    }

    /** The page numbers shown. */
    function Window(): (w: seq<int>)
      reads this
      requires pagination.Some?
      ensures forall i | 0 <= i < |w| :: 1 <= w[i] <= pagination.value.totalPages
      ensures 1 <= currentPage <= pagination.value.totalPages ==> currentPage in w
    {
      JobsPage.PageWindow(pagination.value.totalPages, currentPage)
    }

    /** The start of `fetchCandidates(page)`: loading, so both buttons are disabled. */
    method BeginFetch()
      modifies this
      ensures loading
      ensures filters == old(filters) && sortBy == old(sortBy) && candidates == old(candidates)
      ensures pagination == old(pagination) && currentPage == old(currentPage)
      ensures !PrevEnabled() && !NextEnabled() && Renders()
    {
      loading := true;
    }

    /** The end of `fetchCandidates(page)` as written: the listing is read off the top of the parsed body
        (`None` when the response was not ok or did not parse, and the state stays); loading ends
        either way. */
    method FinishFetchAsWritten(page: int, body: Option<Json>)
      modifies this
      ensures !loading
      ensures body.Some? ==> (candidates, pagination) == ListingOf(body.value) && currentPage == page
      ensures body.None? ==>
        candidates == old(candidates) && pagination == old(pagination) && currentPage == old(currentPage)
      ensures filters == old(filters) && sortBy == old(sortBy)
    {
      if body.Some? {
        candidates, pagination := ListingOf(body.value).0, ListingOf(body.value).1;
        currentPage := page;
      }
      loading := false;
    }

    /** The end of `fetchCandidates(page)` reading the listing under the envelope's `data`. */
    method FinishFetch(page: int, body: Option<Json>)
      modifies this
      ensures !loading
      ensures body.Some? ==> (candidates, pagination) == ReadListing(body.value) && currentPage == page
      ensures body.None? ==>
        candidates == old(candidates) && pagination == old(pagination) && currentPage == old(currentPage)
      ensures filters == old(filters) && sortBy == old(sortBy)
      ensures PrevEnabled() <==> pagination.Some? && pagination.value.hasPrev
      ensures NextEnabled() <==> pagination.Some? && pagination.value.hasNext
    {
      if body.Some? {
        candidates, pagination := ReadListing(body.value).0, ReadListing(body.value).1;
        currentPage := page;
      }
      loading := false;
    }

    /** The page the "previous" button fetches. */
    function PrevTarget(): int
      reads this
    {
      currentPage - 1
    }

    /** The page the "next" button fetches. */
    function NextTarget(): int
      reads this
    {
      currentPage + 1
    }
  }

  /** As written, a successful listing response leaves the page unable to render. */
  method FetchAsWrittenBreaksRender(s: CandidatesPageState, page: int, cards: seq<Json>, p: PageInfo, timestamp: string)
    modifies s
    ensures s.candidates.None? && s.pagination.None? && !s.Renders()
  {
    s.BeginFetch();
    EnvelopeHidesListing(cards, p, timestamp);
    s.FinishFetchAsWritten(page, Some(BodyJson(ApiUtils.Success(ListingJson(cards, p), timestamp))));
  }

  /** A successful fetch of the previous page makes it current and shows the route's listing. */
  method PrevThenFinish(s: CandidatesPageState, cards: seq<Json>, p: PageInfo, timestamp: string)
    requires s.PrevEnabled()
    modifies s
    ensures s.currentPage == old(s.currentPage) - 1 && !s.loading && s.Renders()
    ensures s.candidates == Some(cards) && s.pagination == Some(p)
    ensures s.PrevEnabled() == p.hasPrev && s.NextEnabled() == p.hasNext
  {
    var target := s.PrevTarget();
    s.BeginFetch();
    ListingRoundTrip(cards, p, timestamp);
    s.FinishFetch(target, Some(BodyJson(ApiUtils.Success(ListingJson(cards, p), timestamp))));
  }
}
