/**
 * The public job board page: the query it sends to the job list endpoint, its filter state,
 * and its pagination controls.
 */
module JobsPage {
  import opened Wrappers
  import opened Seqs
  import opened Strings
  import opened Model
  import ListJobsRoute

  /** One query-string parameter. */
  datatype Param = Param(key: string, value: string)

  /** The page always asks for this many jobs. */
  const PageSize := 12

  /** `fetchJobs`'s parameters: the page and the limit, then each filter that is not empty. */
  function QueryParams(page: int, search: string, location: string, jobType: string): seq<Param>
  {
    [Param("page", IntToString(page)), Param("limit", "12")]
      + (if search != "" then [Param("search", search)] else [])
      + (if location != "" then [Param("location", location)] else [])
      + (if jobType != "" then [Param("job_type", jobType)] else [])
  }

  /** `searchParams.get(key)`: the first value under `key`, if any. */
  function Lookup(ps: seq<Param>, key: string): Option<string>
  {
    if ps == [] then None else if ps[0].key == key then Some(ps[0].value) else Lookup(ps[1..], key)
  }

  /** `parseInt` of a parameter, when it is present. */
  function ReadInt(o: Option<string>): Option<int>
  {
    if o.None? then None else ParseInt(o.value)
  }

  /** The endpoint's view of these parameters: each one read back by its key. */
  function ServerQuery(ps: seq<Param>): ListJobsRoute.Query
  {
    ListJobsRoute.Query(ReadInt(Lookup(ps, "page")), ReadInt(Lookup(ps, "limit")),
                        Lookup(ps, "search"), Lookup(ps, "location"),
                        Lookup(ps, "job_type"), Lookup(ps, "status"))
  }

  /** The parameters carry the page, a limit of 12 and exactly the non-empty filters, and no status. */
  lemma ParamsCarryFilters(page: int, search: string, location: string, jobType: string)
    ensures var ps := QueryParams(page, search, location, jobType);
      && Lookup(ps, "page") == Some(IntToString(page))
      && Lookup(ps, "limit") == Some("12")
      && Lookup(ps, "search") == (if search == "" then None else Some(search))
      && Lookup(ps, "location") == (if location == "" then None else Some(location))
      && Lookup(ps, "job_type") == (if jobType == "" then None else Some(jobType))
      && Lookup(ps, "status") == None
  {
    var head := [Param("page", IntToString(page)), Param("limit", "12")];
    var sp := if search != "" then [Param("search", search)] else [];
    var lp := if location != "" then [Param("location", location)] else [];
    var jp := if jobType != "" then [Param("job_type", jobType)] else [];
    assert QueryParams(page, search, location, jobType) == head + (sp + (lp + jp));
    LookupConcat(head, sp + (lp + jp), "page");
    LookupConcat(head, sp + (lp + jp), "limit");
    LookupSkip(head, sp + (lp + jp), "search");
    LookupConcat(sp, lp + jp, "search");
    LookupSkip(head, sp + (lp + jp), "location");
    LookupSkip(sp, lp + jp, "location");
    LookupConcat(lp, jp, "location");
    LookupSkip(head, sp + (lp + jp), "job_type");
    LookupSkip(sp, lp + jp, "job_type");
    LookupSkip(lp, jp, "job_type");
    LookupSkip(head, sp + (lp + jp), "status");
    LookupSkip(sp, lp + jp, "status");
    LookupSkip(lp, jp, "status");
    LookupMissing(jp, "status");
  }

  /**
   * So the endpoint lists the open jobs that pass exactly the non-empty filters, twelve per
   * page from the requested page on.
   */
  lemma ParamsRoundTrip(page: int, search: string, location: string, jobType: string)
    ensures ServerQuery(QueryParams(page, search, location, jobType)).page == Some(page)
    ensures ServerQuery(QueryParams(page, search, location, jobType)).limit == Some(PageSize)
    ensures ListJobsRoute.QueryOf(ServerQuery(QueryParams(page, search, location, jobType)))
         == ListJobsRoute.JobQuery("OPEN",
              if search == "" then None else Some(search),
              if location == "" then None else Some(location),
              if jobType == "" then None else Some(jobType),
              (page - 1) * 12, 12)
  {
    ParamsCarryFilters(page, search, location, jobType);
    IntToStringParses(page);
    IntToStringParses(12);
    assert IntToString(12) == "12" by {
      assert NatToString(12) == NatToString(1) + [DigitChar(2)];
    }
  }

  /** Parameters without the key can be skipped. */
  lemma LookupSkip(a: seq<Param>, b: seq<Param>, key: string)
    requires forall i :: 0 <= i < |a| ==> a[i].key != key
    ensures Lookup(a + b, key) == Lookup(b, key)
  {
    LookupConcat(a, b, key);
    LookupMissing(a, key);
  }

  /** A key that no parameter has is not found. */
  lemma {:induction false} LookupMissing(ps: seq<Param>, key: string)
    requires forall i :: 0 <= i < |ps| ==> ps[i].key != key
    ensures Lookup(ps, key) == None
  {
    if ps != [] {
      LookupMissing(ps[1..], key);
    }
  }

  /** A key is looked up in the first part, and in the second part only when the first lacks it. */
  lemma {:induction false} LookupConcat(a: seq<Param>, b: seq<Param>, key: string)
    ensures Lookup(a + b, key) == if Lookup(a, key).Some? then Lookup(a, key) else Lookup(b, key)
  {
    if a != [] {
      LookupConcat(a[1..], b, key);
      assert (a + b)[1..] == a[1..] + b;
    } else {
      assert a + b == b;
    }
  }

  /** The controls are shown only when there is more than one page. */
  predicate ShowControls(pages: Option<int>) { pages.Some? && pages.value > 1 }

  predicate PrevDisabled(current: int) { current == 1 }

  predicate NextDisabled(current: int, pages: int) { current == pages }

  /** The numbered buttons: `1 ..= min(pages, 5)`. */
  function PageButtons(pages: nat): seq<int>
  {
    seq(if pages < 5 then pages else 5, i => i + 1)
  }

  /**
   * With twelve jobs to a page the controls appear exactly when more than twelve jobs match;
   * the buttons number the first pages from 1, at most five of them, none beyond the last.
   */
  lemma ControlsForMoreThanAPage(total: nat, page: int)
    ensures ShowControls(PaginationOf(page, PageSize, total).pages) <==> total > PageSize
    ensures forall pages: nat, i :: 0 <= i < |PageButtons(pages)| ==>
      PageButtons(pages)[i] == i + 1 && 1 <= PageButtons(pages)[i] <= pages
    ensures forall pages: nat :: |PageButtons(pages)| == (if pages < 5 then pages else 5)
  {
    CeilDivIsCeiling(total, PageSize);
  }

  /**
   * What the endpoint answers the board's query for a page, with the store working. A page
   * within the page count holds jobs. Past the last page, the answer is an empty listing only
   * when the offset lands exactly on the number of matching jobs, and otherwise the store
   * refuses the range and the answer is 500. "Next" stays enabled on any page past the last.
   */
  lemma PastLastPage(db: Db, shape: Shape, page: int, search: string, location: string, jobType: string)
    requires page >= 1
    ensures var q := ServerQuery(QueryParams(page, search, location, jobType));
      var total := |ListJobsRoute.Selected(db, ListJobsRoute.QueryOf(q))|;
      var pages := CeilDiv(total, PageSize);
      var r := ListJobsRoute.Respond(db, q, shape, None);
      && (page <= pages ==> r.Ok? && r.body.jobs != [] && r.body.pagination.pages == Some(pages))
      && ((page - 1) * PageSize == total ==> r.Ok? && r.body.jobs == [] && page == pages + 1)
      && ((page - 1) * PageSize > total ==> page > pages && r == Fail(500, RangeNotSatisfiable))
      && (page > pages ==> !NextDisabled(page, pages))
  {
    var q := ServerQuery(QueryParams(page, search, location, jobType));
    ParamsRoundTrip(page, search, location, jobType);
    var jq := ListJobsRoute.QueryOf(q);
    var total := |ListJobsRoute.Selected(db, jq)|;
    CeilDivIsCeiling(total, PageSize);
    ListJobsRoute.RefusedPastCount(db, q, shape);
    ListJobsRoute.PageIsWindow(db, jq, shape);
  }

  /**
   * The page's state: the filters as typed, the page number, and the jobs and pagination of
   * the last answer that succeeded. The page number only moves by the controls, which never
   * go below the first page.
   */
  class Board {
    var search: string
    var location: string
    var jobType: string
    var currentPage: int
    var jobs: seq<ListJobsRoute.JobView>
    var pagination: Option<Pagination>

    predicate Valid()
      reads this
    {
      currentPage >= 1
    }

    constructor ()
      ensures Valid()
      ensures search == "" && location == "" && jobType == "" && currentPage == 1
      ensures jobs == [] && pagination == None
    {
      search := "";
      location := "";
      jobType := "";
      currentPage := 1;
      jobs := [];
      pagination := None;
    }

    /** The parameters the next fetch sends. */
    function Params(): seq<Param>
      reads this
    {
      QueryParams(currentPage, search, location, jobType)
    }

    /** The pagination controls are drawn: a page count above one is known. */
    predicate Controls()
      reads this
    {
      pagination.Some? && ShowControls(pagination.value.pages)
    }

    /** The page count the controls show. */
    function Pages(): int
      requires Controls()
      reads this
    {
      pagination.value.pages.value
    }

    /**
     * `fetchJobs` receiving an answer: a listing replaces the jobs and the pagination, and an
     * error leaves both as they were, so the board keeps showing the last listing it got.
     */
    method Receive(r: Reply<ListJobsRoute.Listing>)
      requires Valid()
      modifies this
      ensures Valid()
      ensures r.Ok? ==> jobs == r.body.jobs && pagination == Some(r.body.pagination)
      ensures r.Fail? ==> jobs == old(jobs) && pagination == old(pagination)
      ensures search == old(search) && location == old(location) && jobType == old(jobType)
      ensures currentPage == old(currentPage)
    {
      if r.Ok? {
        jobs := r.body.jobs;
        pagination := Some(r.body.pagination);
      }
    }

    /**
     * Typing in the search box or removing its chip: the search changes and the page does
     * not, so the next fetch asks for the same page of the new listing.
     */
    method SetSearch(text: string)
      requires Valid()
      modifies this
      ensures Valid()
      ensures search == text && location == old(location) && jobType == old(jobType)
      ensures currentPage == old(currentPage) && jobs == old(jobs) && pagination == old(pagination)
      ensures Params() == QueryParams(old(currentPage), text, location, jobType)
    {
      search := text;
    }

    /** Typing in the location box or removing its chip; the page does not change. */
    method SetLocation(text: string)
      requires Valid()
      modifies this
      ensures Valid()
      ensures location == text && search == old(search) && jobType == old(jobType)
      ensures currentPage == old(currentPage) && jobs == old(jobs) && pagination == old(pagination)
      ensures Params() == QueryParams(old(currentPage), search, text, jobType)
    {
      location := text;
    }

    /** Choosing a job type or removing its chip; the page does not change. */
    method SetJobType(text: string)
      requires Valid()
      modifies this
      ensures Valid()
      ensures jobType == text && search == old(search) && location == old(location)
      ensures currentPage == old(currentPage) && jobs == old(jobs) && pagination == old(pagination)
      ensures Params() == QueryParams(old(currentPage), search, location, text)
    {
      jobType := text;
    }

    /** `clearFilters`: every filter empty and back to the first page. */
    method ClearFilters()
      modifies this
      ensures Valid()
      ensures search == "" && location == "" && jobType == "" && currentPage == 1
      ensures jobs == old(jobs) && pagination == old(pagination)
      ensures Params() == [Param("page", "1"), Param("limit", "12")]
    {
      search := "";
      location := "";
      jobType := "";
      currentPage := 1;
    }

    /** `handleSearch`: back to the first page, the filters as typed. */
    method Search()
      modifies this
      ensures Valid()
      ensures currentPage == 1
      ensures search == old(search) && location == old(location) && jobType == old(jobType)
      ensures jobs == old(jobs) && pagination == old(pagination)
    {
      currentPage := 1;
    }

    /** "Previous", drawn with the controls and enabled away from the first page: one page back. */
    method Previous()
      requires Valid() && Controls() && !PrevDisabled(currentPage)
      modifies this
      ensures Valid()
      ensures currentPage == old(currentPage) - 1
      ensures search == old(search) && location == old(location) && jobType == old(jobType)
      ensures jobs == old(jobs) && pagination == old(pagination)
    {
      currentPage := currentPage - 1;
    }

    /**
     * "Next", drawn with the controls and enabled unless the page is exactly the last one
     * shown: one page on. From a page within the count it stays within the count; from a page
     * past the last, which a filter change can leave behind, it goes further past it.
     */
    method Next()
      requires Valid() && Controls() && !NextDisabled(currentPage, Pages())
      modifies this
      ensures Valid()
      ensures search == old(search) && location == old(location) && jobType == old(jobType)
      ensures jobs == old(jobs) && pagination == old(pagination)
      ensures currentPage == old(currentPage) + 1
      ensures old(currentPage) <= Pages() ==> currentPage <= Pages()
      ensures old(currentPage) > Pages() ==> currentPage > Pages() + 1
    {
      currentPage := currentPage + 1;
    }

    /** A numbered button, of which there are at most five. */
    method GoTo(i: nat)
      requires Controls() && i < |PageButtons(Pages())|
      modifies this
      ensures Valid()
      ensures search == old(search) && location == old(location) && jobType == old(jobType)
      ensures jobs == old(jobs) && pagination == old(pagination)
      ensures currentPage == i + 1 && 1 <= currentPage <= Pages()
    {
      currentPage := PageButtons(Pages())[i];
    }
  }
}
