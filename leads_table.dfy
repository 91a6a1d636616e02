/**
 * The leads page table: the pagination request it keeps as state and
 * changes on search, page and page-size events, what it shows for a
 * response, and how a row shows a lead's status.
 */
module LeadsTable {
  import opened Wrappers
  import opened Pagination
  import Schema
  import Store

  /** The table's request state; the debounced search, a page click and a size choice change it. */
  class LeadsTableState {
    var pagination: PaginationParams

    /** The first page of 10 rows, unfiltered. */
    constructor ()
      ensures pagination == PaginationParams(Some(1), Some(10), None, None, None)
      ensures CalculatePagination(pagination) == PaginationOptions(1, 10, 0)
    {
      pagination := PaginationParams(Some(1), Some(10), None, None, None);
    }

    /** A settled search value: back to the first page, an empty search meaning none. */
    method OnDebouncedSearch(value: string)
      modifies this
      ensures pagination == old(pagination).(page := Some(1), search := if value == "" then None else Some(value))
      ensures CalculatePagination(pagination).page == 1 && CalculatePagination(pagination).offset == 0
      ensures CalculatePagination(pagination).limit == CalculatePagination(old(pagination)).limit
      ensures NonEmpty(pagination.search) <==> value != ""
    {
      pagination := pagination.(page := Some(1), search := if value == "" then None else Some(value));
    }

    /** A page click replaces the page alone. */
    method OnPageChange(page: int)
      modifies this
      ensures pagination == old(pagination).(page := Some(page))
    {
      pagination := pagination.(page := Some(page));
    }

    /** A size choice sets the limit and returns to the first page; the search is kept. */
    method OnPageSizeChange(limit: Option<int>)
      modifies this
      ensures pagination == old(pagination).(page := Some(1), limit := limit)
      ensures CalculatePagination(pagination).page == 1 && CalculatePagination(pagination).offset == 0
    {
      pagination := pagination.(page := Some(1), limit := limit);
    }
  }

  /** A search after a page change lands on the first page whatever page was open. */
  method SearchResetsPage(table: LeadsTableState, page: int, value: string)
    modifies table
    ensures CalculatePagination(table.pagination).offset == 0
    ensures table.pagination.limit == old(table.pagination.limit)
  {
    table.OnPageChange(page);
    table.OnDebouncedSearch(value);
  }

  /** What the table shows for a response (`None` while nothing has arrived): the rows and, when there is one, the metadata. */
  function Shown(response: Option<PaginatedResponse<Store.Lead>>): (r: (seq<Store.Lead>, Option<PaginationMeta>))
    ensures r.1.Some? <==> response.Some? && response.value.success
    ensures r.1.Some? ==> r.0 == response.value.data && r.1.value == response.value.meta
    ensures r.1.None? ==> r.0 == []
  {
    if response.Some? && response.value.success then (response.value.data, Some(response.value.meta))
    else ([], None)
  }

  /** A failed listing shows no rows and no pagination. */
  lemma FailureShowsNothing(message: string)
    ensures Shown(Some(FailureResponse(message))) == ([], None)
  {
  }

  /**
   * The table body, checked in order: loading, then a load error, then no
   * rows. `failed` is the query's own error, set only when the call throws;
   * a listing that catches its failure and answers `success: false` is not
   * one.
   */
  datatype Body = Loading | LoadFailed | NoLeads | Rows(leads: seq<Store.Lead>)

  function TableBody(isLoading: bool, failed: bool, leads: seq<Store.Lead>): (b: Body)
    ensures b.Rows? <==> !isLoading && !failed && |leads| > 0
    ensures b.Rows? ==> b.leads == leads
    ensures b == Loading <==> isLoading
    ensures b == LoadFailed <==> !isLoading && failed
    ensures b == NoLeads <==> !isLoading && !failed && |leads| == 0
  {
    if isLoading then Loading
    else if failed then LoadFailed
    else if |leads| == 0 then NoLeads
    else Rows(leads)
  }

  /** A listing that answers with the failure envelope does not throw, so the table says "No leads found". */
  lemma FailureEnvelopeShowsNoLeads(message: string)
    ensures TableBody(false, false, Shown(Some(FailureResponse(message))).0) == NoLeads
  {
  }

  /** `lead.status || "pending"`: the status the activity icon and the badge colour stand for. */
  function DisplayedStatus(status: Option<Schema.LeadStatus>): (s: Schema.LeadStatus)
    ensures status.Some? ==> s == status.value
    ensures status.None? ==> s == Schema.Pending
  {
    status.GetOr(Schema.Pending)
  }

  /** The badge text, as the four separate conditions of the row write it. */
  function BadgeText(status: Option<Schema.LeadStatus>): string {
    if status == Some(Schema.Pending) || status.None? then "Pending Approval"
    else if status == Some(Schema.Contacted) then "Contacted"
    else if status == Some(Schema.Responded) then "Responded"
    else "Converted"
  }

  function StatusLabel(s: Schema.LeadStatus): string {
    match s
    case Pending => "Pending Approval"
    case Contacted => "Contacted"
    case Responded => "Responded"
    case Converted => "Converted"
  }

  /** Icon, colour and badge agree: each shows the displayed status, and a lead without one shows as pending. */
  lemma BadgeFollowsDisplayedStatus(status: Option<Schema.LeadStatus>)
    ensures BadgeText(status) == StatusLabel(DisplayedStatus(status))
    ensures status.None? ==> BadgeText(status) == BadgeText(Some(Schema.Pending))
  {
  }

  /** `lead.email || lead.title`: the line under the name. */
  function Subtitle(lead: Store.Lead): (t: string)
    ensures lead.email != "" ==> t == lead.email
    ensures lead.email == "" ==> t == lead.title
  {
    if lead.email != "" then lead.email else lead.title
  }
}
