/** The campaigns page table: the fetched campaigns narrowed by the filter text kept in the application store. */
module CampaignsTable {
  import opened Wrappers
  import opened Text
  import opened Pagination
  import opened Query
  import opened Schema

  /** The campaigns of a response; none unless it succeeded (`None` while nothing has arrived). */
  function Fetched(response: Option<PaginatedResponse<Campaign>>): (r: seq<Campaign>)
    ensures response.Some? && response.value.success ==> r == response.value.data
    ensures !(response.Some? && response.value.success) ==> r == []
  {
    if response.Some? && response.value.success then response.value.data else []
  }

  predicate NameMatches(filter: string, c: Campaign) {
    ContainsIgnoreCase(c.name, filter)
  }

  /** The rows shown: the fetched campaigns whose name contains the filter, ignoring case, in fetched order. */
  function FilteredCampaigns(response: Option<PaginatedResponse<Campaign>>, filter: string): (r: seq<Campaign>)
    ensures forall c :: c in r <==> c in Fetched(response) && ContainsIgnoreCase(c.name, filter)
    ensures forall c ::
              multiset(r)[c] == if ContainsIgnoreCase(c.name, filter) then multiset(Fetched(response))[c] else 0
    ensures IsSubsequence(r, Fetched(response))
  {
    Filter(Fetched(response), c => NameMatches(filter, c))
  }

  /** An empty filter shows every fetched campaign. */
  lemma EmptyFilterKeepsAll(response: Option<PaginatedResponse<Campaign>>)
    ensures FilteredCampaigns(response, "") == Fetched(response)
  {
    var s := Fetched(response);
    forall i | 0 <= i < |s| ensures NameMatches("", s[i]) {
      EmptyIsEverywhere(s[i].name);
    }
  }

  /** A failed response shows no campaigns, whatever the filter. */
  lemma FailureShowsNone(message: string, filter: string)
    ensures FilteredCampaigns(Some(FailureResponse(message)), filter) == []
  {
  }
}
