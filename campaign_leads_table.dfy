/** The leads table on a campaign's page: the campaign's leads narrowed by a local search text, and their status badges. */
module CampaignLeadsTable {
  import opened Wrappers
  import opened Text
  import opened Query
  import Schema
  import Store

  /** The search matches a lead's name or its company, ignoring case. */
  predicate LeadMatches(filter: string, lead: Store.Lead) {
    ContainsIgnoreCase(lead.name, filter) || ContainsIgnoreCase(lead.company, filter)
  }

  /** `leads?.filter(...)`: no leads yet stays no leads; otherwise the matching ones in order. */
  function FilteredLeads(leads: Option<seq<Store.Lead>>, filter: string): (r: Option<seq<Store.Lead>>)
    ensures r.None? <==> leads.None?
    ensures r.Some? ==> forall l :: l in r.value <==> l in leads.value && LeadMatches(filter, l)
    ensures r.Some? ==> forall l ::
                          multiset(r.value)[l] == if LeadMatches(filter, l) then multiset(leads.value)[l] else 0
    ensures r.Some? ==> IsSubsequence(r.value, leads.value)
  {
    match leads
    case None => None
    case Some(ls) => Some(Filter(ls, l => LeadMatches(filter, l)))
  }

  /** An empty search shows every lead. */
  lemma EmptyFilterKeepsAll(leads: Option<seq<Store.Lead>>)
    ensures FilteredLeads(leads, "") == leads
  {
    if leads.Some? {
      var s := leads.value;
      forall i | 0 <= i < |s| ensures LeadMatches("", s[i]) {
        EmptyIsEverywhere(s[i].name);
      }
    }
  }

  /** A lead is shown when the search is part of its name, whatever the company. */
  lemma NameMatchIsShown(leads: seq<Store.Lead>, i: int, filter: string)
    requires 0 <= i < |leads| && Contains(Lower(leads[i].name), Lower(filter))
    ensures leads[i] in FilteredLeads(Some(leads), filter).value
  {
  }

  /** The badge text of a status; converted and a missing status both read "Do Not Contact". */
  function StatusBadge(status: Option<Schema.LeadStatus>): (t: string)
    ensures status == Some(Schema.Pending) <==> t == "Pending Approval"
    ensures status == Some(Schema.Contacted) <==> t == "Sent 7 mins ago"
    ensures status == Some(Schema.Responded) <==> t == "Followup 10 mins ago"
    ensures status == Some(Schema.Converted) || status.None? <==> t == "Do Not Contact"
  {
    match status
    case Some(Pending) => "Pending Approval"
    case Some(Contacted) => "Sent 7 mins ago"
    case Some(Responded) => "Followup 10 mins ago"
    case _ => "Do Not Contact"
  }
}
