/**
 * The lead data-access actions: the paginated, filtered listing joined with
 * the campaign names, the recent-activity feed, lookup by id, creation,
 * update, status change and delete. A thrown datastore error is the `fault`
 * input; the current time and the id the database generates are inputs too.
 */
module LeadActions {
  import opened Wrappers
  import opened Text
  import opened Pagination
  import opened Query
  import opened Schema

  // ---------------------------------------------------------------------------
  // The joined relation: leads LEFT JOIN campaigns ON leads.campaign_id = campaigns.id
  // ---------------------------------------------------------------------------

  /** A lead with the name of its campaign; `None` when no campaign matches. */
  datatype LeadRow = LeadRow(lead: Lead, campaignName: Option<string>)

  function Joined(lead: Lead, campaigns: map<Uuid, Campaign>): (row: LeadRow)
    ensures row.lead == lead
    ensures row.campaignName.Some? <==> lead.campaignId in campaigns
    ensures row.campaignName.Some? ==> row.campaignName.value == campaigns[lead.campaignId].name
  {
    if lead.campaignId in campaigns then LeadRow(lead, Some(campaigns[lead.campaignId].name))
    else LeadRow(lead, None)
  }

  /** The joined relation, keyed like the leads table. */
  function JoinedTable(campaigns: map<Uuid, Campaign>, leads: map<Uuid, Lead>): (t: map<Uuid, LeadRow>)
    ensures t.Keys == leads.Keys
    ensures forall id :: id in t ==> t[id] == Joined(leads[id], campaigns)
  {
    map id | id in leads :: Joined(leads[id], campaigns)
  }

  /** Under the foreign key, every lead finds its campaign, so the left join loses no name. */
  lemma JoinFindsEveryCampaign(campaigns: map<Uuid, Campaign>, leads: map<Uuid, Lead>, id: Uuid)
    requires TablesValid(campaigns, leads) && id in leads
    ensures JoinedTable(campaigns, leads)[id].campaignName == Some(campaigns[leads[id].campaignId].name)
  {
  }

  lemma JoinedTableInjective(campaigns: map<Uuid, Campaign>, leads: map<Uuid, Lead>)
    requires LeadsValid(campaigns, leads)
    ensures Injective(JoinedTable(campaigns, leads))
  {
    var t := JoinedTable(campaigns, leads);
    forall k1, k2 | k1 in t && k2 in t && t[k1] == t[k2] ensures k1 == k2 {
      assert t[k1].lead.id == k1 && t[k2].lead.id == k2;
    }
  }

  function LastContact(row: LeadRow): int {
    row.lead.lastContactDate
  }

  // ---------------------------------------------------------------------------
  // The listing filter
  // ---------------------------------------------------------------------------

  /** One WHERE condition of the lead listing. */
  datatype LeadCondition =
    | StatusEq(text: string)             // leads.status = text, the text cast to lead_status
    | CampaignNameILike(needle: string)  // campaigns.name ILIKE '%needle%'
    | NameILike(needle: string)          // leads.name ILIKE '%needle%'

  /** A NULL campaign name (no campaign joined) matches no pattern. */
  predicate Holds(cond: LeadCondition, row: LeadRow) {
    match cond
    case StatusEq(text) => LeadStatusName(row.lead.status) == text
    case CampaignNameILike(needle) => row.campaignName.Some? && ContainsIgnoreCase(row.campaignName.value, needle)
    case NameILike(needle) => ContainsIgnoreCase(row.lead.name, needle)
  }

  predicate AllHold(conds: seq<LeadCondition>, row: LeadRow) {
    AllOf(conds, Holds, row)
  }

  /** The database cannot cast the text of a status condition to `lead_status` and rejects the query. */
  predicate CastFails(conds: seq<LeadCondition>) {
    exists i :: 0 <= i < |conds| && conds[i].StatusEq? && ParseLeadStatus(conds[i].text).None?
  }

  /** The status filter is on: a non-empty status other than "all". */
  predicate StatusFiltered(params: PaginationParams) {
    NonEmpty(params.status) && params.status.value != "all"
  }

  /** The status filter names no `lead_status` value. */
  predicate StatusRejected(params: PaginationParams) {
    StatusFiltered(params) && ParseLeadStatus(params.status.value).None?
  }

  predicate StatusMatches(params: PaginationParams, row: LeadRow) {
    StatusFiltered(params) ==> LeadStatusName(row.lead.status) == params.status.value
  }

  /** A non-empty campaign filter must occur, ignoring case, in the joined campaign name. */
  predicate CampaignMatches(params: PaginationParams, row: LeadRow) {
    NonEmpty(params.campaign) ==>
      row.campaignName.Some? && ContainsIgnoreCase(row.campaignName.value, params.campaign.value)
  }

  /** A non-empty search must occur, ignoring case, in the lead's name. */
  predicate SearchMatches(params: PaginationParams, row: LeadRow) {
    NonEmpty(params.search) ==> ContainsIgnoreCase(row.lead.name, params.search.value)
  }

  /** Which joined rows a listing request selects. */
  predicate LeadSelected(params: PaginationParams, row: LeadRow) {
    StatusMatches(params, row) && CampaignMatches(params, row) && SearchMatches(params, row)
  }

  /** Builds the WHERE conditions of a listing request: status, then campaign, then search. */
  method LeadConditions(params: PaginationParams) returns (conds: seq<LeadCondition>)
    ensures forall row :: AllHold(conds, row) <==> LeadSelected(params, row)
    ensures CastFails(conds) <==> StatusRejected(params)
    ensures |conds| == (if StatusFiltered(params) then 1 else 0)
                     + (if NonEmpty(params.campaign) then 1 else 0)
                     + (if NonEmpty(params.search) then 1 else 0)
  {
    conds := [];
    if NonEmpty(params.status) && params.status.value != "all" {
      conds := conds + [StatusEq(params.status.value)];
      forall row ensures AllHold(conds, row) <==> StatusMatches(params, row) {
        AllOfPush([], StatusEq(params.status.value), Holds, row);
      }
    }
    assert forall row :: AllHold(conds, row) <==> StatusMatches(params, row);
    assert CastFails(conds) <==> StatusRejected(params) by {
      if StatusRejected(params) {
        assert conds[0].StatusEq? && ParseLeadStatus(conds[0].text).None?;
      }
    }
    var statusConds := conds;
    if NonEmpty(params.campaign) {
      conds := conds + [CampaignNameILike(params.campaign.value)];
      forall row ensures AllHold(conds, row) <==> StatusMatches(params, row) && CampaignMatches(params, row) {
        AllOfPush(statusConds, CampaignNameILike(params.campaign.value), Holds, row);
      }
      assert CastFails(conds) ==> CastFails(statusConds) by {
        if CastFails(conds) {
          var i :| 0 <= i < |conds| && conds[i].StatusEq? && ParseLeadStatus(conds[i].text).None?;
          assert i < |statusConds| && statusConds[i] == conds[i];
        }
      }
      assert CastFails(statusConds) ==> CastFails(conds) by {
        if CastFails(statusConds) {
          var i :| 0 <= i < |statusConds| && statusConds[i].StatusEq? && ParseLeadStatus(statusConds[i].text).None?;
          assert conds[i] == statusConds[i];
        }
      }
    }
    assert forall row :: AllHold(conds, row) <==> StatusMatches(params, row) && CampaignMatches(params, row);
    assert CastFails(conds) <==> StatusRejected(params);
    var filterConds := conds;
    if NonEmpty(params.search) {
      conds := conds + [NameILike(params.search.value)];
      forall row ensures AllHold(conds, row) <==> LeadSelected(params, row) {
        AllOfPush(filterConds, NameILike(params.search.value), Holds, row);
      }
      assert CastFails(conds) ==> CastFails(filterConds) by {
        if CastFails(conds) {
          var i :| 0 <= i < |conds| && conds[i].StatusEq? && ParseLeadStatus(conds[i].text).None?;
          assert i < |filterConds| && filterConds[i] == conds[i];
        }
      }
      assert CastFails(filterConds) ==> CastFails(conds) by {
        if CastFails(filterConds) {
          var i :| 0 <= i < |filterConds| && filterConds[i].StatusEq? && ParseLeadStatus(filterConds[i].text).None?;
          assert conds[i] == filterConds[i];
        }
      }
    }
  }

  /** A status filter naming a `lead_status` value keeps exactly the leads in that status. */
  lemma StatusFilterSelectsExactly(params: PaginationParams, row: LeadRow, s: LeadStatus)
    requires params.status == Some(LeadStatusName(s))
    ensures StatusMatches(params, row) <==> row.lead.status == s
  {
    LeadStatusNameRoundTrip(s);
    LeadStatusNameRoundTrip(row.lead.status);
  }

  /** Status "all" filters nothing. */
  lemma StatusAllFiltersNothing(params: PaginationParams, row: LeadRow)
    requires params.status == Some("all")
    ensures StatusMatches(params, row)
  {
  }

  /** Under the foreign key, the campaign filter keeps a lead exactly when its campaign's name contains the text. */
  lemma CampaignFilterFollowsForeignKey(campaigns: map<Uuid, Campaign>, leads: map<Uuid, Lead>,
                                        id: Uuid, params: PaginationParams)
    requires TablesValid(campaigns, leads) && id in leads && NonEmpty(params.campaign)
    ensures CampaignMatches(params, JoinedTable(campaigns, leads)[id]) <==>
            ContainsIgnoreCase(campaigns[leads[id].campaignId].name, params.campaign.value)
  {
    JoinFindsEveryCampaign(campaigns, leads, id);
  }

  // ---------------------------------------------------------------------------
  // getAllLeads
  // ---------------------------------------------------------------------------

  ghost function SelectedLeadIds(db: map<Uuid, LeadRow>, params: PaginationParams): set<Uuid> {
    MatchingKeys(db, row => LeadSelected(params, row))
  }

  /**
   * One page of the filtered leads with their campaign names, most recently
   * contacted first, with the metadata of the whole filtered set; the failure
   * envelope when the datastore fails or the status is not a lead status.
   */
  method GetAllLeads(db: Database, params: PaginationParams, fault: bool)
    returns (r: PaginatedResponse<LeadRow>, ghost listing: seq<LeadRow>)
    requires db.Valid()
    ensures fault || StatusRejected(params) ==> r == FailureResponse("Failed to fetch leads")
    ensures !fault && !StatusRejected(params) ==>
      var opts := CalculatePagination(params);
      var joined := JoinedTable(db.campaigns, db.leads);
      && r.success && r.error == None
      && IsListing(listing, joined, row => LeadSelected(params, row), LastContact)
      && r.data == Window(listing, opts.offset, opts.limit)
      && r.meta == CreatePaginationMeta(opts.page, opts.limit, |SelectedLeadIds(joined, params)|)
  {
    if fault {
      return FailureResponse("Failed to fetch leads"), [];
    }
    var opts := CalculatePagination(params);
    var conds := LeadConditions(params);
    if CastFails(conds) {
      return FailureResponse("Failed to fetch leads"), [];
    }
    var joined := JoinedTable(db.campaigns, db.leads);
    var keep := row => AllHold(conds, row);
    // the count query
    var counted := SelectKeys(joined, keep);
    var total := |counted|;
    // the data query, with the same conditions
    var keys := SelectKeys(joined, keep);
    JoinedTableInjective(db.campaigns, db.leads);
    ListingOfSelection(joined, keep, LastContact, keys);
    var ordered := SortDesc(RowsOf(joined, keys), LastContact);
    ListingUnderEquivalentFilter(ordered, joined, keep, row => LeadSelected(params, row), LastContact);
    listing := ordered;
    r := PaginatedResponse(true, Window(ordered, opts.offset, opts.limit),
                           CreatePaginationMeta(opts.page, opts.limit, total), None);
  }

  // ---------------------------------------------------------------------------
  // getRecentActivity
  // ---------------------------------------------------------------------------

  /** An activity item: the joined row with the company shown as its title and the campaign name repeated as `campaign`. */
  datatype Activity = Activity(lead: Lead, campaignName: Option<string>, campaign: Option<string>)

  function ToActivity(row: LeadRow): (a: Activity)
    ensures a.lead.title == row.lead.company
    ensures a.lead.(title := row.lead.title) == row.lead
    ensures a.campaign == a.campaignName == row.campaignName
  {
    Activity(row.lead.(title := row.lead.company), row.campaignName, row.campaignName)
  }

  /** The window of the activity feed: the request with a falsy limit replaced by 10. */
  function ActivityParams(params: PaginationParams): (p: PaginationParams)
    ensures p.(limit := params.limit) == params
    ensures Truthy(params.limit) ==> p.limit == params.limit
    ensures !Truthy(params.limit) ==> p.limit == Some(10)
  {
    params.(limit := if Truthy(params.limit) then params.limit else Some(10))
  }

  /** Replacing a falsy limit by 10 changes nothing, since 10 is already the default page size. */
  lemma ActivityWindowIsDefaultWindow(params: PaginationParams)
    ensures CalculatePagination(ActivityParams(params)) == CalculatePagination(params)
  {
  }

  /** Every row: the activity feed has no WHERE clause. */
  predicate Everything(row: LeadRow) {
    true
  }

  /**
   * One page of all leads, most recently contacted first, as activity items;
   * the search, status and campaign filters are ignored and the total counts
   * every lead.
   */
  method GetRecentActivity(db: Database, params: PaginationParams, fault: bool)
    returns (r: PaginatedResponse<Activity>, ghost listing: seq<LeadRow>)
    requires db.Valid()
    ensures fault ==> r == FailureResponse("Failed to fetch recent activity")
    ensures !fault ==>
      var opts := CalculatePagination(ActivityParams(params));
      && r.success && r.error == None
      && IsListing(listing, JoinedTable(db.campaigns, db.leads), Everything, LastContact)
      && |r.data| == |Window(listing, opts.offset, opts.limit)|
      && (forall i :: 0 <= i < |r.data| ==> r.data[i] == ToActivity(Window(listing, opts.offset, opts.limit)[i]))
      && r.meta == CreatePaginationMeta(opts.page, opts.limit, |db.leads|)
  {
    if fault {
      return FailureResponse("Failed to fetch recent activity"), [];
    }
    var opts := CalculatePagination(ActivityParams(params));
    // the count query, over the leads table alone
    var total := |db.leads|;
    var joined := JoinedTable(db.campaigns, db.leads);
    var keys := SelectKeys(joined, Everything);
    assert MatchingKeys(joined, Everything) == joined.Keys;
    JoinedTableInjective(db.campaigns, db.leads);
    ListingOfSelection(joined, Everything, LastContact, keys);
    var ordered := SortDesc(RowsOf(joined, keys), LastContact);
    listing := ordered;
    var page := Window(ordered, opts.offset, opts.limit);
    var items := seq(|page|, i requires 0 <= i < |page| => ToActivity(page[i]));
    r := PaginatedResponse(true, items, CreatePaginationMeta(opts.page, opts.limit, total), None);
  }

  // ---------------------------------------------------------------------------
  // getLeadById, deleteLead
  // ---------------------------------------------------------------------------

  method GetLeadById(db: Database, id: Uuid, fault: bool) returns (r: Result<Lead>)
    ensures fault ==> r == Failure("Failed to fetch lead")
    ensures !fault && id in db.leads ==> r == Success(db.leads[id])
    ensures !fault && id !in db.leads ==> r == Failure("Lead not found")
  {
    if fault {
      return Failure("Failed to fetch lead");
    }
    if id !in db.leads {
      return Failure("Lead not found");
    }
    r := Success(db.leads[id]);
  }

  method DeleteLead(db: Database, id: Uuid, fault: bool) returns (r: Result<Lead>)
    requires db.Valid()
    modifies db
    ensures db.Valid() && db.campaigns == old(db.campaigns)
    ensures fault ==> r == Failure("Failed to delete lead")
    ensures !fault && id !in old(db.leads) ==> r == Failure("Lead not found")
    ensures r.Failure? ==> db.leads == old(db.leads)
    ensures !fault && id in old(db.leads) ==>
      r == Success(old(db.leads)[id]) && db.leads == old(db.leads) - {id}
  {
    if fault {
      return Failure("Failed to delete lead");
    }
    if id !in db.leads {
      return Failure("Lead not found");
    }
    var deleted := db.leads[id];
    db.leads := db.leads - {id};
    r := Success(deleted);
  }

  // ---------------------------------------------------------------------------
  // createLead
  // ---------------------------------------------------------------------------

  /** The input of `createLead` after unknown keys are stripped; the insert schema requires a title and a campaign. */
  datatype LeadInput = LeadInput(
    name: string,
    email: string,
    company: string,
    title: Option<string>,
    campaignId: Option<Uuid>,
    status: Option<LeadStatus>)

  /** The outcome of a lead write: the stored row, a rejected input, or an error message. */
  datatype LeadOutcome = Stored(lead: Lead) | Invalid | Rejected(error: string)

  const DuplicateEmail := "A lead with this email already exists"

  /**
   * Inserts a lead. Validation fails without a title or a campaign; a taken
   * email, and likewise a taken id, violate a unique constraint and are
   * reported as a duplicate email; a missing campaign violates the foreign key.
   */
  method CreateLead(db: Database, input: LeadInput, newId: Uuid, now: Timestamp, fault: bool)
    returns (r: LeadOutcome)
    requires db.Valid()
    modifies db
    ensures db.Valid() && db.campaigns == old(db.campaigns)
    ensures r.Invalid? <==> input.title.None? || input.campaignId.None?
    ensures !r.Stored? ==> db.leads == old(db.leads)
    ensures r.Stored? <==>
      && input.title.Some? && input.campaignId.Some? && !fault
      && newId !in old(db.leads) && !EmailTaken(old(db.leads), input.email, newId)
      && input.campaignId.value in old(db.campaigns)
    ensures r.Stored? ==>
      && r.lead == NewLeadRow(newId, input.name, input.email, input.company, input.title.value,
                              input.campaignId.value, input.status, now)
      && db.leads == old(db.leads)[newId := r.lead]
    ensures r == Rejected(DuplicateEmail) <==>
      && input.title.Some? && input.campaignId.Some? && !fault
      && (newId in old(db.leads) || EmailTaken(old(db.leads), input.email, newId))
    ensures r.Rejected? && r.error != DuplicateEmail ==> r.error == "Failed to create lead"
  {
    if input.title.None? || input.campaignId.None? {
      return Invalid;
    }
    if fault {
      return Rejected("Failed to create lead");
    }
    // the unique indexes are checked as the row goes in, the foreign key after
    if newId in db.leads || EmailTaken(db.leads, input.email, newId) {
      return Rejected(DuplicateEmail);
    }
    if input.campaignId.value !in db.campaigns {
      return Rejected("Failed to create lead");
    }
    var row := NewLeadRow(newId, input.name, input.email, input.company, input.title.value,
                          input.campaignId.value, input.status, now);
    db.leads := db.leads[newId := row];
    r := Stored(row);
  }

  // ---------------------------------------------------------------------------
  // updateLead, updateLeadStatus
  // ---------------------------------------------------------------------------

  /** The fields an update may change, after unknown keys are stripped; `None` leaves a column as it is. */
  datatype LeadChanges = LeadChanges(
    name: Option<string>,
    email: Option<string>,
    company: Option<string>,
    status: Option<LeadStatus>)

  /** `SET` the given columns; a new status also stamps the contact time. */
  function ApplyLeadChanges(l: Lead, ch: LeadChanges, now: Timestamp): (l': Lead)
    ensures l'.id == l.id && l'.title == l.title && l'.campaignId == l.campaignId
    ensures l'.name == ch.name.GetOr(l.name)
    ensures l'.email == ch.email.GetOr(l.email)
    ensures l'.company == ch.company.GetOr(l.company)
    ensures l'.status == ch.status.GetOr(l.status)
    ensures l'.lastContactDate == if ch.status.Some? then now else l.lastContactDate
  {
    l.(name := ch.name.GetOr(l.name),
       email := ch.email.GetOr(l.email),
       company := ch.company.GetOr(l.company),
       status := ch.status.GetOr(l.status),
       lastContactDate := if ch.status.Some? then now else l.lastContactDate)
  }

  /** Changes without a status leave the contact time alone. */
  lemma ContactTimeMovesOnlyWithStatus(l: Lead, ch: LeadChanges, now: Timestamp)
    requires ApplyLeadChanges(l, ch, now).lastContactDate != l.lastContactDate
    ensures ch.status.Some? && ApplyLeadChanges(l, ch, now).lastContactDate == now
  {
  }

  method UpdateLead(db: Database, id: Uuid, changes: LeadChanges, now: Timestamp, fault: bool)
    returns (r: Result<Lead>)
    requires db.Valid()
    modifies db
    ensures db.Valid() && db.campaigns == old(db.campaigns)
    ensures r.Failure? ==> db.leads == old(db.leads)
    ensures fault ==> r == Failure("Failed to update lead")
    ensures !fault && id !in old(db.leads) ==> r == Failure("Lead not found")
    ensures !fault && id in old(db.leads) ==>
      var updated := ApplyLeadChanges(old(db.leads)[id], changes, now);
      if EmailTaken(old(db.leads), updated.email, id) then
        r == Failure(DuplicateEmail)
      else
        r == Success(updated) && db.leads == old(db.leads)[id := updated]
  {
    if fault {
      return Failure("Failed to update lead");
    }
    if id !in db.leads {
      return Failure("Lead not found");
    }
    var updated := ApplyLeadChanges(db.leads[id], changes, now);
    if EmailTaken(db.leads, updated.email, id) {
      return Failure(DuplicateEmail);
    }
    db.leads := db.leads[id := updated];
    r := Success(updated);
  }

  method UpdateLeadStatus(db: Database, id: Uuid, status: LeadStatus, now: Timestamp, fault: bool)
    returns (r: Result<Lead>)
    requires db.Valid()
    modifies db
    ensures db.Valid() && db.campaigns == old(db.campaigns)
    ensures r.Failure? ==> db.leads == old(db.leads)
    ensures fault ==> r == Failure("Failed to update lead status")
    ensures !fault && id !in old(db.leads) ==> r == Failure("Lead not found")
    ensures !fault && id in old(db.leads) ==>
      && r.Success?
      && r.data == old(db.leads)[id].(status := status, lastContactDate := now)
      && db.leads == old(db.leads)[id := r.data]
  {
    if fault {
      return Failure("Failed to update lead status");
    }
    if id !in db.leads {
      return Failure("Lead not found");
    }
    var updated := db.leads[id].(status := status, lastContactDate := now);
    db.leads := db.leads[id := updated];
    r := Success(updated);
  }

  /** A status change is the general update with only the status given. */
  lemma StatusChangeIsStatusOnlyUpdate(l: Lead, status: LeadStatus, now: Timestamp)
    ensures ApplyLeadChanges(l, LeadChanges(None, None, None, Some(status)), now)
         == l.(status := status, lastContactDate := now)
  {
  }
}
