/**
 * The campaign data-access actions: the paginated, filtered listing, lookup
 * by id, creation with a derived response rate, partial update and delete.
 * A thrown datastore error is the `fault` input; the current time and the
 * id the database generates for a new row are inputs as well.
 */
module CampaignActions {
  import opened Wrappers
  import opened Text
  import opened Pagination
  import opened Query
  import opened Schema

  // ---------------------------------------------------------------------------
  // The listing filter
  // ---------------------------------------------------------------------------

  /** One WHERE condition of the campaign listing. */
  datatype CampaignCondition =
    | NameILike(needle: string)                  // name ILIKE '%needle%'
    | StatusEq(status: CampaignStatus)           // status = s
    | StatusOneOf(statuses: seq<CampaignStatus>) // status = s1 OR status = s2 OR ...

  predicate Holds(cond: CampaignCondition, c: Campaign) {
    match cond
    case NameILike(needle) => ContainsIgnoreCase(c.name, needle)
    case StatusEq(s) => c.status == s
    case StatusOneOf(ss) => c.status in ss
  }

  /** `and(...conditions)`; no condition at all selects every row. */
  predicate AllHold(conds: seq<CampaignCondition>, c: Campaign) {
    AllOf(conds, Holds, c)
  }

  /** A non-empty search must occur in the name, ignoring case. */
  predicate SearchMatches(params: PaginationParams, c: Campaign) {
    NonEmpty(params.search) ==> ContainsIgnoreCase(c.name, params.search.value)
  }

  /** Status "active" keeps the active campaigns and "inactive" every other one. */
  predicate StatusMatches(params: PaginationParams, c: Campaign) {
    && (params.status == Some("active") ==> c.status == Active)
    && (params.status == Some("inactive") ==> c.status != Active)
  }

  /**
   * Which campaigns a listing request selects; any other status, and the
   * campaign key, select everything.
   */
  predicate CampaignSelected(params: PaginationParams, c: Campaign) {
    SearchMatches(params, c) && StatusMatches(params, c)
  }

  /** Builds the WHERE conditions of a listing request, one push at a time. */
  method CampaignConditions(params: PaginationParams) returns (conds: seq<CampaignCondition>)
    ensures forall c :: AllHold(conds, c) <==> CampaignSelected(params, c)
    ensures |conds| == (if NonEmpty(params.search) then 1 else 0)
                     + (if params.status == Some("active") || params.status == Some("inactive") then 1 else 0)
    ensures NonEmpty(params.search) ==> conds[0] == NameILike(params.search.value)
  {
    conds := [];
    if NonEmpty(params.search) {
      conds := conds + [NameILike(params.search.value)];
      forall c ensures AllHold(conds, c) <==> SearchMatches(params, c) {
        AllOfPush([], NameILike(params.search.value), Holds, c);
      }
    }
    assert forall c :: AllHold(conds, c) <==> SearchMatches(params, c);
    var before := conds;
    if NonEmpty(params.status) {
      if params.status.value == "active" {
        conds := conds + [StatusEq(Active)];
        forall c ensures AllHold(conds, c) <==> CampaignSelected(params, c) {
          AllOfPush(before, StatusEq(Active), Holds, c);
        }
      } else if params.status.value == "inactive" {
        conds := conds + [StatusOneOf([Draft, Paused, Completed])];
        forall c ensures AllHold(conds, c) <==> CampaignSelected(params, c) {
          AllOfPush(before, StatusOneOf([Draft, Paused, Completed]), Holds, c);
        }
      }
    }
  }

  /** Status "inactive" keeps exactly the draft, paused and completed campaigns. */
  lemma InactiveIsDraftPausedOrCompleted(params: PaginationParams, c: Campaign)
    requires params.status == Some("inactive") && !NonEmpty(params.search)
    ensures CampaignSelected(params, c) <==> c.status in {Draft, Paused, Completed}
  {
  }

  /** Without a search, a status other than "active" and "inactive" selects every campaign. */
  lemma OtherStatusSelectsAll(params: PaginationParams, c: Campaign)
    requires !NonEmpty(params.search)
    requires params.status != Some("active") && params.status != Some("inactive")
    ensures CampaignSelected(params, c)
  {
  }

  // ---------------------------------------------------------------------------
  // getAllCampaigns
  // ---------------------------------------------------------------------------

  function CreatedAt(c: Campaign): int {
    c.createdAt
  }

  /** The ids of the campaigns a request selects. */
  ghost function SelectedIds(campaigns: map<Uuid, Campaign>, params: PaginationParams): set<Uuid> {
    MatchingKeys(campaigns, c => CampaignSelected(params, c))
  }

  /** The selected campaigns, each once, newest first. */
  ghost predicate IsCampaignListing(listing: seq<Campaign>, campaigns: map<Uuid, Campaign>, params: PaginationParams) {
    IsListing(listing, campaigns, c => CampaignSelected(params, c), CreatedAt)
  }

  /**
   * One page of the filtered campaigns, newest first, with the metadata of
   * the whole filtered set; the failure envelope when the datastore fails.
   */
  method GetAllCampaigns(db: Database, params: PaginationParams, fault: bool)
    returns (r: PaginatedResponse<Campaign>, ghost listing: seq<Campaign>)
    requires db.Valid()
    ensures fault ==> r == FailureResponse("Failed to fetch campaigns")
    ensures !fault ==>
      var opts := CalculatePagination(params);
      && r.success && r.error == None
      && IsCampaignListing(listing, db.campaigns, params)
      && r.data == Window(listing, opts.offset, opts.limit)
      && r.meta == CreatePaginationMeta(opts.page, opts.limit, |SelectedIds(db.campaigns, params)|)
  {
    if fault {
      return FailureResponse("Failed to fetch campaigns"), [];
    }
    var opts := CalculatePagination(params);
    var conds := CampaignConditions(params);
    var table := db.campaigns;
    var keep := c => AllHold(conds, c);
    // the count query
    var counted := SelectKeys(table, keep);
    var total := |counted|;
    // the data query, with the same conditions
    var keys := SelectKeys(table, keep);
    assert Injective(table) by {
      forall k1, k2 | k1 in table && k2 in table && table[k1] == table[k2] ensures k1 == k2 {
        assert table[k1].id == k1 && table[k2].id == k2;
      }
    }
    ListingOfSelection(table, keep, CreatedAt, keys);
    var ordered := SortDesc(RowsOf(table, keys), CreatedAt);
    ListingUnderEquivalentFilter(ordered, table, keep, c => CampaignSelected(params, c), CreatedAt);
    listing := ordered;
    r := PaginatedResponse(true, Window(ordered, opts.offset, opts.limit),
                           CreatePaginationMeta(opts.page, opts.limit, total), None);
  }

  // ---------------------------------------------------------------------------
  // getCampaignById
  // ---------------------------------------------------------------------------

  method GetCampaignById(db: Database, id: Uuid, fault: bool) returns (r: Result<Campaign>)
    ensures fault ==> r == Failure("Failed to fetch campaign")
    ensures !fault && id in db.campaigns ==> r == Success(db.campaigns[id])
    ensures !fault && id !in db.campaigns ==> r == Failure("Campaign not found")
  {
    if fault {
      return Failure("Failed to fetch campaign");
    }
    if id !in db.campaigns {
      return Failure("Campaign not found");
    }
    r := Success(db.campaigns[id]);
  }

  // ---------------------------------------------------------------------------
  // The derived response rate
  // ---------------------------------------------------------------------------

  /**
   * `Math.round((successful / total) * 100)` computed exactly: the nearest
   * integer to 100 * successful / total, halves rounded up. `None` when
   * `total` is 0, where the quotient is NaN or infinite and the integer
   * column rejects it.
   */
  function DeriveRate(successful: int, total: int): (r: Option<int>)
    ensures r.None? <==> total == 0
    ensures total > 0 ==> 2 * total * r.value <= 200 * successful + total < 2 * total * (r.value + 1)
    ensures total < 0 ==> 2 * total * r.value >= 200 * successful + total > 2 * total * (r.value + 1)
  {
    if total == 0 then None
    else if total > 0 then
      var k := (200 * successful + total) / (2 * total);
      FloorBounds(200 * successful + total, 2 * total, k);
      Some(k)
    else
      var k := (-(200 * successful + total)) / (-2 * total);
      FloorBounds(-(200 * successful + total), -2 * total, k);
      Some(k)
  }

  lemma FloorBounds(a: int, b: int, k: int)
    requires b > 0 && k == a / b
    ensures b * k <= a < b * (k + 1)
  {
    assert a == b * k + a % b;
  }

  /** With 0 <= successful <= total, the derived rate passes the CHECK constraint. */
  lemma DerivedRateInRange(successful: int, total: int)
    requires 0 <= successful <= total && total > 0
    ensures ResponseRateInRange(DeriveRate(successful, total))
  {
    var k := DeriveRate(successful, total).value;
    if k > 100 {
      assert 2 * total * k >= 2 * total * 101 by {
        MulMono(2 * total, 101, k);
      }
    }
    if k < 0 {
      assert 2 * total * k <= 2 * total * (-1) by {
        MulMono(2 * total, k, -1);
      }
    }
  }

  lemma MulMono(a: int, x: int, y: int)
    requires a >= 0 && x <= y
    ensures a * x <= a * y
  {
    assert a * y - a * x == a * (y - x);
  }

  // ---------------------------------------------------------------------------
  // createCampaign
  // ---------------------------------------------------------------------------

  /** The validated input of `createCampaign`. */
  datatype NewCampaign = NewCampaign(
    name: string,
    totalLeads: int,
    successfulLeads: int,
    responseRate: Option<int>)

  /** `responseRate ?? derived`: a supplied rate, 0 included, is kept; only an absent one is derived. */
  function CreateRate(input: NewCampaign): (r: Option<int>)
    ensures input.responseRate.Some? ==> r == input.responseRate
    ensures input.responseRate.None? ==> r == DeriveRate(input.successfulLeads, input.totalLeads)
  {
    match input.responseRate
    case Some(rate) => Some(rate)
    case None => DeriveRate(input.successfulLeads, input.totalLeads)
  }

  /** 10 successful leads out of 50, with no rate supplied, store a rate of 20. */
  lemma CreateRateExample()
    ensures CreateRate(NewCampaign("Spring outreach", 50, 10, None)) == Some(20)
  {
  }

  method CreateCampaign(db: Database, input: NewCampaign, newId: Uuid, now: Timestamp, fault: bool)
    returns (r: Result<Campaign>)
    requires db.Valid()
    modifies db
    ensures db.Valid() && db.leads == old(db.leads)
    ensures r.Success? <==>
      !fault && newId !in old(db.campaigns)
      && CreateRate(input).Some? && ResponseRateInRange(CreateRate(input))
    ensures r.Success? ==>
      && r.data == NewCampaignRow(newId, input.name, input.totalLeads, input.successfulLeads, CreateRate(input), now)
      && db.campaigns == old(db.campaigns)[newId := r.data]
    ensures r.Failure? ==> r.error == "Failed to create campaign" && db.campaigns == old(db.campaigns)
  {
    var rate := CreateRate(input);
    // NaN, a rate outside 0..100 (the CHECK) and a taken id all make the insert throw
    if fault || newId in db.campaigns || rate.None? || !ResponseRateInRange(rate) {
      return Failure("Failed to create campaign");
    }
    var row := NewCampaignRow(newId, input.name, input.totalLeads, input.successfulLeads, rate, now);
    db.campaigns := db.campaigns[newId := row];
    r := Success(row);
  }

  // ---------------------------------------------------------------------------
  // updateCampaign
  // ---------------------------------------------------------------------------

  /** The validated fields of an update; `None` leaves a column as it is. */
  datatype CampaignPatch = CampaignPatch(
    name: Option<string>,
    totalLeads: Option<int>,
    successfulLeads: Option<int>,
    responseRate: Option<int>,
    status: Option<CampaignStatus>)

  /** The rate is derived when both counts are present and non-zero and the rate is absent or 0. */
  predicate DerivesRate(p: CampaignPatch) {
    Truthy(p.totalLeads) && Truthy(p.successfulLeads) && !Truthy(p.responseRate)
  }

  /** The update data after the rate is filled in: an explicit 0 is overwritten too. */
  function WithDerivedRate(p: CampaignPatch): (q: CampaignPatch)
    ensures q.(responseRate := p.responseRate) == p
    ensures DerivesRate(p) ==> q.responseRate == DeriveRate(p.successfulLeads.value, p.totalLeads.value)
    ensures DerivesRate(p) ==> q.responseRate.Some?
    ensures !DerivesRate(p) ==> q == p
  {
    if DerivesRate(p) then p.(responseRate := DeriveRate(p.successfulLeads.value, p.totalLeads.value)) else p
  }

  /** `SET` with the columns the patch carries; the id and creation time never change. */
  function ApplyCampaignPatch(c: Campaign, p: CampaignPatch): (c': Campaign)
    ensures c'.id == c.id && c'.createdAt == c.createdAt
    ensures c'.name == p.name.GetOr(c.name)
    ensures c'.totalLeads == p.totalLeads.GetOr(c.totalLeads)
    ensures c'.successfulLeads == p.successfulLeads.GetOr(c.successfulLeads)
    ensures c'.status == p.status.GetOr(c.status)
    ensures c'.responseRate == if p.responseRate.Some? then p.responseRate else c.responseRate
  {
    c.(name := p.name.GetOr(c.name),
       totalLeads := p.totalLeads.GetOr(c.totalLeads),
       successfulLeads := p.successfulLeads.GetOr(c.successfulLeads),
       responseRate := if p.responseRate.Some? then p.responseRate else c.responseRate,
       status := p.status.GetOr(c.status))
  }

  method UpdateCampaign(db: Database, id: Uuid, patch: CampaignPatch, fault: bool) returns (r: Result<Campaign>)
    requires db.Valid()
    modifies db
    ensures db.Valid() && db.leads == old(db.leads)
    ensures fault ==> r == Failure("Failed to update campaign") && db.campaigns == old(db.campaigns)
    ensures !fault && id !in old(db.campaigns) ==>
      r == Failure("Campaign not found") && db.campaigns == old(db.campaigns)
    ensures !fault && id in old(db.campaigns) ==>
      var updated := ApplyCampaignPatch(old(db.campaigns)[id], WithDerivedRate(patch));
      if ResponseRateInRange(updated.responseRate) then
        r == Success(updated) && db.campaigns == old(db.campaigns)[id := updated]
      else
        r == Failure("Failed to update campaign") && db.campaigns == old(db.campaigns)
  {
    if fault {
      return Failure("Failed to update campaign");
    }
    var updateData := patch;
    if Truthy(updateData.totalLeads) && Truthy(updateData.successfulLeads) && !Truthy(updateData.responseRate) {
      updateData := updateData.(responseRate := DeriveRate(updateData.successfulLeads.value, updateData.totalLeads.value));
    }
    if id !in db.campaigns {
      return Failure("Campaign not found");
    }
    var updated := ApplyCampaignPatch(db.campaigns[id], updateData);
    if !ResponseRateInRange(updated.responseRate) {
      // the CHECK constraint rejects the row
      return Failure("Failed to update campaign");
    }
    db.campaigns := db.campaigns[id := updated];
    r := Success(updated);
  }

  // ---------------------------------------------------------------------------
  // deleteCampaign
  // ---------------------------------------------------------------------------

  method DeleteCampaign(db: Database, id: Uuid, fault: bool) returns (r: Result<Campaign>)
    requires db.Valid()
    modifies db
    ensures db.Valid()
    ensures fault ==> r == Failure("Failed to delete campaign")
    ensures !fault && id !in old(db.campaigns) ==> r == Failure("Campaign not found")
    ensures r.Failure? ==> db.campaigns == old(db.campaigns) && db.leads == old(db.leads)
    ensures !fault && id in old(db.campaigns) ==>
      && r == Success(old(db.campaigns)[id])
      && db.campaigns == old(db.campaigns) - {id}
      && db.leads == LeadsOutsideCampaign(old(db.leads), id)
  {
    if fault {
      return Failure("Failed to delete campaign");
    }
    if id !in db.campaigns {
      return Failure("Campaign not found");
    }
    var deleted := db.campaigns[id];
    CascadeDeleteKeepsTablesValid(db.campaigns, db.leads, id);
    db.campaigns, db.leads := db.campaigns - {id}, LeadsOutsideCampaign(db.leads, id);
    r := Success(deleted);
  }
}
