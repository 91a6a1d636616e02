/**
 * The two application tables: campaigns and the leads that belong to them,
 * their status enumerations and column defaults, and the constraints the
 * database enforces on them (the response-rate CHECK, the unique lead email,
 * the campaign foreign key with cascading delete).
 */
module Schema {
  import opened Wrappers

  /** A primary key (a UUID, as text). */
  type Uuid = string

  /** A point in time (a `timestamp with time zone`), in milliseconds. */
  type Timestamp = int

  datatype LeadStatus = Pending | Contacted | Responded | Converted

  datatype CampaignStatus = Draft | Active | Paused | Completed

  const DefaultLeadStatus: LeadStatus := Pending
  const DefaultCampaignStatus: CampaignStatus := Active

  /** The label of a `lead_status` value. */
  function LeadStatusName(s: LeadStatus): string {
    match s
    case Pending => "pending"
    case Contacted => "contacted"
    case Responded => "responded"
    case Converted => "converted"
  }

  /** Reading text as a `lead_status` value; `None` when the database would reject the text. */
  function ParseLeadStatus(name: string): (r: Option<LeadStatus>)
    ensures r.Some? ==> LeadStatusName(r.value) == name
  {
    if name == "pending" then Some(Pending)
    else if name == "contacted" then Some(Contacted)
    else if name == "responded" then Some(Responded)
    else if name == "converted" then Some(Converted)
    else None
  }

  /** Every `lead_status` value reads back from its own label, so the four labels are distinct. */
  lemma LeadStatusNameRoundTrip(s: LeadStatus)
    ensures ParseLeadStatus(LeadStatusName(s)) == Some(s)
  {
  }

  datatype Campaign = Campaign(
    id: Uuid,
    name: string,
    status: CampaignStatus,
    totalLeads: int,
    successfulLeads: int,
    responseRate: Option<int>,
    createdAt: Timestamp)

  datatype Lead = Lead(
    id: Uuid,
    name: string,
    email: string,
    company: string,
    title: string,
    campaignId: Uuid,
    status: LeadStatus,
    lastContactDate: Timestamp)

  /** The `response_rate_percentage` CHECK: a NULL rate passes, a present one lies in 0..100. */
  predicate ResponseRateInRange(rate: Option<int>) {
    rate.None? || 0 <= rate.value <= 100
  }

  ghost predicate CampaignsValid(campaigns: map<Uuid, Campaign>) {
    forall id :: id in campaigns ==>
      campaigns[id].id == id && ResponseRateInRange(campaigns[id].responseRate)
  }

  /** Every lead is stored under its own id and refers to an existing campaign. */
  ghost predicate LeadsValid(campaigns: map<Uuid, Campaign>, leads: map<Uuid, Lead>) {
    forall id :: id in leads ==> leads[id].id == id && leads[id].campaignId in campaigns
  }

  /** The UNIQUE constraint on `leads.email`. */
  ghost predicate EmailsUnique(leads: map<Uuid, Lead>) {
    forall a, b :: a in leads && b in leads && a != b ==> leads[a].email != leads[b].email
  }

  ghost predicate TablesValid(campaigns: map<Uuid, Campaign>, leads: map<Uuid, Lead>) {
    CampaignsValid(campaigns) && LeadsValid(campaigns, leads) && EmailsUnique(leads)
  }

  /** Whether a lead other than `except` already uses `email`. */
  predicate EmailTaken(leads: map<Uuid, Lead>, email: string, except: Uuid) {
    exists id :: id in leads && id != except && leads[id].email == email
  }

  /** The leads left once the campaign `campaignId` is deleted (`ON DELETE CASCADE`). */
  function LeadsOutsideCampaign(leads: map<Uuid, Lead>, campaignId: Uuid): (r: map<Uuid, Lead>)
    ensures forall id :: id in r <==> id in leads && leads[id].campaignId != campaignId
    ensures forall id :: id in r ==> r[id] == leads[id]
  {
    map id | id in leads && leads[id].campaignId != campaignId :: leads[id]
  }

  /** Deleting a campaign together with its leads keeps every constraint. */
  lemma CascadeDeleteKeepsTablesValid(campaigns: map<Uuid, Campaign>, leads: map<Uuid, Lead>, id: Uuid)
    requires TablesValid(campaigns, leads)
    ensures TablesValid(campaigns - {id}, LeadsOutsideCampaign(leads, id))
  {
    var leads' := LeadsOutsideCampaign(leads, id);
    forall a, b | a in leads' && b in leads' && a != b
      ensures leads'[a].email != leads'[b].email
    {
      assert leads'[a] == leads[a] && leads'[b] == leads[b];
    }
  }

  /** Deleting a campaign without its leads would leave dangling references. */
  lemma DeleteWithoutCascadeDangles(campaigns: map<Uuid, Campaign>, leads: map<Uuid, Lead>, lead: Uuid)
    requires TablesValid(campaigns, leads) && lead in leads
    ensures !LeadsValid(campaigns - {leads[lead].campaignId}, leads)
  {
  }

  /** The row an insert stores: `status` defaults to active, `created_date` to the insertion time. */
  function NewCampaignRow(id: Uuid, name: string, totalLeads: int, successfulLeads: int,
                          responseRate: Option<int>, now: Timestamp): (c: Campaign)
    ensures c.status == DefaultCampaignStatus && c.createdAt == now
  {
    Campaign(id, name, DefaultCampaignStatus, totalLeads, successfulLeads, responseRate, now)
  }

  /** The row an insert stores: `status` defaults to pending, `last_contact_date` to the insertion time. */
  function NewLeadRow(id: Uuid, name: string, email: string, company: string, title: string,
                      campaignId: Uuid, status: Option<LeadStatus>, now: Timestamp): (l: Lead)
    ensures l.status == if status.Some? then status.value else DefaultLeadStatus
    ensures l.lastContactDate == now
  {
    Lead(id, name, email, company, title, campaignId, status.GetOr(DefaultLeadStatus), now)
  }

  /** The database: both tables, which always satisfy their constraints. */
  class Database {
    var campaigns: map<Uuid, Campaign>
    var leads: map<Uuid, Lead>

    ghost predicate Valid()
      reads this
    {
      TablesValid(campaigns, leads)
    }

    constructor ()
      ensures Valid()
      ensures campaigns == map[] && leads == map[]
    {
      campaigns := map[];
      leads := map[];
    }
  }
}
