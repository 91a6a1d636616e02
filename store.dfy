/**
 * The client-side stores: the application UI state (sidebar, selections,
 * detail panel, filter texts) and the signed-in user. Each action replaces
 * its own fields and keeps the others.
 */
module Store {
  import opened Wrappers
  import Schema

  /** A lead as the client holds it: the status and contact time may be null. */
  datatype Lead = Lead(
    id: string,
    name: string,
    email: string,
    company: string,
    title: string,
    campaignName: string,
    status: Option<Schema.LeadStatus>,
    lastContactDate: Option<Schema.Timestamp>)

  datatype Campaign = Campaign(
    id: string,
    name: string,
    status: Schema.CampaignStatus,
    totalLeads: int,
    successfulLeads: int,
    responseRate: int,
    createdAt: string)

  datatype User = User(id: string, name: string, email: string, avatar: Option<string>)

  /** A snapshot of the application store. */
  datatype AppState = AppState(
    sidebarCollapsed: bool,
    selectedLead: Option<Lead>,
    selectedCampaign: Option<Campaign>,
    leadDetailOpen: bool,
    leadsFilter: string,
    campaignsFilter: string,
    statusFilter: string)

  const InitialAppState := AppState(false, None, None, false, "", "", "all")

  class AppStore {
    var sidebarCollapsed: bool
    var selectedLead: Option<Lead>
    var selectedCampaign: Option<Campaign>
    var leadDetailOpen: bool
    var leadsFilter: string
    var campaignsFilter: string
    var statusFilter: string

    function State(): AppState
      reads this
    {
      AppState(sidebarCollapsed, selectedLead, selectedCampaign, leadDetailOpen,
               leadsFilter, campaignsFilter, statusFilter)
    }

    /** Sidebar expanded, nothing selected, detail closed, empty filters, every status. */
    constructor ()
      ensures State() == InitialAppState
    {
      sidebarCollapsed := false;
      selectedLead := None;
      selectedCampaign := None;
      leadDetailOpen := false;
      leadsFilter := "";
      campaignsFilter := "";
      statusFilter := "all";
    }

    method ToggleSidebar()
      modifies this
      ensures State() == old(State()).(sidebarCollapsed := !old(sidebarCollapsed))
    {
      sidebarCollapsed := !sidebarCollapsed;
    }

    method SetSelectedLead(lead: Option<Lead>)
      modifies this
      ensures State() == old(State()).(selectedLead := lead)
    {
      selectedLead := lead;
    }

    method SetSelectedCampaign(campaign: Option<Campaign>)
      modifies this
      ensures State() == old(State()).(selectedCampaign := campaign)
    {
      selectedCampaign := campaign;
    }

    method SetLeadDetailOpen(open: bool)
      modifies this
      ensures State() == old(State()).(leadDetailOpen := open)
    {
      leadDetailOpen := open;
    }

    method SetLeadsFilter(filter: string)
      modifies this
      ensures State() == old(State()).(leadsFilter := filter)
    {
      leadsFilter := filter;
    }

    method SetCampaignsFilter(filter: string)
      modifies this
      ensures State() == old(State()).(campaignsFilter := filter)
    {
      campaignsFilter := filter;
    }

    method SetStatusFilter(filter: string)
      modifies this
      ensures State() == old(State()).(statusFilter := filter)
    {
      statusFilter := filter;
    }
  }

  /** Toggling the sidebar twice restores the whole state. */
  method ToggleSidebarTwice(store: AppStore)
    modifies store
    ensures store.State() == old(store.State())
  {
    store.ToggleSidebar();
    store.ToggleSidebar();
  }

  class AuthStore {
    var user: Option<User>

    constructor ()
      ensures user == None
    {
      user := None;
    }

    method Login(u: User)
      modifies this
      ensures user == Some(u)
    {
      user := Some(u);
    }

    method Logout()
      modifies this
      ensures user == None
    {
      user := None;
    }
  }
}
