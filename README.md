# Lead and campaign dashboard — a verified model

This project models the core of a dashboard for outreach campaigns and the
leads they contain. It covers these parts:

- **Pagination helpers.** How a listing request becomes a page window, how the
  page metadata and the strip of page numbers are computed, and how the
  request round-trips through a URL query string.
- **Server actions.** The actions that list, fetch, create, update and delete
  campaigns and leads against two tables. The tables have a response-rate
  CHECK, a unique lead email, and a campaign foreign key with cascading
  delete.
- **Route guard.** Sends signed-in users away from the sign-in pages and
  signed-out users to the login page.
- **Client side.** The two client stores, and the view logic of the
  pagination control and of the three tables.

The datastore is a `Database` class that holds both tables as maps from id to
row. Every state-changing action keeps `Valid()`, meaning every table
constraint holds.

A listing is modelled the way the queries compute it:

1. A scan collects the keys of the rows that satisfy the WHERE conditions.
2. The rows are fetched and sorted in descending order.
3. A window of `limit` rows from `offset` is returned.

The count query is a separate scan with the same conditions. Each listing
method returns a ghost `listing` as a witness. Its contract says:

- the witness holds each selected row once and no other row;
- the witness is sorted by the ordering column;
- its length is the number of selected keys;
- the page is the window of the witness;
- the metadata is built from the count.

The model also takes these positions:

- **Datastore failures.** A thrown datastore error is the input `fault`. The
  current time and the generated id are inputs as well.
- **Constraint violations** are failure paths, each with the message the
  action returns:
  - a rate that breaks the CHECK constraint;
  - a duplicate email or id;
  - a missing campaign;
  - a status text that is not a `lead_status` value.
- **The derived response rate** is computed exactly. It is the nearest integer
  to `100 * successful / total`, halves rounded up. It is absent when the
  total is 0, where the floating-point quotient is not finite and the insert
  fails.
- **The route guard** receives the outcome of reading the session cookie:
  the cookie, no cookie, or a failed read.

Modules, one per file:

- `Wrappers`: `Option` and `Result`.
- `Text`: ASCII lower-casing, substring search, prefixes, decimal `toString` and `parseInt`.
- `Pagination`: the pagination helpers.
- `Query`: scan, sort, window and filter over tables and lists.
- `Schema`: rows, enums, constraints, defaults and the `Database` class.
- `CampaignActions` and `LeadActions`: the server actions.
- `Middleware`: the route guard.
- `Store`: the client stores.
- `PaginationView`, `LeadsTable`, `CampaignsTable` and `CampaignLeadsTable`: the client views.

## Model

| member | source | states |
|---|---|---|
| Pagination.CalculatePagination | src/lib/pagination.ts:44-50 | page >= 1, limit in 1..100, offset = (page-1)*limit. A missing, zero or NaN page or limit falls back to 1 or 10. A given value is clamped into range. |
| Pagination.OffsetOnPageBoundary | src/lib/pagination.ts:45-47 | The offset is a multiple of the limit, and offset / limit = page - 1. |
| Pagination.CeilDiv | src/lib/pagination.ts:60 | `Math.ceil(total / limit)` is the k with (k-1)*limit < total <= k*limit. |
| Pagination.CreatePaginationMeta | src/lib/pagination.ts:55-70 | Echoes page, limit and total. totalPages is the least number of pages that hold total rows. hasNextPage iff page < totalPages. hasPreviousPage iff page > 1. |
| Pagination.EmptyListingMeta | src/lib/pagination.ts:60-68 | A listing with no rows has 0 pages and no next page. |
| Pagination.FailureResponse | src/actions/campaigns.ts:74-79 | The failure envelope: not successful, no rows, metadata (1, 10, 0) with 0 pages and no next or previous page, and the message. |
| Pagination.Range | src/lib/pagination.ts:77 | `[lo..hi]`: its length and each element. |
| Pagination.GeneratePageNumbers | src/lib/pagination.ts:75-90 | The strip is a run of consecutive page numbers, all within 1..totalPages. |
| Pagination.PageStripShowsAllPages | src/lib/pagination.ts:76-78 | With at most maxVisible pages, the strip is exactly 1..totalPages. |
| Pagination.PageStripWindow | src/lib/pagination.ts:80-89 | With more pages, the strip has exactly maxVisible numbers inside 1..totalPages and contains the current page whenever that page exists. |
| Pagination.PageStripExamples | src/lib/pagination.ts:75-90 | For 20 pages: page 1 gives 1..5, page 20 gives 16..20, page 10 gives 8..12. |
| Pagination.CreatePaginationSearchParams | src/lib/pagination.ts:95-119 | The method's appends build exactly the entries `SearchParamsOf` describes. |
| Pagination.SearchParamsEncode | src/lib/pagination.ts:98-116 | page is present only when > 1. limit is present only when truthy and not 10. search and campaign are present when non-empty. status is present when non-empty and not "all". No other key is present. |
| Pagination.SearchParamsInKeyOrder | src/lib/pagination.ts:95-119 | Only the five keys appear, each at most once, in the order page, limit, search, status, campaign. |
| Pagination.ParsePaginationParams | src/lib/pagination.ts:124-132 | Both directions, for any query: search, status and campaign are set exactly when the query holds a non-empty value under their key, and then hold that value. page and limit are `parseInt` of their value when it is non-empty, and absent otherwise. |
| Pagination.SearchParamsRoundTrip | src/lib/pagination.ts:124-132 | Parsing any query that encodes the parameters gives the parameters without their defaults and empty strings. |
| Pagination.CreateThenParse | src/lib/pagination.ts:95-132 | Parsing the query built from the parameters gives them back without their defaults. |
| Pagination.NormalizeKeepsWindow | src/lib/pagination.ts:98-104 | Dropping what the query string drops never changes the page window. |
| Text.Lower | src/components/campaigns/campaigns-table.tsx:42 | `toLowerCase` keeps the length and lowers each character. |
| Text.EmptyIsEverywhere | src/components/campaigns/campaigns-table.tsx:41-43 | The empty string occurs in every string, ignoring case. |
| Text.ParseIntOfIntToString | src/lib/pagination.ts:126-127 | `parseInt` of the decimal text of n gives n, for every integer n. |
| Text.ParseInt | src/lib/pagination.ts:126-127 | NaN exactly when no digit follows the white space and sign. |
| Query.AllOfPush | src/actions/campaigns.ts:25-48 | `conditions.push(c)` followed by `and(...conditions)`: a row passes the longer list iff it passes the old list and the new condition. |
| Query.SelectKeys | src/actions/campaigns.ts:44-49 | The scan returns each key whose row passes the conditions, each once, and only those. Their number is the size of the matching set. |
| Query.SortDesc | src/actions/campaigns.ts:52-55 | `ORDER BY ... DESC` gives a permutation of the rows, sorted descending. |
| Query.Window | src/actions/campaigns.ts:63 | `LIMIT limit OFFSET offset` keeps at most limit rows: exactly the rows from offset on, in order. |
| Query.WindowSorted | src/actions/leads.ts:77-80 | A window of a sorted listing is sorted. |
| Query.WindowsTile | src/actions/leads.ts:79-80 | Two consecutive pages together are the double-size page. |
| Query.ListingOfSelection | src/actions/campaigns.ts:52-63 | Fetching and sorting the selected rows yields each selected row once, sorted, as many as the count. |
| Query.Filter | src/components/campaigns/campaigns-table.tsx:41-43 | `Array.filter` keeps exactly the elements that pass: every copy of a passing element and none of a failing one (counted as multisets), as an order-preserving subsequence. A list whose elements all pass is kept whole. |
| Schema.ParseLeadStatus | src/db/schema.ts:74-79 | A text is read as a `lead_status` value only when it is that value's label. |
| Schema.LeadStatusNameRoundTrip | src/db/schema.ts:74-79 | Every status reads back from its own label. |
| Schema.LeadsOutsideCampaign | src/db/schema.ts:94-96 | `ON DELETE CASCADE` keeps exactly the leads of other campaigns, unchanged. |
| Schema.CascadeDeleteKeepsTablesValid | src/db/schema.ts:94-96 | Deleting a campaign with its leads keeps every constraint. |
| Schema.DeleteWithoutCascadeDangles | src/db/schema.ts:94-96 | Deleting a campaign without its leads would break the foreign key. |
| Schema.NewCampaignRow | src/db/schema.ts:107-116 | A new campaign is active and created now. |
| Schema.NewLeadRow | src/db/schema.ts:88-102 | A new lead is pending unless a status is given, and its contact time is now. |
| CampaignActions.CampaignConditions | src/actions/campaigns.ts:25-41 | A campaign passes all conditions iff its name contains the search ignoring case, "active" holds only for active campaigns, and "inactive" holds only for the others. Also states the number of conditions. |
| CampaignActions.InactiveIsDraftPausedOrCompleted | src/actions/campaigns.ts:32-40 | "inactive" selects exactly the draft, paused and completed campaigns. |
| CampaignActions.OtherStatusSelectsAll | src/actions/campaigns.ts:29-41 | Any other status text filters nothing. |
| CampaignActions.GetAllCampaigns | src/actions/campaigns.ts:18-81 | On a fault, the failure envelope. Otherwise the page is the window of the selected campaigns, newest first, and the metadata counts all selected campaigns. |
| CampaignActions.GetCampaignById | src/actions/campaigns.ts:83-109 | The stored campaign; "Campaign not found"; on a fault "Failed to fetch campaign". |
| CampaignActions.DeriveRate | src/actions/campaigns.ts:127-133 | `Math.round(s / t * 100)`: the k with 2tk <= 200s + t < 2t(k+1), mirrored for t < 0. Absent iff t = 0. |
| CampaignActions.DerivedRateInRange | src/actions/campaigns.ts:127-133 | For 0 <= s <= t with t > 0, the derived rate passes the CHECK. |
| CampaignActions.CreateRate | src/actions/campaigns.ts:127-133 | `??`: a given rate, 0 included, is kept. Only a missing rate is derived. |
| CampaignActions.CreateRateExample | src/actions/campaigns.ts:127-133 | 10 successful of 50 store a rate of 20. |
| CampaignActions.CreateCampaign | src/actions/campaigns.ts:111-157 | Succeeds iff there is no fault, the id is free, and the rate is finite and in 0..100. The stored row is active, created now, with that rate. Otherwise "Failed to create campaign" and nothing changes. |
| CampaignActions.WithDerivedRate | src/actions/campaigns.ts:179-187 | The rate is overwritten, an explicit 0 included, exactly when both counts are non-zero and the rate is missing or 0. Nothing else changes. |
| CampaignActions.ApplyCampaignPatch | src/actions/campaigns.ts:189-193 | Each given column is replaced. The id and creation time stay. |
| CampaignActions.UpdateCampaign | src/actions/campaigns.ts:159-216 | A fault; otherwise an unknown id gives "Campaign not found"; otherwise a rate outside 0..100 fails; otherwise the updated row is stored and returned. |
| CampaignActions.DeleteCampaign | src/actions/campaigns.ts:218-246 | Removes the campaign and, by cascade, its leads, and returns the deleted row; "Campaign not found"; a fault. |
| LeadActions.Joined | src/actions/leads.ts:56-70 | The left join adds the campaign's name, or nothing when no campaign matches. |
| LeadActions.JoinedTable | src/actions/leads.ts:69-70 | The joined relation has one row per lead. |
| LeadActions.JoinFindsEveryCampaign | src/actions/leads.ts:70 | Under the foreign key, every lead's row carries its campaign's name. |
| LeadActions.LeadConditions | src/actions/leads.ts:25-43 | A row passes all conditions iff it matches the status, the campaign name and the search. The query is rejected iff the status is not a `lead_status` value. Also states the number of conditions. |
| LeadActions.StatusFilterSelectsExactly | src/actions/leads.ts:28-35 | A status label keeps exactly the leads in that status. |
| LeadActions.StatusAllFiltersNothing | src/actions/leads.ts:28 | Status "all" filters nothing. |
| LeadActions.CampaignFilterFollowsForeignKey | src/actions/leads.ts:37-39 | The campaign filter keeps a lead iff its campaign's name contains the text. |
| LeadActions.GetAllLeads | src/actions/leads.ts:19-98 | A fault or an unknown status gives "Failed to fetch leads". Otherwise the page is the window of the selected joined rows, most recently contacted first, with metadata over all of them. |
| LeadActions.ToActivity | src/actions/leads.ts:165-169 | An activity item shows the company as its title and repeats the campaign name. |
| LeadActions.ActivityParams | src/actions/leads.ts:132-135 | `limit \|\| 10`: a falsy limit becomes 10, a truthy one is kept. |
| LeadActions.ActivityWindowIsDefaultWindow | src/actions/leads.ts:132-135 | That substitution never changes the window. |
| LeadActions.GetRecentActivity | src/actions/leads.ts:128-181 | All leads, unfiltered, most recently contacted first. The total counts every lead. The items are the activity items of the window. |
| LeadActions.GetLeadById | src/actions/leads.ts:100-126 | The stored lead; "Lead not found"; "Failed to fetch lead". |
| LeadActions.DeleteLead | src/actions/leads.ts:324-352 | Removes and returns the lead; "Lead not found"; "Failed to delete lead". |
| LeadActions.CreateLead | src/actions/leads.ts:183-225 | Invalid without a title or a campaign. Stored iff there is no fault, the id and email are free, and the campaign exists. A taken id or email gives the duplicate-email message; everything else gives "Failed to create lead". |
| LeadActions.ApplyLeadChanges | src/actions/leads.ts:245-256 | Each given field is replaced. The contact time becomes now exactly when a status is given. |
| LeadActions.ContactTimeMovesOnlyWithStatus | src/actions/leads.ts:247-250 | The contact time changes only when a status is given. |
| LeadActions.UpdateLead | src/actions/leads.ts:227-285 | A fault; "Lead not found"; a new email taken by another lead gives the duplicate-email message; otherwise the changed lead is stored. |
| LeadActions.UpdateLeadStatus | src/actions/leads.ts:287-322 | Sets the status and stamps the contact time; "Lead not found"; "Failed to update lead status". |
| LeadActions.StatusChangeIsStatusOnlyUpdate | src/actions/leads.ts:292-297 | A status change equals the general update with only a status. |
| Middleware.LoginRedirect | src/middleware.ts:33-37 | Redirect to /login, with callbackUrl = pathname except for "/". |
| Middleware.Decide | src/middleware.ts:14-51 | Signed in on a sign-in page gives /. Signed out on a protected page gives /login. A failed cookie read sends every path with a protected-route prefix to /login. Redirect iff the applicable test holds. |
| Middleware.ProtectedRouteExamples | src/middleware.ts:22-24 | "/leads/1" is protected; "/leadsx" and "/messages" are not. |
| Middleware.NoAuthRouteIsProtected | src/middleware.ts:4-12 | No sign-in page is protected, so at most one redirect rule applies. |
| Middleware.RedirectsSettle | src/middleware.ts:26-40 | With a readable cookie, the page a redirect leads to is let through. |
| Middleware.ErrorPathRedirectsEveryPath | src/middleware.ts:44-47 | On a failed read, every path starting with "/" goes to /login with no callback. |
| Middleware.ErrorPathLoopsOnLogin | src/middleware.ts:44-47 | On a failed read, /login redirects to itself. |
| Middleware.DecideIntended | src/middleware.ts:44-47 | The error path restricted to protected routes. It agrees with `Decide` whenever the cookie is read. |
| Middleware.IntendedRedirectsSettle | src/middleware.ts:44-47 | With the restricted error path, every redirect reaches a page that is let through. |
| Middleware.Middleware | src/middleware.ts:53-57 | Paths the matcher skips pass untouched; matched paths get the guard's decision. |
| Middleware.SkippedRequestsPass | src/middleware.ts:53-57 | API calls and image files pass even when the cookie cannot be read. |
| Store.AppStore.constructor | src/lib/store.ts:58-66 | Sidebar expanded, nothing selected, detail closed, empty filters, status filter "all". |
| Store.AppStore.ToggleSidebar | src/lib/store.ts:69-70 | Negates the sidebar flag and changes nothing else. |
| Store.AppStore.SetSelectedLead | src/lib/store.ts:71 | Replaces the selected lead only. |
| Store.AppStore.SetSelectedCampaign | src/lib/store.ts:72 | Replaces the selected campaign only. |
| Store.AppStore.SetLeadDetailOpen | src/lib/store.ts:73 | Replaces the detail flag only. |
| Store.AppStore.SetLeadsFilter | src/lib/store.ts:74 | Replaces the leads filter only. |
| Store.AppStore.SetCampaignsFilter | src/lib/store.ts:75 | Replaces the campaigns filter only. |
| Store.AppStore.SetStatusFilter | src/lib/store.ts:76 | Replaces the status filter only. |
| Store.ToggleSidebarTwice | src/lib/store.ts:69-70 | Toggling twice restores the whole state. |
| Store.AuthStore.constructor | src/lib/store.ts:79-80 | No user at first. |
| Store.AuthStore.Login | src/lib/store.ts:81 | Sets the user. |
| Store.AuthStore.Logout | src/lib/store.ts:82 | Clears the user. |
| PaginationView.SizeChoices | src/components/ui/pagination.tsx:70-74 | One choice per page size, each its decimal text. |
| PaginationView.SizeChoicesReportTheirSize | src/components/ui/pagination.tsx:62-74 | Picking a choice reports exactly its size: 5, 10, 20 or 50. |
| PaginationView.PageStrip | src/components/ui/pagination.tsx:108-121 | One button per strip number. Only the current page is highlighted. |
| PaginationView.Render | src/components/ui/pagination.tsx:32-149 | Nothing when there is at most one page. Otherwise it states the range label, whether the size selector shows, the four button targets and their enabling, and the strip. A shown selector holds the current limit's decimal text as its value and the texts of 5, 10, 20 and 50 as its choices. |
| PaginationView.ControlsStayInRange | src/components/ui/pagination.tsx:85-145 | For listing metadata on an existing page, every enabled button leads to an existing page and exactly one strip button is highlighted. |
| PaginationView.RangeLabelCountsPageRows | src/components/ui/pagination.tsx:47-48 | On an existing page, the label (RangeStart, RangeEnd, which Render shows as startItem and endItem) starts right after the page's offset, and end - start + 1 is the number of rows the listing's window from that offset holds. |
| PaginationView.RenderSimple | src/components/ui/pagination.tsx:158-196 | Nothing for at most one page; otherwise the previous and next buttons and "page of totalPages". |
| PaginationView.SimpleIsPartOfFull | src/components/ui/pagination.tsx:158-196 | The compact control shows when the full one does, with the same previous and next buttons. |
| LeadsTable.LeadsTableState.constructor | src/components/leads/leads-table.tsx:45-48 | Page 1 of 10, unfiltered. The window is (1, 10, 0). |
| LeadsTable.LeadsTableState.OnDebouncedSearch | src/components/leads/leads-table.tsx:51-57 | Back to page 1 with offset 0 and the same limit. An empty search is stored as absent. |
| LeadsTable.LeadsTableState.OnPageChange | src/components/leads/leads-table.tsx:73-75 | Replaces the page only. |
| LeadsTable.LeadsTableState.OnPageSizeChange | src/components/leads/leads-table.tsx:77-79 | Sets the limit and returns to page 1; the search is kept. |
| LeadsTable.SearchResetsPage | src/components/leads/leads-table.tsx:51-57 | A search after any page change lands on offset 0 with the same limit. |
| LeadsTable.Shown | src/components/leads/leads-table.tsx:65-66 | Rows and metadata only for a successful response; otherwise no rows and no metadata. |
| LeadsTable.FailureShowsNothing | src/components/leads/leads-table.tsx:65-66 | A failed listing shows nothing. |
| LeadsTable.TableBody | src/components/leads/leads-table.tsx:112-136 | Each body, as an iff: the spinner exactly while loading; the error exactly when not loading and the query threw (its `error`, which a caught failure returning `success: false` never sets); "no leads" exactly when neither and the list is empty; otherwise the rows themselves. |
| LeadsTable.FailureEnvelopeShowsNoLeads | src/components/leads/leads-table.tsx:112-136 | A listing that answers with the failure envelope does not set the query error, so the body is "No leads found", not the error message. |
| LeadsTable.DisplayedStatus | src/components/leads/leads-table.tsx:169 | A missing status displays as pending. |
| LeadsTable.BadgeFollowsDisplayedStatus | src/components/leads/leads-table.tsx:169-185 | The badge text agrees with the status the icon and colour use, and a missing status reads as pending. |
| LeadsTable.Subtitle | src/components/leads/leads-table.tsx:158 | The email, or the title when the email is empty. |
| CampaignsTable.Fetched | src/components/campaigns/campaigns-table.tsx:39 | The data of a successful response, otherwise nothing. |
| CampaignsTable.FilteredCampaigns | src/components/campaigns/campaigns-table.tsx:41-43 | Exactly the fetched campaigns whose name contains the filter ignoring case, each with as many copies as were fetched, in fetched order. |
| CampaignsTable.EmptyFilterKeepsAll | src/components/campaigns/campaigns-table.tsx:41-43 | An empty filter shows every fetched campaign. |
| CampaignsTable.FailureShowsNone | src/components/campaigns/campaigns-table.tsx:39-43 | A failed response shows no campaign. |
| CampaignLeadsTable.FilteredLeads | src/components/campaigns/campaign-leads-table.tsx:36-40 | Missing leads stay missing. Otherwise exactly the leads whose name or company contains the search ignoring case, each with as many copies as given, in order. |
| CampaignLeadsTable.EmptyFilterKeepsAll | src/components/campaigns/campaign-leads-table.tsx:36-40 | An empty search shows every lead. |
| CampaignLeadsTable.NameMatchIsShown | src/components/campaigns/campaign-leads-table.tsx:36-40 | A name match is shown whatever the company. |
| CampaignLeadsTable.StatusBadge | src/components/campaigns/campaign-leads-table.tsx:112-118 | pending gives "Pending Approval", contacted "Sent 7 mins ago", responded "Followup 10 mins ago"; converted or no status gives "Do Not Contact"; each iff. |

## Left out

- Input validation by the generated insert and update schemas is only partly modelled:
  - A lead insert fails validation without a title or a campaign id; that is modelled.
  - The 32-bit range of integer columns is not modelled.
  - UUID syntax of ids is not modelled; a non-UUID id makes the query throw.
  - Non-integer numbers are not modelled.
  - The update actions have no validation-failure path in the model.
- Validation error objects: they are not strings and are modelled as the single outcome `Invalid`.
- Extra fields at runtime: `campaignName` in the lead actions' parameters is dropped by validation. The declared input of `createLead` has no title and no campaign id, yet both columns are required. The model takes both as optional inputs of `LeadActions.LeadInput`, so a call that carries only the declared fields is `Invalid`. No other undeclared field is modelled.
- An update with no columns to set: Drizzle rejects it. The model applies it as an update that changes nothing.
- ILIKE wildcards: `%` and `_` inside a search text act as wildcards in SQL. The model treats them literally.
- Case folding: only ASCII letters are lowered. Unicode case folding in `toLowerCase` and ILIKE is not modelled.
- Floating point: `Math.round` of the rate quotient is computed exactly. Rounding errors of double arithmetic are not modelled. Numbers are integers throughout.
- `parseInt`: only base 10 is modelled. Hexadecimal prefixes and Unicode white space are not.
- Nullable columns: lead status, contact time, campaign status and campaign creation time are stored as non-null, since every modelled write sets them (campaign status through its `active` default). The client `Store.Lead` keeps both nullable fields.
- Ordering of equal keys: rows with equal sort keys come back in an unspecified order. The model states only that the listing is sorted.
- Concurrency: the count and data queries run without a transaction. The model reads both from the same state.
- Error text of unexpected failures: a datastore failure always maps to the generic message. A driver error whose text happens to contain "unique" would show the duplicate-email message.
- Side effects: `revalidatePath`, `console.error`, React rendering, CSS classes, emoji glyphs, avatar initials, the search debounce timer and the query cache are not modelled.
- The authentication tables (`user`, `session`, `account`, `verification`) are not modelled. The session cookie's contents are an input, not computed.
- Redirects are modelled as a target path and callback only; the request origin is not modelled.
- Middleware.Middleware: the route matcher is modelled as prefix and suffix tests on the path, not as a general regular expression.

## Findings

| source | as written | input that shows it | evidently intended | confidence | as-written member | corrected member |
|---|---|---|---|---|---|---|
| src/middleware.ts:44-47 | When reading the session cookie fails, the test `pathname.startsWith(route)` includes the route "/", which prefixes every path. So every path, /login included, is redirected to /login. | pathname "/login" with a failed cookie read | As its comment says, redirect only protected routes, so the login page stays reachable and no redirect loop arises | medium; not executed (depends on the cookie read failing repeatedly) | Middleware.ErrorPathLoopsOnLogin | Middleware.DecideIntended |

`Middleware.Middleware` keeps the decision as written. `Middleware.DecideIntended` and `Middleware.IntendedRedirectsSettle` state the corrected behaviour beside it.
