# Tenant console: proxy, client and dashboard rules in Dafny

This project models the decision and derivation rules of a tenant-management
web console. The console lists and creates tenants through a server-side proxy
(`/api/tenants`). It fetches tenant reports from a reporting proxy through a
small typed client. It guards its dashboard pages with a session value, and it
derives "this month" figures from a report's daily metric points.

Everything the console hands to the outside world is an input or an output of
the model:

- the outcome of every `fetch` is an `Http.HttpOutcome`: a transport failure
  with the runtime's message, or a reply with status, status text and a body
  that either parses or fails to parse with a message;
- session storage is a `map<string, string>`;
- router pushes and requests sent are logs (`seq`);
- calls to a parent's callback (`onSuccess`, `onRefresh`) are counters.

One Dafny module per source file:

| file | module | form |
|---|---|---|
| `http.dfy` | `Http` | shared vocabulary: `Option`, `Result`, `Body`, `HttpOutcome`, JavaScript truthiness, the parse-or-fall-back combinator |
| `tenants_route.dfy` | `TenantsRoute` | the `GET`/`POST` handlers as functions from upstream outcome to (status, body) |
| `report_api.dfy` | `ReportApi` | request paths and the error-message chain of the six getters |
| `dashboard_home.dfy` | `DashboardHome` | the month window and deltas (functions), the load effect (class `HomePage`) |
| `dashboard_layout.dfy` | `DashboardLayout` | the guard decision (function) and its effect and logout (class `Shell`) |
| `dashboard_sidebar.dfy` | `DashboardSidebar` | the fixed link list and the active-link rule |
| `tenant_list.dfy` | `TenantList` | row display decisions (functions) and the open-form slot (class `TenantListState`) |
| `create_tenant_form.dfy` | `CreateTenantForm` | message chain and field update (functions), submit state (class `Form`) |
| `create_admin_user_form.dfy` | `CreateAdminUserForm` | target URL, message choice, field update, submit state (class `Form`) |

A parsed JSON body is modelled as its payload, which the model treats as opaque
and only relays. Alongside the payload it keeps the map of the body's
string-valued top-level properties. Those properties are the only part of a
body any error path reads. JavaScript's `a || b` on such values is
`Http.Or`/`Http.OrElse`, where only a present, non-empty string is truthy.

Behaviour of the code that is easy to misread:

- The storage figure on the dashboard home page (`mediaThisMonth`) is computed
  over the whole metrics sequence, not over the month window as the user and
  trip figures are. `DashboardHome.MediaIncludesPreWindowGrowth` states exactly
  what it adds. `DashboardHome.StorageCountsOutsideTheMonth` exhibits a report
  with no point in the month that still shows storage growth.
- A failed tenant creation reads the upstream body's `message` property, not an
  `error` property.
- A listing or creation whose upstream answers ok with a body that is not JSON
  ends in the handler's `catch`, so the proxy answers 503, not 200/201.
- Every rejection of `getTenantReport` is an `Error` instance. So the dashboard
  home page's `'Failed to load dashboard data'` fallback
  (`Http.CaughtMessage` with a non-`Error`) cannot be reached from the modelled
  fetch.

## Model

| member | source | states |
|---|---|---|
| `Http.ParseOr` | app/api/tenants/route.ts:47 | a body that parses yields its own properties; one that does not yields the fallback object |
| `Http.Or` | lib/reportApi.ts:116 | JavaScript `or` with a literal: the operand when it is a non-empty string, else the literal; the result is empty only if the literal is |
| `Http.OrElse` | components/CreateTenantForm.tsx:34 | JavaScript `or` on two optional strings: the result is truthy iff either operand is, and it is the first truthy one |
| `Http.CaughtMessage` | components/CreateTenantForm.tsx:40-41 | a caught `Error` yields its message; any other thrown value yields the fallback text |
| `TenantsRoute.ApiBaseUrl` | app/api/tenants/route.ts:3 | the first non-empty of the two environment settings, else the localhost default; never empty |
| `TenantsRoute.UnavailableResponse` | app/api/tenants/route.ts:25-31 | status 503, an error envelope without a status, a message ending in "may be unavailable." |
| `TenantsRoute.ListTenants` | app/api/tenants/route.ts:5-32 | always one GET to base + `/rest/v1/tenants`; ok and parsable relays the body with 200; non-ok passes the status through with `{error:'Failed to fetch tenants', status}`; a transport failure or an unparsable ok body gives 503 |
| `TenantsRoute.CreateFailureMessage` | app/api/tenants/route.ts:46-52 | the upstream's non-empty `message` when the body parses, else 'Failed to create tenant'; never empty |
| `TenantsRoute.CreateTenant` | app/api/tenants/route.ts:34-63 | an unparsable incoming body gives 503 and no upstream call; otherwise one POST of the parsed body; ok and parsable relays with 201; non-ok passes the status through with `CreateFailureMessage`; a transport failure or an unparsable ok body gives 503 |
| `TenantsRoute.ListStatusAccountedFor` | app/api/tenants/route.ts:5-32 | the listing answers 200, 503 or the upstream's own non-ok status, never 201 |
| `TenantsRoute.CreateStatusAccountedFor` | app/api/tenants/route.ts:34-63 | creation answers 201, 503 or the upstream's own non-ok status, never 200 |
| `TenantsRoute.RelayExactlyOnSuccess` | app/api/tenants/route.ts:5-63 | both handlers relay a payload iff the upstream answered ok with a parsable body (and, for POST, the request parsed), relay it unchanged, and otherwise answer an error envelope with a non-ok status |
| `TenantsRoute.CreateNotFoundExample` | app/api/tenants/route.ts:46-52 | an upstream 404 with `{"message":"not found"}` becomes a 404 with error "not found" |
| `ReportApi.NatToDecimal` | lib/reportApi.ts:112 | the numeral of `${days}` is non-empty, all digits, and has no leading zero |
| `ReportApi.IntToDecimal` | lib/reportApi.ts:112 | a non-negative window renders as its plain numeral; a negative one with a leading minus sign before the numeral of its magnitude |
| `ReportApi.DecimalRoundTrip` | lib/reportApi.ts:112 | the rendered numeral denotes exactly the window that was passed |
| `ReportApi.DecimalInjective` | lib/reportApi.ts:112 | different windows render differently |
| `ReportApi.RequestPath` | lib/reportApi.ts:111-167 | every path starts with `/api/reports/tenant/` + tenantId (verbatim) + the resource segment; windowed getters append `?days=` + the window, or `?days=30` when it is omitted; pricing appends nothing |
| `ReportApi.OmittedWindowIsDefault` | lib/reportApi.ts:111-156 | omitting the window requests the same path as passing 30 |
| `ReportApi.PricingIgnoresDays` | lib/reportApi.ts:166-167 | the pricing path is the same for every window and ends in `/pricing` |
| `ReportApi.WindowedPathCarriesDays` | lib/reportApi.ts:111-156 | a windowed path ends in `?days=` + a numeral that denotes the window |
| `ReportApi.FailureMessage` | lib/reportApi.ts:114-116 | a parsed non-empty `error` is the message; an unparsable body gives the per-resource fallback; a parsed body without `error` gives "Failed to fetch <noun>: " + statusText; never empty |
| `ReportApi.Fetch` | lib/reportApi.ts:111-120 | a transport failure and an unparsable ok body reject with the runtime's message; non-ok rejects with `FailureMessage`; an ok reply resolves to the parsed payload |
| `ReportApi.FetchOkExactly` | lib/reportApi.ts:119 | a getter resolves iff the reply is ok and parses, and then to the payload itself, unvalidated |
| `DashboardHome.ThisMonth` | app/dashboard/page.tsx:56-61 | the window holds exactly the points dated on or after the month start, and is no longer than the input |
| `DashboardHome.ThisMonthAppend` | app/dashboard/page.tsx:58-61 | the window of a concatenation is the concatenation of the windows, so the original order is kept |
| `DashboardHome.ThisMonthSingle` | app/dashboard/page.tsx:58-61 | one point is kept iff it is dated on or after the month start |
| `DashboardHome.ThisMonthOfSortedIsSuffix` | app/dashboard/page.tsx:56-61 | on a date-ordered sequence the window is a suffix, and every point before it is dated before the month start |
| `DashboardHome.AllInMonthKept` | app/dashboard/page.tsx:58-61 | when every point is in the month the window is the whole sequence |
| `DashboardHome.DeltaTelescopes` | app/dashboard/page.tsx:63-69 | last-minus-first equals the sum of the day-to-day changes |
| `DashboardHome.NonDecreasingDeltaNonNegative` | app/dashboard/page.tsx:63-69 | a counter that never decreases has a non-negative delta |
| `DashboardHome.StorageDeltaSplits` | app/dashboard/page.tsx:71-73 | the delta of a sequence splits at any shared point into the deltas of the two parts |
| `DashboardHome.MetricsOrEmpty` | app/dashboard/page.tsx:58-61 | a missing `metrics` array reads as empty |
| `DashboardHome.NewUsersThisMonth` | app/dashboard/page.tsx:63-65 | 0 for an empty window; otherwise last minus first `users` in the window; 0 for a single point |
| `DashboardHome.TripsThisMonth` | app/dashboard/page.tsx:67-69 | the same rule for `trips` over the same window |
| `DashboardHome.MediaThisMonth` | app/dashboard/page.tsx:71-73 | last minus first `storageGB` over the whole sequence, 0 when it is empty; the month start plays no part |
| `DashboardHome.MediaIncludesPreWindowGrowth` | app/dashboard/page.tsx:55-73 | on a date-ordered report with a non-empty window, the storage figure is the window's storage delta plus the growth before the window |
| `DashboardHome.StorageCountsOutsideTheMonth` | app/dashboard/page.tsx:55-73 | a report with no point in the month shows 0 users, 0 trips and non-zero storage growth |
| `DashboardHome.OrZero` | app/dashboard/page.tsx:78-85 | a missing count shows as 0 |
| `DashboardHome.OrZeroReal` | app/dashboard/page.tsx:92-99 | a missing amount shows as 0 |
| `DashboardHome.Render` | app/dashboard/page.tsx:33-104 | spinner iff loading; then a non-empty error; then "no data" without a report; cards exactly when not loading, no error and a report is present, with missing totals as 0 and the three deltas |
| `DashboardHome.MissingTotalsShowZero` | app/dashboard/page.tsx:75-104 | a report with no totals and no metrics shows all figures as 0 |
| `DashboardHome.HomePage.constructor` | app/dashboard/page.tsx:7-9 | no report, loading, no error, nothing requested |
| `DashboardHome.HomePage.FetchData` | app/dashboard/page.tsx:11-31 | without a tenant in the session: the missing-tenant error and no request; with one: one request for its 30-day report, then the resolved value (a falsy JSON value as no report) or the rejection's message; loading false on every path |
| `DashboardHome.FirstLoadWithoutSession` | app/dashboard/page.tsx:11-47 | a first load with an empty session ends on the missing-tenant banner |
| `DashboardHome.FirstLoadWithReport` | app/dashboard/page.tsx:11-104 | a first load with a tenant and an ok report shows that report's cards |
| `DashboardHome.FirstLoadWithFalsyReport` | app/dashboard/page.tsx:11-53 | a first load with a tenant and an ok reply whose JSON is falsy shows "No data available" |
| `DashboardLayout.Guard` | app/dashboard/layout.tsx:16-42 | login page: to home with a session, nothing without; every other page, home included: to login without a session, adopt the stored name with one; only home or login are ever targets |
| `DashboardLayout.GuardSettles` | app/dashboard/layout.tsx:16-42 | with the same session, the page the guard navigates to does not navigate again |
| `DashboardLayout.LoggedOut` | app/dashboard/layout.tsx:44-48 | both session keys are gone and every other key keeps its value |
| `DashboardLayout.LoggedOutIsGuarded` | app/dashboard/layout.tsx:16-48 | after logout every page but login redirects to login |
| `DashboardLayout.Chrome` | app/dashboard/layout.tsx:50-64 | no sidebar exactly on the login page; elsewhere the sidebar shows the current tenant name |
| `DashboardLayout.Shell.constructor` | app/dashboard/layout.tsx:12-14 | empty tenant name, no navigation |
| `DashboardLayout.Shell.RunGuard` | app/dashboard/layout.tsx:16-42 | performs `Guard`'s decision: one push, or the name adopted, or nothing; storage untouched |
| `DashboardLayout.Shell.Logout` | app/dashboard/layout.tsx:44-48 | storage becomes `LoggedOut` of the old storage and one push to login |
| `DashboardLayout.GuardedVisit` | app/dashboard/layout.tsx:16-64 | off the login page, no push happens iff a session exists, and then the sidebar shows exactly the stored name |
| `DashboardSidebar.IsActive` | components/DashboardSidebar.tsx:23-28 | Home iff the path is exactly `/dashboard`; others iff the path starts with the link; a missing path activates nothing |
| `DashboardSidebar.OwnPageActive` | components/DashboardSidebar.tsx:14-28 | every link is active on its own href |
| `DashboardSidebar.HrefsPrefixFree` | components/DashboardSidebar.tsx:14-21 | no non-Home link is a prefix of another |
| `DashboardSidebar.AtMostOneActive` | components/DashboardSidebar.tsx:14-28 | for any path, no two links are active together |
| `DashboardSidebar.RawPrefixExample` | components/DashboardSidebar.tsx:27 | `/dashboard/usersettings` activates Users; `/dashboard/` does not activate Home |
| `TenantList.RowFor` | components/TenantList.tsx:76-124 | domain link `https://` + domain + `.traversium.com`; missing admin email shows 'N/A'; 'Active'/'Inactive' by `isActive`; the Create Admin button only without an admin email; the form row iff the slot names this tenant |
| `TenantList.Render` | components/TenantList.tsx:30-139 | the empty state iff there are no tenants, and it carries the empty-state message; otherwise the table with one row per tenant, in order |
| `TenantList.AtMostOneAdminForm` | components/TenantList.tsx:126 | a form row follows only the tenant the slot names; with distinct tenant ids at most one row has it |
| `TenantList.Toggled` | components/TenantList.tsx:118 | clicking the open tenant closes the form; clicking any other opens that tenant's, replacing the previous one |
| `TenantList.ToggleTwice` | components/TenantList.tsx:118 | two clicks on one tenant leave its form closed unless it started open; a click on another tenant hands the form over |
| `TenantList.TenantListState.constructor` | components/TenantList.tsx:13 | no form open, no refresh requested |
| `TenantList.TenantListState.ClickCreateAdmin` | components/TenantList.tsx:118 | the slot becomes `Toggled` of the old slot |
| `TenantList.TenantListState.Cancel` | components/TenantList.tsx:133 | the slot is emptied |
| `TenantList.TenantListState.HandleAdminCreated` | components/TenantList.tsx:25-28 | the slot is emptied and one refresh is requested |
| `TenantList.TenantListState.Refresh` | components/TenantList.tsx:42-43 | one refresh is requested, the slot is untouched |
| `TenantList.OpenSwitchCreate` | components/TenantList.tsx:13-28 | opening two tenants' forms in turn and then creating an admin leaves no form open and one refresh |
| `CreateTenantForm.WithField` | components/CreateTenantForm.tsx:47-52 | the named field takes the value, the other keeps its own |
| `CreateTenantForm.SubmitError` | components/CreateTenantForm.tsx:18-45 | non-ok: the body's `error`, else its `message`, else 'Failed to create tenant' (also for an unparsable body), never empty; ok and parsable: no error; a transport failure or unparsable ok body: the runtime's message |
| `CreateTenantForm.AsSeenByBrowser` | app/api/tenants/route.ts:48-55 | the browser receives the proxy's status and body unchanged |
| `CreateTenantForm.ThroughProxy` | components/CreateTenantForm.tsx:24-35 | through the proxy the form succeeds iff the upstream created the tenant, shows the proxy's `CreateFailureMessage` on an upstream rejection, and the "may be unavailable" text when the upstream is unreachable |
| `CreateTenantForm.Form.constructor` | components/CreateTenantForm.tsx:11-16 | empty fields, not loading, no error |
| `CreateTenantForm.Form.HandleChange` | components/CreateTenantForm.tsx:47-52 | the form data becomes `WithField` of the old data |
| `CreateTenantForm.Form.BeginSubmit` | components/CreateTenantForm.tsx:19-30 | loading on, error cleared, the current form data POSTed to `/api/tenants` |
| `CreateTenantForm.Form.FinishSubmit` | components/CreateTenantForm.tsx:32-44 | either `onSuccess` once with the error untouched or the `SubmitError` message; loading off |
| `CreateTenantForm.Form.HandleSubmit` | components/CreateTenantForm.tsx:18-45 | one POST of the form data, error equals `SubmitError`, `onSuccess` once iff no error, loading off |
| `CreateAdminUserForm.ApiBaseUrl` | components/CreateAdminUserForm.tsx:5 | the non-empty setting, else the localhost default; never empty |
| `CreateAdminUserForm.AdminUrl` | components/CreateAdminUserForm.tsx:29 | starts with base + `/rest/v1/tenants/` + tenantId (verbatim), ends in `/admin`, and has exactly the length of the two together, so nothing lies between them |
| `CreateAdminUserForm.BypassesProxy` | components/CreateAdminUserForm.tsx:5-29 | with the default base the POST targets the tenant API directly, never an `/api/` proxy path |
| `CreateAdminUserForm.WithField` | components/CreateAdminUserForm.tsx:52-57 | only the named field of email, password, display name changes |
| `CreateAdminUserForm.SubmitError` | components/CreateAdminUserForm.tsx:23-50 | an unparsable body, ok or not, shows its parse error; a parsed non-ok body shows its `message` or 'Failed to create admin user'; a parsed body is an error iff the status is not ok; a transport failure shows its message |
| `CreateAdminUserForm.NoFallbackForUnparsable` | components/CreateAdminUserForm.tsx:37-40 | an unparsable failure body never yields the canned text (unless the parse error reads the same) |
| `CreateAdminUserForm.Form.constructor` | components/CreateAdminUserForm.tsx:15-21 | empty fields, not loading, no error |
| `CreateAdminUserForm.Form.HandleChange` | components/CreateAdminUserForm.tsx:52-57 | the form data becomes `WithField` of the old data |
| `CreateAdminUserForm.Form.BeginSubmit` | components/CreateAdminUserForm.tsx:25-35 | loading on, error cleared, the form data POSTed to `AdminUrl` |
| `CreateAdminUserForm.Form.FinishSubmit` | components/CreateAdminUserForm.tsx:37-49 | either `onSuccess` once or the `SubmitError` message; loading off |
| `CreateAdminUserForm.Form.HandleSubmit` | components/CreateAdminUserForm.tsx:23-50 | one POST to `AdminUrl`, error equals `SubmitError`, `onSuccess` once iff no error, loading off |

## Left out

- Real I/O: `fetch`, `NextResponse`, `sessionStorage` and the router are inputs and logs. Request headers, `cache: 'no-store'` and the `console` output have no counterpart.
- Promise ordering and React re-rendering: each handler or effect is one sequential step. A form's submit is split only into its synchronous start and its completion.
- Double submission while a request is in flight is not modelled. The disabled submit button is markup.
- JSON: payloads are opaque and only relayed. Properties with non-string values are not modelled, nor is a JSON `null` error body, whose property read throws. A falsy report payload is modelled only on the dashboard home page, as `None`. `JSON.stringify` is the identity on the form data.
- Locale and number formatting (`toFixed`, `toLocaleString`, `toLocaleDateString`): figures are kept as numbers, and the creation date as its raw string.
- Date parsing and the local-time month boundary: dates are integers and the start of the month is a parameter. Storage and cost figures are `real`, not IEEE doubles. Missing counters on metric points are not modelled: every point carries `users`, `trips` and `storageGB`. In the source a missing counter on the first point reads as 0 (the `|| 0` guard), so the figure is the last point's raw counter; a missing counter on the last point gives `NaN`.
- `ReportApi.RequestPath`: the window is an integer. A fractional `days` and its rendering are not modelled.
- `ReportApi.IntToDecimal`: renders every integer in plain decimal. JavaScript renders a window of magnitude 10^21 or more in exponent form (`1e+21`), and a double cannot hold every integer above 2^53; such windows are not modelled. Every caller in the repository passes 30.
- The reporting and tenant-detail proxy routes under `app/api/reports/` and `app/api/tenants/[tenantId]/`, `components/TenantDashboard.tsx`, the display-only pages (`app/page.tsx`, the users, media, social, pricing and login pages) and the static chrome (`components/Navigation.tsx`, `components/Footer.tsx`, `app/layout.tsx`) are not part of this model.
- The `onCancel` buttons of both forms only call the parent's callback. The list's cancel is `TenantList.TenantListState.Cancel`.
- HTML constraint attributes (`required`, `minLength`, `maxLength`) are enforced by the browser, not the code. The naming hint on the tenant form is enforced nowhere.
