# Logistics dashboard: a verified model of its request, user and session rules

The logistics dashboard is a Next.js front end for transport requests: route, dates, driver, vehicle,
cargo, payment and documents. A small FastAPI back end sits behind it. This project models, in Dafny, the
rules the front end's components apply. It also models the one computation of the back end's settings.

- **Role scoping and filters.** The dashboard, the document manager and the activity log each show an
  order-preserving sub-list, with "all" as a wildcard on every select.
- **Edit rights.** The request card and the details page decide edit rights; the layout's tab list and
  the user-management gate depend on the role.
- **State updates.** The dashboard updates a request's status by id. The page shell has the same update,
  but only hands it to the details page, which never calls it. User management
  creates and deletes accounts and refuses to delete the signed-in account. The request form edits its
  waypoint and file lists.
- **Small computations.** The margin, the status colour lookup, the avatar initials, and the database
  URL the settings validator assembles.
- **Session.** Sign-in against the three built-in accounts, and the session restored on load. The
  provider's sign-out is modelled too, although the layout's sign-out button has no click handler, so
  nothing in the interface reaches it.

One Dafny module per source file, plus shared modules:

- `Wrappers`: `Option`.
- `Seqs`: JavaScript's `filter`, and removal or replacement at an index.
- `Text`: lower-casing, substring search, `split(" ")`.
- `Decimal`: writing and reading integers.
- `Domain`: the records of `types/request.ts`, `types/document.ts` and `types/activity.ts`, and the
  status update by id shared by two components.

A component's `useState` fields become the fields of a class, and its handlers become methods proved
against a function of the old state. Pure expressions (filters, lookups, what is rendered) become
functions and lemmas.

The dashboard's scoping and the request card's edit right compare with the literal issuer
`"Current User"`, not with the signed-in user's name. The model keeps that literal.

The page shell (`app/page.tsx`) and the dashboard (`components/dashboard/dashboard.tsx`) each keep their
own request list. They are modelled as two independent stores: `Page.App.requests` and
`Dashboard.DashboardState.requests`. The shell's list is written only by a handler nothing calls, and
nothing renders it. The dashboard's list lives only while the dashboard is mounted (see "Left out"). No
status transition is enforced; any status may follow any other.

## Model

| member | source | states |
|---|---|---|
| Seqs.Filter | frontend/components/dashboard/dashboard.tsx:36 | `array.filter`: every kept element is from the input and satisfies the predicate, every input element satisfying it is kept, and the result is an order-preserving subsequence |
| Seqs.FilterConcat | frontend/components/dashboard/dashboard.tsx:36 | filtering distributes over concatenation |
| Seqs.FilterKeepsAll | frontend/components/dashboard/dashboard.tsx:38-49 | a filter whose predicate holds everywhere is the identity |
| Seqs.FilterDropsAll | frontend/components/activity/activity-log.tsx:29-34 | a filter whose predicate holds nowhere gives the empty list |
| Seqs.FilterFilter | frontend/components/dashboard/dashboard.tsx:33-49 | scoping and then filtering equals one filter by the conjunction |
| Seqs.FilterSamePredicate | frontend/components/dashboard/dashboard.tsx:38-49 | predicates that agree on the list's elements filter it alike |
| Seqs.RemoveAt | frontend/components/requests/request-form.tsx:89 | `filter((_, i) => i !== index)`: an in-range index removes exactly that position and shifts the rest down in order; an out-of-range index changes nothing |
| Seqs.RemoveAtMultiset | frontend/components/requests/request-form.tsx:89 | the removed element plus what remains is the original multiset |
| Seqs.RemoveAfterAppend | frontend/components/requests/request-form.tsx:82-89 | removing the last position after an append restores the list |
| Seqs.ReplaceAt | frontend/components/requests/request-form.tsx:96 | `map((v, i) => i === index ? value : v)`: the length is kept and only position `index` changes |
| Text.Lower | frontend/components/dashboard/dashboard.tsx:40-43 | `toLowerCase` keeps the length and lower-cases character by character |
| Text.LowerIdempotent | frontend/components/dashboard/dashboard.tsx:40-43 | lower-casing twice is lower-casing once |
| Text.ContainsIffOccurs | frontend/components/dashboard/dashboard.tsx:40 | `includes(t)` holds iff `t` occurs at some position |
| Text.Split | frontend/components/layout/main-layout.tsx:48 | `split(" ")` gives at least one piece and no piece holds a space |
| Text.JoinSplit | frontend/components/layout/main-layout.tsx:48 | joining the pieces with spaces gives back the string |
| Text.HeadsOfSplit | frontend/components/layout/main-layout.tsx:47-50 | the first characters of the pieces are exactly the characters that begin a word |
| Decimal.ShowInt | fastapi-boilerplate/src/config.py:28 | the decimal text of an integer is non-empty and starts with '-' iff it is negative |
| Decimal.ParseShowInt | frontend/components/requests/request-form.tsx:116-117 | reading back the decimal text of an integer gives the integer |
| Domain.StatusNamesDistinct | frontend/types/request.ts:3 | the five status names are different from each other |
| Domain.DocNamesDistinct | frontend/types/document.ts:4-5 | document type names and document status names are each different from each other |
| Domain.SetStatus | frontend/components/dashboard/dashboard.tsx:52 | the length is kept; requests with the id get the new status; every other field and every other request is unchanged |
| Domain.SetStatusUnknownId | frontend/app/page.tsx:38 | an id no request has leaves the list unchanged |
| Domain.SetStatusToCurrent | frontend/components/dashboard/dashboard.tsx:52 | giving requests the status they already have leaves the list unchanged |
| Domain.SetStatusLastWins | frontend/components/dashboard/dashboard.tsx:52 | two updates of the same id: the second wins |
| Domain.SetStatusCommutes | frontend/components/dashboard/dashboard.tsx:52 | updates of two different ids commute |
| Utils.CalculateMargin | frontend/lib/utils.ts:28-30 | cost plus margin is the price |
| Utils.MarginSign | frontend/lib/utils.ts:29 | the margin is negative iff the cost exceeds the price, and zero iff they are equal |
| Utils.StatusColorsKeys | frontend/lib/utils.ts:33-39 | the table's keys are exactly the five status names |
| Utils.GetStatusColor | frontend/lib/utils.ts:32-42 | a status name gets its table pair; the grey fallback is returned iff the string is not a key |
| Utils.StatusColorsDistinct | frontend/lib/utils.ts:33-41 | the five pairs are pairwise distinct and none is the fallback |
| Utils.GetStatusColorAsWritten | frontend/lib/utils.ts:41 | the lookup as written: own keys give their pair, and inherited `Object.prototype` names give the inherited function |
| Utils.StatusColorInheritedName | frontend/lib/utils.ts:41 | for "toString" the lookup as written does not return the fallback, while the corrected one does |
| Utils.StatusColorAgreesOffPrototype | frontend/lib/utils.ts:32-42 | the two lookups agree on every string that is not an inherited property name |
| Dashboard.StatusPartition | frontend/components/dashboard/dashboard.tsx:25-30 | every request is in exactly one of not started, in progress, completed, unloading |
| Seqs.FilterLengthCountsPositions | frontend/components/dashboard/dashboard.tsx:25-30 | `filter(...).length` is the number of positions whose element satisfies the predicate |
| Dashboard.StatusCounts | frontend/components/dashboard/dashboard.tsx:27-29 | each counter's filter length is the number of positions holding not started; loading or in transit; completed |
| Dashboard.ComputeStats | frontend/components/dashboard/dashboard.tsx:25-30 | the total is the list's length; "not started" counts the requests not started, "in progress" those loading or in transit, "completed" those completed; the three fall short of the total by exactly the unloading count |
| Dashboard.UserRequests | frontend/components/dashboard/dashboard.tsx:33-36 | the chief gets the whole list; a logistician gets exactly the requests issued by "Current User" or whose driver name contains it, in order |
| Dashboard.FilteredRequests | frontend/components/dashboard/dashboard.tsx:38-49 | a request is kept iff it matches search AND status AND issuer, as an order-preserving subsequence |
| Dashboard.SearchOccurs | frontend/components/dashboard/dashboard.tsx:39-43 | search matches iff the lower-cased term occurs in the lower-cased cargo name, driver name, origin or destination |
| Dashboard.SearchIgnoresCase | frontend/components/dashboard/dashboard.tsx:40-43 | a term matches iff its lower-cased form matches |
| Dashboard.StatusFilterExact | frontend/components/dashboard/dashboard.tsx:45 | a status filter naming a status keeps exactly the requests with that status |
| Dashboard.NoFilterIsIdentity | frontend/components/dashboard/dashboard.tsx:38-49 | an empty search with both selects at "all" keeps every request |
| Dashboard.ShownRequests | frontend/components/dashboard/dashboard.tsx:33-49 | a request is shown iff the role may see it and it passes the three filters |
| Dashboard.DashboardState.constructor | frontend/components/dashboard/dashboard.tsx:20-23 | initially nothing is filtered: the shown list is the role's scoped list |
| Dashboard.DashboardState.Shown | frontend/components/dashboard/dashboard.tsx:33-49 | every card comes from the dashboard's list; for a logistician every card is owned and passes search and status, and in a valid state, where the issuer filter they are never offered stays "all", every such request gets a card |
| Dashboard.DashboardState.SetSearchTerm | frontend/components/dashboard/dashboard.tsx:113 | the search term becomes the typed text; the issuer-filter invariant is kept |
| Dashboard.DashboardState.SetStatusFilter | frontend/components/dashboard/dashboard.tsx:119 | the status filter becomes the chosen value; the issuer-filter invariant is kept |
| Dashboard.DashboardState.SetLogisticianFilter | frontend/components/dashboard/dashboard.tsx:121-122 | for the chief, who alone is offered the select, the issuer filter becomes the chosen value |
| Dashboard.DashboardState.UpdateRequestStatus | frontend/components/dashboard/dashboard.tsx:51-53 | the dashboard's list becomes the status update of the old list; the total is unchanged |
| RequestCard.CanEdit | frontend/components/dashboard/request-card.tsx:20 | the chief may always edit; a logistician iff the issuer is literally "Current User" |
| RequestCard.StatusOptionsInLifecycleOrder | frontend/components/dashboard/request-card.tsx:46-50 | the selector offers each of the five statuses exactly once, in lifecycle order |
| RequestCard.StatusSelector | frontend/components/dashboard/request-card.tsx:36-52 | the selector is rendered iff the card may be edited, and then with those options |
| RequestCard.OnStatusChosen | frontend/components/dashboard/request-card.tsx:40 | the call carries the card's own id and the chosen status |
| RequestCard.ChosenStatusApplies | frontend/components/dashboard/request-card.tsx:40 | applying that call to a list gives the card's request the chosen status and changes none of its other fields |
| RequestCard.WaypointBadge | frontend/components/dashboard/request-card.tsx:68-69 | the badge appears iff there are waypoints and the list is non-empty, and shows their number |
| RequestCard.DocumentBadges | frontend/components/dashboard/request-card.tsx:131-142 | TTN iff its file name is non-empty, CMR likewise, TTN before CMR, never SMR |
| RequestDetails.CanEdit | frontend/components/requests/request-details.tsx:38 | false with nobody signed in; always for the chief; for a logistician iff the issuer is the signed-in name |
| RequestDetails.CardAndDetailsDiffer | frontend/components/requests/request-details.tsx:38 | a logistician who issued a request may edit it on the details page but not from the card |
| RequestDetails.KeyEntries | frontend/components/requests/request-details.tsx:289 | `Object.entries` yields exactly the present keys with their file names, and none iff no key is present |
| RequestDetails.ListedDocuments | frontend/components/requests/request-details.tsx:289-291 | an entry is listed iff its key is present with a non-empty file name, in the order ttn, cmr, smr |
| RequestDetails.EmptyStateAndListing | frontend/components/requests/request-details.tsx:314 | the empty state appears iff no key is present; then nothing is listed; a key with an empty file name shows neither |
| RequestDetails.RouteStops | frontend/components/requests/request-details.tsx:251-271 | the origin, then the waypoints in stored order, then the destination |
| RequestDetails.StatusHistory | frontend/components/requests/request-details.tsx:40-44 | always three entries, not started, loading and in transit, all by the issuer, the first at the creation date |
| RequestDetails.HistoryIgnoresStatus | frontend/components/requests/request-details.tsx:40-44 | the history is the same whatever the request's current status |
| DocumentManager.FilteredDocuments | frontend/components/documents/document-manager.tsx:20-31 | a document is kept iff it matches search AND type AND status, as an order-preserving subsequence |
| DocumentManager.EmptySearchKeepsAll | frontend/components/documents/document-manager.tsx:21-25 | the empty term matches every document, so with both selects at "all" nothing is filtered out |
| DocumentManager.NoDriverNameSearch | frontend/components/documents/document-manager.tsx:24 | a document without a driver name matches only through its name, request id or keywords |
| DocumentManager.KeywordMatch | frontend/components/documents/document-manager.tsx:25 | one keyword holding the term makes the document match |
| DocumentManager.SelectsAreExact | frontend/components/documents/document-manager.tsx:27-28 | a type or status select naming a value keeps exactly the documents with that value |
| ActivityLog.UserActivities | frontend/components/activity/activity-log.tsx:21-24 | the chief sees every entry; anyone else exactly the entries whose user name is "Current User", in order |
| ActivityLog.FilteredActivities | frontend/components/activity/activity-log.tsx:29-34 | an entry is kept iff its user id and action pass both selects, as an order-preserving subsequence |
| ActivityLog.DefaultFiltersShowScope | frontend/components/activity/activity-log.tsx:26-34 | with both selects at "all" the log equals the role's entries |
| ActivityLog.UnmatchedUserEmpties | frontend/components/activity/activity-log.tsx:30 | a user select no entry matches empties the log |
| ActivityLog.ActionIcon | frontend/components/activity/activity-log.tsx:36-47 | an unlisted action gets the icon of "other", which no listed action but "other" has |
| ActivityLog.ActionLabel | frontend/components/activity/activity-log.tsx:49-60 | an unlisted action gets the label of "other", which no listed action but "other" has |
| ActivityLog.ActionColor | frontend/components/activity/activity-log.tsx:62-73 | an unlisted action gets the classes of "other", which only "login" shares |
| ActivityLog.LabelsDistinct | frontend/components/activity/activity-log.tsx:50-57 | the six labels are pairwise distinct |
| UserManagement.WithoutId | frontend/components/users/user-management.tsx:88 | every account with the id is removed, every other one kept, in order |
| UserManagement.WithoutUnknownId | frontend/components/users/user-management.tsx:88 | deleting an id no account has changes nothing |
| UserManagement.DeleteUndoesCreate | frontend/components/users/user-management.tsx:68-88 | deleting a freshly created account's id restores the list |
| UserManagement.Rows | frontend/components/users/user-management.tsx:200-234 | one row per account in order, with its initials, deletable iff it is not the current user's |
| UserManagement.Render | frontend/components/users/user-management.tsx:110-122 | a non-chief gets the access-denied view and never the list |
| UserManagement.NoSelfDeleteOffered | frontend/components/users/user-management.tsx:229 | the delete action is never offered on the current user's own row |
| UserManagement.UserManagementState.constructor | frontend/components/users/user-management.tsx:22-49 | the three initial accounts, an empty creation form with the logistician role, and the dialog closed |
| UserManagement.UserManagementState.HandleCreateUser | frontend/components/users/user-management.tsx:51-76 | rejected, with nothing changed, iff name, e-mail or password is empty; otherwise one account is appended with the fresh id, name, e-mail and role, and the dialog is reset and closed |
| UserManagement.UserManagementState.HandleDeleteUser | frontend/components/users/user-management.tsx:78-93 | one's own id is refused with nothing changed; any other id removes every account with it; the signed-in account is never removed |
| RequestForm.SubmitDependsOnlyOnRequired | frontend/components/requests/request-form.tsx:125 | the handler accepts or rejects on origin, destination and the two dates alone |
| RequestForm.InitialFormNeedsRequired | frontend/components/requests/request-form.tsx:57-77 | the handler rejects the fresh form, and accepts it once the four fields it checks are filled in |
| RequestForm.AmountOrZero | frontend/components/requests/request-form.tsx:116-117 | the leading number of the text, or 0 when it has none |
| RequestForm.AmountOfShownInt | frontend/components/requests/request-form.tsx:116-117 | an integer's decimal text reads back as that integer |
| RequestForm.AmountOfText | frontend/components/requests/request-form.tsx:116-117 | text without a leading number counts as 0 |
| RequestForm.FormMargin | frontend/components/requests/request-form.tsx:115-119 | cost plus margin is the price, each read as above |
| RequestForm.FormMarginOfShownAmounts | frontend/components/requests/request-form.tsx:115-119 | typed-in integers give their difference |
| RequestForm.MarginPreview | frontend/components/requests/request-form.tsx:476-482 | the margin line is shown iff both amounts are non-empty, and then shows the form's margin |
| RequestForm.RequestFormState.constructor | frontend/components/requests/request-form.tsx:57-77 | the form starts with every text field empty, no dates, no waypoints and no files |
| RequestForm.RequestFormState.SetRoute | frontend/components/requests/request-form.tsx:176-186 | origin and destination become the typed texts and nothing else changes |
| RequestForm.RequestFormState.SetDates | frontend/components/requests/request-form.tsx:248-278 | the loading and unloading dates become the picked ones, or none, and nothing else changes |
| RequestForm.RequestFormState.SetAmounts | frontend/components/requests/request-form.tsx:450-461 | the cost and price texts become the typed ones and nothing else changes |
| RequestForm.RequestFormState.AddWaypoint | frontend/components/requests/request-form.tsx:79-84 | one empty waypoint is appended and nothing else changes |
| RequestForm.RequestFormState.RemoveWaypoint | frontend/components/requests/request-form.tsx:86-91 | the waypoints become `RemoveAt` of the old ones and nothing else changes |
| RequestForm.RequestFormState.UpdateWaypoint | frontend/components/requests/request-form.tsx:93-98 | the waypoints become `ReplaceAt` of the old ones and nothing else changes |
| RequestForm.RequestFormState.HandleFileUpload | frontend/components/requests/request-form.tsx:100-106 | the chosen files are appended in order; a null file list appends nothing |
| RequestForm.RequestFormState.RemoveFile | frontend/components/requests/request-form.tsx:108-113 | the files become `RemoveAt` of the old ones and nothing else changes |
| RequestForm.RequestFormState.HandleSubmit | frontend/components/requests/request-form.tsx:121-141 | the handler accepts iff origin, destination, loading date and unloading date are all present; the form is not changed |
| RequestForm.RemoveAddedWaypoint | frontend/components/requests/request-form.tsx:79-91 | adding a waypoint and removing the last one restores the list |
| RequestForm.RemoveUploadedFile | frontend/components/requests/request-form.tsx:100-113 | uploading a file and removing it at its index restores the list |
| AuthContext.Find | frontend/contexts/auth-context.tsx:54 | none iff no account has that e-mail and password; otherwise a matching account |
| AuthContext.FindIsFirst | frontend/contexts/auth-context.tsx:54 | the account found is the first matching one |
| AuthContext.EveryMockUserSignsIn | frontend/contexts/auth-context.tsx:16-38 | each built-in account signs in as itself with its own credentials |
| AuthContext.WrongPasswordFails | frontend/contexts/auth-context.tsx:54-63 | a right e-mail with a wrong password finds nobody |
| AuthContext.SessionStore.constructor | frontend/contexts/auth-context.tsx:46 | the storage entry holds the given user, or nothing |
| AuthContext.AuthProvider.constructor | frontend/contexts/auth-context.tsx:41-42 | nobody is signed in and loading is on |
| AuthContext.AuthProvider.RestoreSession | frontend/contexts/auth-context.tsx:44-51 | a saved user becomes the signed-in user, and loading ends either way |
| AuthContext.AuthProvider.Login | frontend/contexts/auth-context.tsx:53-64 | true iff some account matches; then the first match, without password, is signed in and saved; otherwise nothing changes |
| AuthContext.AuthProvider.Logout | frontend/contexts/auth-context.tsx:66-69 | nobody is signed in and nothing is saved (the layout's sign-out button has no handler, so the interface never calls it) |
| AuthContext.ReloadAfterLogin | frontend/contexts/auth-context.tsx:44-60 | after a successful sign-in a reload restores the same user |
| AuthContext.ReloadAfterLogout | frontend/contexts/auth-context.tsx:44-51 | after signing out a reload finds no user |
| Page.Render | frontend/app/page.tsx:22-70 | spinner while loading, then the login page without a user; a selection shows its details whatever the tab; otherwise each of the five tabs shows its own component, and an unknown tab shows the dashboard |
| Page.OfferedTabsAreKnown | frontend/app/page.tsx:56-66 | every tab the layout offers has its own case |
| Page.LogisticianCannotManageUsers | frontend/app/page.tsx:65-66 | a logistician is offered no users tab and, were it active, gets the access-denied view |
| Page.App.constructor | frontend/app/page.tsx:18-20 | the dashboard tab, no selection, and the sample requests |
| Page.App.UpdateRequestStatus | frontend/app/page.tsx:37-39 | the shell's list becomes the status update of the old list; the selection is untouched (the handler is passed to the details page only, which never calls it) |
| Page.App.HandleRequestClick | frontend/app/page.tsx:41-43 | the clicked request becomes the selection |
| Page.App.HandleBackFromDetails | frontend/app/page.tsx:45-47 | the selection is cleared |
| Page.App.SetActiveTab | frontend/app/page.tsx:73 | the tab changes and the selection is kept |
| Page.ClickThenBack | frontend/app/page.tsx:41-54 | a click shows the details, and going back returns to the tab's screen |
| Page.StatusUpdateKeepsSelection | frontend/app/page.tsx:37-54 | the shell's status update leaves the details screen showing the request as clicked |
| MainLayout.Tabs | frontend/components/layout/main-layout.tsx:17-23 | the four common tabs in order, then the users tab, last, iff the role is chief |
| MainLayout.TabIdsDistinct | frontend/components/layout/main-layout.tsx:17-23 | no two tabs share an id |
| MainLayout.RoleCaption | frontend/components/layout/main-layout.tsx:41 | "Главный логист" iff chief, "Логист" iff logistician |
| MainLayout.Initials | frontend/components/layout/main-layout.tsx:47-50 | the first character of each space-separated word, in order; empty words add nothing |
| MainLayout.InitialsOfTwoWords | frontend/components/layout/main-layout.tsx:47-50 | a two-word name gives its two first letters |
| MainLayout.WordStartsConcat | frontend/components/layout/main-layout.tsx:47-50 | the word starts of a concatenation are those of its parts |
| Config.BuildUrl | fastapi-boilerplate/src/config.py:26-29 | the URL starts with the `postgresql+asyncpg://` scheme and has more after it |
| Config.SplitOn | fastapi-boilerplate/src/config.py:26-29 | the text is the part before the first separator, the separator, and the rest |
| Config.ParseBuildUrl | fastapi-boilerplate/src/config.py:26-29 | the assembled URL gives back user, password, host, port and name when they hold no separator |
| Config.BuildUrlAmbiguous | fastapi-boilerplate/src/config.py:26-29 | user "a:b" with password "c" and user "a" with password "b:c" give the same URL, which reads back as the second |
| Config.UnquoteQuote | fastapi-boilerplate/src/config.py:26-29 | decoding a percent-encoded credential gives it back |
| Config.BuildQuotedUrl | fastapi-boilerplate/src/config.py:26-29 | the URL assembled the same way from the percent-encoded user name and password |
| Config.ParseBuildQuotedUrl | fastapi-boilerplate/src/config.py:26-29 | with the credentials encoded, any user name and password come back from the URL, given a host without ':' |
| Config.BuildQuotedUrlInjective | fastapi-boilerplate/src/config.py:26-29 | the encoded URL tells any two sets of connection parts apart |
| Config.FilledUrl | fastapi-boilerplate/src/config.py:25-29 | a set URL is kept; an absent or empty one becomes the assembled URL; the result is always set |
| Config.FilledUrlIdempotent | fastapi-boilerplate/src/config.py:25 | filling twice equals filling once |
| Config.Settings.constructor | fastapi-boilerplate/src/config.py:11-21 | every field, the two flags included, takes the value loaded from the environment; absent values default to none for the URL and to true for the flags, passed in by the caller |
| Config.Settings.FillDatabaseUrl | fastapi-boilerplate/src/config.py:23-30 | the URL becomes `FilledUrl` of the old one and the object itself is returned; no other field changes |
| Config.FillTwice | fastapi-boilerplate/src/config.py:23-30 | running the validator a second time leaves the URL as the first run did |

## Left out

- JSX rendering, toasts, dialogs and popovers. Only the conditions and sequences that drive them are
  modelled. Icons and CSS classes are modelled only where a lookup picks them: the status colours and the
  activity log's icon and colour tables.
- `formatCurrency`, `formatDate` and `cn` in `frontend/lib/utils.ts`. They wrap `Intl`, `clsx` and
  `tailwind-merge`, which are outside this model.
- Browser storage and JSON. The "logistics_user" entry is the field `AuthContext.SessionStore.saved`,
  holding the parsed user. A stored text that is not a user's JSON is not modelled.
- `AuthContext.AuthProvider.Login`: the method is asynchronous in the source; the model runs it to
  completion at once.
- The back end's data path (DAO, repositories, services, controllers, routes, the app). These are
  asynchronous database, hashing, token and HTTP calls, outside this model. Pydantic's loading of the
  settings from the environment and the `.env` file is the constructor's parameters, one per field; the
  defaults (no URL, both flags true) are values the caller passes when the environment has none.
- `RequestForm.AmountOrZero`: `Number.parseFloat` on floating point is modelled on integers. An optional
  sign and the leading digits are read; a fraction, an exponent and "Infinity" are not. Leading white
  space is space, tab, line feed and carriage return only, where `parseFloat` skips all Unicode white
  space. The amount inputs are `type="number"`, whose value is a valid number or empty, so these gaps
  matter little in the form.
- `Text.Lower`: `toLowerCase` is modelled for ASCII and the Cyrillic А–Я and Ё only. Every other
  character is left unchanged, although `toLowerCase` lowers many of them: the other Cyrillic capitals
  (Ѐ–Џ apart from Ё, and letters such as Ә, Қ, Ө, Ү, І), Latin letters with accents, Greek, and so on.
- `Date.now()` ids. The fresh id is a parameter of `HandleCreateUser`.
- Sample data (`@/data/sample-data`) is not part of this model. It is the constructor's parameter of
  `Page.App` and `Dashboard.DashboardState`.
- `RequestForm.RequestFormState.HandleSubmit`: the form element's HTML `required` check runs before the
  handler. The browser refuses to submit while any of nine inputs is empty: origin, destination, driver
  name, IIN, state number, cargo name, weight, cost and price. Only the handler's own check of origin,
  destination and the two dates is modelled, so a form missing, say, the driver name is accepted by the
  model and never reaches the handler in the browser.
- The form's per-field setters. Only the route, date and amount setters are modelled, because they
  decide the handler's verdict and the margin. Every other setter replaces one field in the same way.
- The create-user dialog's field setters. `HandleCreateUser` reads whatever form it is given, so any
  role may be created in the model; the dialog's role select offers only "logistician", so in the
  program every created account is a logistician.
- `generatePDF` and the create-user dialog's open and close handlers only show a toast or toggle a
  flag.
- The login page, the status badge and the status filter components are presentation only.
- `ActivityLog.ActionIcon`, `ActivityLog.ActionLabel` and `ActivityLog.ActionColor`: modelled as lookups
  over the table's own keys. Like `getStatusColor`, the source's `map[action] || map.other` would also
  find names inherited from `Object.prototype`.
- `RequestDetails.ListedDocuments` and `RequestDetails.KeyEntries`: `Object.entries` lists the keys in
  the order they were added to the documents object, which the sample data decides. The model fixes the
  order ttn, cmr, smr.
- Component state lives only while the component is mounted. Switching tabs, or selecting a request,
  unmounts the dashboard, the user management and the request form, and coming back starts each from its
  initial state. `Dashboard.DashboardState`, `UserManagement.UserManagementState` and
  `RequestForm.RequestFormState` model one mounted lifetime; the remount is not modelled.
- `Utils.CalculateMargin`: amounts are JavaScript numbers (doubles). The model uses unbounded integers,
  so it does not capture rounding or the loss of precision past 2^53.
- `MainLayout.Initials`: `n[0]` takes one UTF-16 code unit, while a Dafny `char` is a whole Unicode
  scalar value. The two differ for characters outside the Basic Multilingual Plane.
- `Config.Settings.FillDatabaseUrl` keeps the source's unencoded assembly. The encoded form,
  `Config.BuildQuotedUrl`, stands beside it (see "Findings").
- `Dashboard.DashboardState.SetLogisticianFilter` requires the chief: the source renders that select for
  the chief only.

## Findings

| source | as written | input that shows it | evidently intended | confidence | as-written member | corrected member |
|---|---|---|---|---|---|---|
| frontend/lib/utils.ts:41 | `statusColors[status] \|\| fallback` looks the status up through the object's prototype chain; no component calls `getStatusColor`, so the defect is latent | `getStatusColor("toString")` returns `Object.prototype.toString`, a function, instead of a class string | any string other than the five status names gets `"text-gray-600 bg-gray-100"` | not executed | Utils.GetStatusColorAsWritten, Utils.StatusColorInheritedName | Utils.GetStatusColor |
| fastapi-boilerplate/src/config.py:26-29 | the user name and password go into the URL without percent-encoding | user "a:b" with password "c" and user "a" with password "b:c" both give `postgresql+asyncpg://a:b:c@h:5432/d` | credentials are percent-encoded, so any user name and password reach the database intact | not executed | Config.BuildUrl, Config.BuildUrlAmbiguous | Config.BuildQuotedUrl, Config.ParseBuildQuotedUrl |
