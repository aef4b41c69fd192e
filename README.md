# ReceiptCapture portal — a verified model of its server core

ReceiptCapture is a web portal where companies register, manage the staff
who capture receipts on a mobile app, and review the captured receipts and
their subscription. This project models its core in Dafny:

- the in-memory record store, a class with one field per table; each
  write replaces the table's `seq` with its new value;
- the session service: plain-text password check, plus an unsigned token
  that expires after 24 hours;
- the HTTP handlers for:
  - registration;
  - staff listing and creation;
  - the receipt listing (filters, newest-first sort, pagination, statistics);
  - company settings (read and update);
  - subscription change, billing, plans and usage;
  - the current user;
- the registration wizard's step validation and step counter;
- the staff page's search filter and its edit, reset and toggle actions.

Each handler is a function of the store (when it only reads) or a method
that modifies the store (when it writes). Its contract gives the response
for every guard, in the order the handler checks them, and the exact new
store state. Time, the calendar, the token verifier, the
e-mail-format check and id generation are parameters. Money is in cents;
timestamps are milliseconds.

Files, in dependency order:

- `base.dfy`: `Option`, JavaScript string built-ins (`trim`, ASCII
  `toLowerCase`, `includes`), `Array.prototype.slice` with negative
  indices, and an abstract calendar.
- `arrays.dfy`: `find`, `findIndex`, `filter`, and element replacement at
  the first match.
- `types.dfy`: the records, and the `{ ...record, ...updates }` merge.
- `store.dfy`: the store class.
- `auth.dfy`: the session service.
- `api.dfy`: the reply type and the two guard chains.
- `me_route.dfy`, `plans_route.dfy`, `billing_route.dfy`, `staff_route.dfy`,
  `settings_route.dfy`, `change_route.dfy`, `register_route.dfy`,
  `usage_route.dfy`: one file per handler.
- `receipt_order.dfy`, `receipt_query.dfy`, `receipts_route.dfy`: the
  receipt listing.
- `register_page.dfy`, `staff_page.dfy`: the two pages.

Where the written description of the system and the code differ, the model
follows the code:

- Registration refuses an e-mail that an existing portal user has. It does
  not look at staff e-mails, and it does not check whether the chosen plan
  is active.
- The `GET /api/staff` listing returns staff records with their passwords.
  Only creation strips the password.
- Changing a subscription answers with `company` absent, because the
  store's `updateCompany` returns nothing.
- The settings `GET` reports a fixed 156 receipts this month. The usage
  handler counts real ones.
- The usage handler's user lookup does not require the user to be active.
  The session-based handlers do.
- Changing a subscription checks only that the plan exists. It does not
  check that the plan is active, so a deactivated plan can be chosen.
- Text lengths are JavaScript `.length` values: UTF-16 code units, so a
  character outside the Basic Multilingual Plane counts twice.
- A token can be made only when the user's id and e-mail are Latin-1 text,
  because `btoa` throws otherwise. Registration with such an e-mail answers
  500 after the new company, user and billing entry have been stored.

## Model

| member | source | states |
|---|---|---|
| Store.DataStore.constructor | website/src/lib/data-store.ts:11-186 | the store starts with the seed admin, the sample representative and company, two staff members, five receipts, the three plans, and no billing history |
| Store.DataStore.UserById | website/src/lib/data-store.ts:191 | the first user with that id, and none exactly when no user has it |
| Store.DataStore.UserByEmail | website/src/lib/data-store.ts:192 | the first user with exactly that e-mail, and none exactly when no user has it |
| Store.DataStore.CompanyById | website/src/lib/data-store.ts:203 | the first company with that id, and none exactly when no company has it |
| Store.DataStore.PlanById | website/src/lib/data-store.ts:214 | the first plan with that id, and none exactly when no plan has it |
| Store.DataStore.AppUsersByCompany | website/src/lib/data-store.ts:218-220 | exactly the staff members of that company, each as often as it is stored, in store order |
| Store.DataStore.ReceiptsByCompany | website/src/lib/data-store.ts:234-236 | exactly the receipts of that company, each as often as it is stored, in store order |
| Store.DataStore.BillingHistoryOf | website/src/lib/data-store.ts:254-256 | exactly the billing entries of that company, each as often as it is stored, in append order |
| Store.DataStore.AddUser | website/src/lib/data-store.ts:193 | the user is appended and the other collections are unchanged |
| Store.DataStore.UpdateUser | website/src/lib/data-store.ts:194-199 | only the first user with the id is replaced by its merge with the update; nothing else changes |
| Store.DataStore.AddCompany | website/src/lib/data-store.ts:204 | the company is appended and the other collections are unchanged |
| Store.DataStore.UpdateCompany | website/src/lib/data-store.ts:205-210 | only the first company with the id is replaced by its merge with the update |
| Store.DataStore.AddAppUser | website/src/lib/data-store.ts:221 | the staff member is appended and the other collections are unchanged |
| Store.DataStore.UpdateAppUser | website/src/lib/data-store.ts:222-227 | only the first staff member with the id is replaced by its merge with the update |
| Store.DataStore.DeleteAppUser | website/src/lib/data-store.ts:228-230 | every staff member with the id is removed; every other one stays as often as it was stored, in order |
| Store.DataStore.UpdateReceipt | website/src/lib/data-store.ts:237-244 | only the first receipt with the id is merged; the result is the stored merge, or none for an unknown id |
| Store.DataStore.AddBillingHistory | website/src/lib/data-store.ts:258-260 | the entry is appended and the other collections are unchanged |
| Store.ListingAfterAddAppUser | website/src/lib/data-store.ts:218-221 | after a staff member is appended, a company's listing gains that member at the end exactly when it belongs to the company |
| Store.UpdateAppUserOnlyFirstMatch | website/src/lib/data-store.ts:222-227 | an unknown id changes nothing; otherwise only the first match is replaced |
| Store.AppUserUpdateIdempotent | website/src/lib/data-store.ts:222-227 | applying the same staff update twice equals applying it once, when the update keeps the id |
| Store.CompanyFoundAfterUpdate | website/src/lib/data-store.ts:205-210 | after an update that keeps the id, the company looked up by that id is the merged company |
| Types.MergeCompanyLaws | website/src/lib/data-store.ts:208 | merging an empty update is the identity, and merging the same update twice equals merging once |
| Types.MergeAppUserLaws | website/src/lib/data-store.ts:225 | the same two laws for staff members |
| Types.ParseStaffRole | website/src/app/api/staff/route.ts:91 | a role name is accepted exactly when it is `manager` or `employee`, and names the role it parses to |
| Types.StaffRoleRoundTrip | website/src/app/api/staff/route.ts:91 | parsing a role's name gives the role back |
| Arrays.FilterCounts | website/src/lib/data-store.ts:218-220 | `filter` keeps each element that passes as often as it occurs and never adds one |
| Arrays.FilterLength | website/src/app/api/subscription/usage/route.ts:49-56 | the length of a `filter` result is the number of positions whose element passes |
| Base.Utf16Length | website/src/app/api/company/settings/route.ts:101 | a string's `.length` lies between its number of characters and twice that, and is 0 exactly for the empty string |
| Base.Utf16LengthBmp | website/src/app/api/company/settings/route.ts:101 | for text within the Basic Multilingual Plane, `.length` is the number of characters |
| Base.AstralCharHasLengthTwo | website/src/app/register/page.tsx:159 | a single character outside the Basic Multilingual Plane has `.length` 2 |
| Auth.ValidatePassword | website/src/lib/auth.ts:11-15 | the password is accepted exactly when it equals the stored one |
| Auth.GenerateToken | website/src/lib/auth.ts:18-25 | a token exists exactly when the user's id and e-mail are Latin-1 text (`btoa` throws otherwise); it decodes to the user's id, e-mail, role name and the issue time |
| Auth.ValidateToken | website/src/lib/auth.ts:28-38 | the decoded payload when the token decodes and is not over 24 hours old, otherwise none |
| Auth.DecodeEncode | website/src/lib/auth.ts:19-30 | decoding an encoded payload gives the payload back |
| Auth.TokenRoundTrip | website/src/lib/auth.ts:18-38 | a token of a user with Latin-1 id and e-mail, used within 24 hours of issue, yields the user's id, e-mail and role |
| Auth.ExpiryBoundary | website/src/lib/auth.ts:32-33 | a token is accepted exactly 24 hours after issue and refused one millisecond later |
| Auth.UnsignedTokensAccepted | website/src/lib/auth.ts:28-34 | any encoded payload with a recent or missing timestamp is accepted: nothing authenticates its origin |
| Auth.UndecodableRejected | website/src/lib/auth.ts:35-37 | text that does not decode is refused at any time |
| Api.SessionOf | website/src/app/api/auth/me/route.ts:7-31 | the session outcome: no token, then an invalid or expired token, then a missing or inactive user; an admitted user is active and is the one stored under the token's id |
| Api.SessionGate | website/src/app/api/staff/route.ts:13-25 | the guard passes exactly for an admitted session; it stops with 401 for a missing or invalid token and with 404 for an unknown or inactive user |
| Api.SessionRepresentative | website/src/app/api/company/settings/route.ts:12-29 | after the session guard, 403 "Unauthorized" unless the caller is a representative with a company; passes the caller and its company id |
| Api.RepresentativeClaims | website/src/app/api/subscription/billing/route.ts:7-16 | 401 "Unauthorized" exactly when there is no token; 403 "Forbidden" exactly when the claims are missing or not a representative's; the verified claims pass exactly when they are a representative's |
| Api.RepresentativeRouteAsWritten | website/src/app/api/subscription/billing/route.ts:3-47 | as written, the missing `verifyToken` import makes every request that carries a token end in the catch block: 500 "Internal server error"; only a request without a token gets 401 |
| Api.MissingVerifierRefusesSessions | website/src/app/api/subscription/billing/route.ts:3-16 | a representative's fresh session token is refused with 500 as written, and passes the token check with the session service's validation as the verifier |
| Api.UnsignedTokensReachRepresentativeRoutes | website/src/app/api/subscription/billing/route.ts:7-16 | with the session service's validation as the verifier, any recent payload naming a user and the representative role passes: the token proves nothing about its origin |
| Api.CallerCompany | website/src/app/api/subscription/billing/route.ts:19-22 | 404 "User or company not found" unless the claimed user exists and has a company |
| Api.CurrentPlan | website/src/app/api/subscription/billing/route.ts:28-31 | no plan without a company or plan id; otherwise the first stored plan with the company's plan id, and none exactly when no stored plan has it |
| MeRoute.Me | website/src/app/api/auth/me/route.ts:5-35 | 401 "No token provided", 401 "Invalid or expired token", 404 "User not found or inactive"; on success the user's record without its password |
| MeRoute.ViewLosesOnlyPassword | website/src/app/api/auth/me/route.ts:34 | the view keeps every field but the password: adding the password back restores the user, and the view does not depend on it |
| PlansRoute.ActivePlans | website/src/app/api/subscription/plans/route.ts:6-28 | the session guards' messages; on success exactly the active plans, each as often as it is stored, in catalogue order |
| PlansRoute.SeedCatalogueAllActive | website/src/app/api/subscription/plans/route.ts:26 | with the seed catalogue, every plan is listed |
| BillingRoute.Billing | website/src/app/api/subscription/billing/route.ts:5-40 | 401 without a token, 403 for missing or non-representative claims, 404 "User or company not found" for an unknown caller or one without a company; on success exactly the company's billing entries (each as often as stored) in order, its current plan, and its status and end date (absent without a company) |
| StaffRoute.ListStaff | website/src/app/api/staff/route.ts:8-47 | a representative sees exactly its company's staff; a master admin sees one company's staff or everyone's; each as often as it is stored; anyone else gets 403 |
| StaffRoute.CreateStaffError | website/src/app/api/staff/route.ts:83-101 | in order: a missing field, an e-mail the format check refuses, a role other than manager or employee, an e-mail used by a portal user or staff member; each with its own message; a request passing all four is accepted |
| StaffRoute.CreateStaff | website/src/app/api/staff/route.ts:56-123 | the guards and validation answer without changing the store; success appends exactly one active staff member of the caller's company, created by the caller, and answers 201 without the password |
| StaffRoute.CreatedStaffTakesEmail | website/src/app/api/staff/route.ts:95-116 | after a creation, the same request is refused with "Email already exists", and the company's listing has gained the new member at the end |
| SettingsRoute.Settings | website/src/app/api/company/settings/route.ts:7-56 | the guards, then 404 "Company not found"; the company, its plan, its staff count and active-staff count (never more than the staff count), and quotas of 0 without a plan |
| SettingsRoute.SettingsError | website/src/app/api/company/settings/route.ts:97-103 | the e-mail is checked before the name; a name whose trimmed `.length` (UTF-16 code units) is below 2 is refused |
| SettingsRoute.DomainUpdateClean | website/src/app/api/company/settings/route.ts:112-114 | a given domain is cleared exactly when it is blank; a stored domain is non-empty and neither starts nor ends with white space |
| SettingsRoute.SettingsPatchKeeps | website/src/app/api/company/settings/route.ts:106-114 | the update keeps the id, the subscription fields and the creation time, sets the update time, and leaves the domain alone when none is sent |
| SettingsRoute.SettingsPatchNormalises | website/src/app/api/company/settings/route.ts:101-108 | after a valid request the stored name is trimmed and at least 2 UTF-16 code units long, and the stored e-mail is lower-case |
| SettingsRoute.UpdateSettings | website/src/app/api/company/settings/route.ts:65-123 | failures leave the store unchanged; success changes only the caller's company and answers with the company as now stored |
| ChangeRoute.SubscriptionEnd | website/src/app/api/subscription/change/route.ts:42-47 | a monthly plan ends one calendar month from now, any other plan one year from now |
| ChangeRoute.ChangeEffect | website/src/app/api/subscription/change/route.ts:50-70 | the company is on the new plan, active, ending at the computed date, updated now, and otherwise unchanged; the entry charges the plan's price and is next due when the subscription ends |
| ChangeRoute.ChangeSubscription | website/src/app/api/subscription/change/route.ts:5-81 | the checks in order (token claims, plan id, plan, caller, company); failures leave the store unchanged; success updates the company, appends one billing entry, and leaves the company's current plan as the new one |
| RegisterRoute.RegisterError | website/src/app/api/register/route.ts:34-57 | in order: a missing required field, an existing portal user with the e-mail, an unknown plan; each with its own message; a request passing all three is accepted |
| RegisterRoute.RegistrationRefused | website/src/app/api/register/route.ts:34-57 | a 400 exactly when a check fails, with that check's message, and the tables unchanged |
| RegisterRoute.RegistrationStores | website/src/app/api/register/route.ts:59-112 | after valid checks, the company, the representative and the free trial entry of the chosen plan are appended and nothing else changes, whatever the reply |
| RegisterRoute.NewRecordsAgree | website/src/app/api/register/route.ts:59-110 | the new representative belongs to the new company and is active; the company is on a 30-day trial of the chosen plan; the entry is free and ends with the trial |
| RegisterRoute.Register | website/src/app/api/register/route.ts:21-145 | the reply and the new store are exactly those `Registration` gives for the old tables, and the returned token admits the new user when its id was unused |
| RegisterRoute.RegistrationOutcome | website/src/app/api/register/route.ts:94-145 | after valid checks: 200 exactly when the e-mail is Latin-1 text, otherwise 500 "Internal server error during registration"; a 200 carries the new records, the token for the new user, the plan's name and the trial's end |
| RegisterRoute.RegisteredUserSignedIn | website/src/app/api/register/route.ts:112-132 | the token of a successful registration validates to the new, active representative when no earlier user had its id |
| RegisterRoute.UserFoundAfterAppend | website/src/app/api/register/route.ts:95 | a user appended under an id no one else has is the one found by that id |
| RegisterRoute.RegistrationTakesEmail | website/src/app/api/register/route.ts:41-48 | after a registration, the same request is refused with "A user with this email already exists" |
| ReceiptOrder.InsertSortedPermutation | website/src/app/api/receipts/route.ts:76 | inserting into a newest-first list keeps it newest first and adds exactly the one receipt |
| ReceiptOrder.SortSortedPermutation | website/src/app/api/receipts/route.ts:76 | the sort returns its input rearranged, newest first |
| ReceiptOrder.SortIsStable | website/src/app/api/receipts/route.ts:76 | receipts created at the same time keep their relative order |
| ReceiptOrder.SortKeepsSorted | website/src/app/api/receipts/route.ts:76 | a list already newest first is left as it is |
| ReceiptQuery.FirstFiltersEnds | website/src/app/api/receipts/route.ts:41-73 | with no filter applied everything is kept, and the six filters together are exactly the query's conjunction |
| ReceiptQuery.TotalPages | website/src/app/api/receipts/route.ts:80 | a whole page count for a non-zero limit; NaN exactly for a zero limit and no receipts; Infinity exactly for a zero limit and some receipts |
| ReceiptQuery.TotalPagesIsCeiling | website/src/app/api/receipts/route.ts:80 | for a positive limit, the page count is the least number of pages that holds every receipt |
| ReceiptQuery.HasNextIff | website/src/app/api/receipts/route.ts:101 | for a positive limit there is a next page exactly when receipts remain beyond the current page |
| ReceiptQuery.PageContents | website/src/app/api/receipts/route.ts:81-82 | for page and limit at least 1, the page is the slice from (page-1)*limit, cut at the end of the list |
| ReceiptQuery.EveryReceiptOnItsPage | website/src/app/api/receipts/route.ts:81-82 | the receipt at position i is on page i/limit+1, at position i mod limit |
| ReceiptQuery.PageKeepsOrder | website/src/app/api/receipts/route.ts:76-82 | a page of a newest-first list is newest first |
| ReceiptQuery.NonPositivePages | website/src/app/api/receipts/route.ts:81-82 | page 0 is empty, but page -1 counts from the end of the list |
| ReceiptQuery.StatsAddUp | website/src/app/api/receipts/route.ts:104-109 | the per-status counts add up to the company's total |
| ReceiptQuery.WithUser | website/src/app/api/receipts/route.ts:85-92 | a receipt is annotated with its first matching staff member's name and e-mail; "Unknown User" and "" when none matches or the name is empty |
| ReceiptsRoute.ApplyFilters | website/src/app/api/receipts/route.ts:38-73 | the successive reassignments leave exactly the company's receipts that match the query, in store order |
| ReceiptsRoute.ListReceipts | website/src/app/api/receipts/route.ts:6-110 | the representative guards; on success the requested page of the matching receipts, newest first, each in the store and in the caller's company; the pagination fields and the statistics over all of the company's receipts |
| UsageRoute.MonthEntry | website/src/app/api/subscription/usage/route.ts:43-58 | the entry's count is exactly the number of receipts created in its month, and its amount the sum of their amounts (0 for a missing amount) |
| UsageRoute.MonthCount | website/src/app/api/subscription/usage/route.ts:49-56 | the receipts kept for a month are exactly as many as the positions whose creation falls in that month |
| UsageRoute.SumOfFilter | website/src/app/api/subscription/usage/route.ts:49-57 | summing the kept receipts' amounts equals summing every amount masked by the month test |
| UsageRoute.MonthlyUsage | website/src/app/api/subscription/usage/route.ts:41-59 | the loop yields six entries, oldest first, entry k being for 5-k months back |
| UsageRoute.ThisMonth | website/src/app/api/subscription/usage/route.ts:33-38 | a receipt is kept exactly when it is one of the company's and was created in the current month; the count is exactly the number of such positions, in store order |
| UsageRoute.LastEntryIsThisMonth | website/src/app/api/subscription/usage/route.ts:33-59 | the last history entry is the current month and counts exactly this month's receipts |
| UsageRoute.LimitOr | website/src/app/api/subscription/usage/route.ts:62-66 | the value unless it is missing or 0, then the fallback |
| UsageRoute.Limits | website/src/app/api/subscription/usage/route.ts:62-66 | none of the limits is 0; without a plan or a limits block they are 5 users, 100 receipts and 1000 MB |
| UsageRoute.RoundedRatioIsNearest | website/src/app/api/subscription/usage/route.ts:77-79 | the rounded percentage is the nearest integer to the exact ratio, a half rounding up |
| UsageRoute.PercentWithinLimit | website/src/app/api/subscription/usage/route.ts:77 | a count within a positive limit gives a percentage between 0 and 100 |
| UsageRoute.UsageOf | website/src/app/api/subscription/usage/route.ts:5-90 | the representative guards; on success the staff and receipt counts, this month's count (never above the total), the limits, the six-month history, the percentages, the company's status and end date |
| RegisterPage.RegisterWizard.constructor | website/src/app/register/page.tsx:47-60 | the wizard opens on step 1 with a blank form and no error |
| RegisterPage.SetField | website/src/app/register/page.tsx:118-121 | the named field takes the value and every other field is unchanged |
| RegisterPage.EmailTestIsPattern | website/src/app/register/page.tsx:136 | the form's e-mail test accepts exactly the language of `^[^\s@]+@[^\s@]+\.[^\s@]+$` |
| RegisterPage.ContactError | website/src/app/register/page.tsx:128-158 | in order: a blank name, a blank e-mail, an e-mail of the wrong shape; only the first failure's message is given |
| RegisterPage.PasswordError | website/src/app/register/page.tsx:159-167 | in order: an empty password, one whose `.length` (UTF-16 code units) is below 8, a confirmation that differs |
| RegisterPage.StepError | website/src/app/register/page.tsx:123-177 | a step is refused exactly when it is invalid (lengths in UTF-16 code units); step 3 needs a selected plan; any other step number is valid |
| RegisterPage.ValidFormHasRequiredFields | website/src/app/register/page.tsx:123-177 | a form whose three steps all validate sends every field the registration handler requires |
| RegisterPage.RegisterWizard.ValidateStep | website/src/app/register/page.tsx:123-177 | the result says whether the step is valid; the error shown is empty or the first failure's message |
| RegisterPage.RegisterWizard.HandleInputChange | website/src/app/register/page.tsx:118-121 | only the named field changes, and the error is cleared |
| RegisterPage.RegisterWizard.HandleNext | website/src/app/register/page.tsx:180-184 | the step goes up by exactly one when it is valid and stays otherwise |
| RegisterPage.RegisterWizard.HandlePrevious | website/src/app/register/page.tsx:186-188 | the step goes down by one, with no check |
| RegisterPage.RegisterWizard.HandleSubmit | website/src/app/register/page.tsx:190-202 | the form is sent exactly when a plan is selected; steps 1 and 2 are not checked again |
| RegisterPage.StepMessage | website/src/app/register/page.tsx:123-177 | the message shown is empty exactly when the step is valid |
| StaffPage.FilterStaff | website/src/app/dashboard/staff/page.tsx:284-288 | the shown list is an order-preserving subsequence of the loaded staff, holding each matching member as often as it is loaded and no other |
| StaffPage.ShownIff | website/src/app/dashboard/staff/page.tsx:284-288 | a staff member is shown exactly when the term, ignoring case, occurs in its name, e-mail or role |
| StaffPage.EmptySearchShowsAll | website/src/app/dashboard/staff/page.tsx:284-288 | an empty search shows every loaded staff member |
| StaffPage.RoleSearchShowsRole | website/src/app/dashboard/staff/page.tsx:287 | searching for a role's name shows every staff member with that role |
| StaffPage.ToggleBody | website/src/app/dashboard/staff/page.tsx:232-234 | the toggle request sends the opposite of the current active flag |
| StaffPage.ToggleNotice | website/src/app/dashboard/staff/page.tsx:242 | "activated" exactly when the member was inactive, "deactivated" otherwise |
| StaffPage.ToggleTwiceRestores | website/src/app/dashboard/staff/page.tsx:232-234 | a toggle changes only the active flag, and toggling again restores the member |
| StaffPage.StaffManager.constructor | website/src/app/dashboard/staff/page.tsx:36-50 | the page starts with no staff loaded, an empty search, the form hidden and blank (role employee, active), nothing being edited, no error |
| StaffPage.StaffManager.SetSearchTerm | website/src/app/dashboard/staff/page.tsx:459 | typing in the search box sets the term and nothing else |
| StaffPage.StaffManager.HandleEditStaff | website/src/app/dashboard/staff/page.tsx:211-220 | the form takes the member's e-mail, name, role and active flag, the password is blank, and the form opens on that member |
| StaffPage.StaffManager.ResetForm | website/src/app/dashboard/staff/page.tsx:250-260 | blank fields, role employee, active, nothing being edited, the form hidden, the error cleared |

## Left out

- Next.js request and response objects, JSON parsing of bodies and query
  strings, and the `try`/`catch` blocks that answer 500 (except the
  registration 500 after a failed token, and the token-check 500 in
  Findings). A request is a
  record of optional fields; a response is a status with a body or an
  error.
- Timing:
  - `Date.now()` and `new Date()` are a `now` parameter.
  - `setDate`/`setMonth`/`setFullYear` are the functions of an abstract
    calendar.
  - ISO date strings are timestamps.
  - `toLocaleDateString` month labels are the calendar's month numbers.
  - JavaScript's month overflow (a 31st moved back one month may stay in
    the same month) is therefore the calendar's business and is not
    captured.
- Base64 and JSON in the token are an abstract encode/decode pair; only
  `btoa`'s refusal of text beyond Latin-1 is modelled.
  Decoding an encoding gives the payload back. Other text fails to decode,
  except truthy JSON values that are not objects (a non-zero number, a
  non-empty string, an array, `true`), which decode to a payload with no
  fields. Falsy JSON values (`null`, `0`, `false`, `""`) count as text that
  does not decode: `validateToken` returns them unchanged and every caller
  refuses them as it refuses `null`.
- `verifyToken` is imported from the session module by four handlers, but
  that module exports no such function (see Findings). Those handlers take
  the verifier as a parameter, `Api.SessionVerifier` being the intended one.
- `isValidEmail` and `generateId` come from modules that are not part of
  this model. They enter as function parameters.
- Floating point. Amounts and prices are integers in cents. `parseFloat`
  bounds are integer bounds or an unparsable value.
- UsageRoute.RoundedRatioIsNearest: `Math.round` of a floating-point ratio
  is modelled as exact rounding of the rational ratio. Floating-point
  error near a half is not modelled.
- UsageRoute.UsageOf: storage is reported in half megabytes (0.5 MB per
  receipt), so it equals the receipt count.
- `parseInt` of the `page` and `limit` parameters: the query holds the
  resulting integers. A non-numeric value (NaN) is not modelled.
- `Array.prototype.sort` is modelled as a stable insertion sort on
  creation time. Receipts created at the same instant keep store order, as
  the stable sort of current JavaScript engines does.
- `toLowerCase` lower-cases only the ASCII letters A–Z. Other Unicode case
  mappings are not modelled.
- The page files' rendering, `fetch`, `localStorage`, router redirects and
  timers. On the register page, submission is modelled up to the request
  it would send. On the staff page, only the search filter, the edit, reset
  and toggle actions and the search box are modelled. Creating, updating
  and deleting there are network calls.
- The individual-getter aliases `getUser`, `getCompany` and
  `getSubscriptionPlan`, and the whole-table getters `getUsers`,
  `getCompanies`, `getSubscriptionPlans`, `getAppUsers` and `getReceipts`.
  The aliases are the by-id lookups; the getters return copies, which are
  the `seq` fields themselves.
- Concurrency between requests and `console.error` logging.
- In-place mutation: the store pushes into and assigns into its arrays.
  The model replaces each table's `seq` whole. Since every getter returns a
  copy, no handler can observe the difference; sharing of the record
  objects themselves is not modelled.

## Findings

| source | as written | input that shows it | evidently intended | confidence | as-written member | corrected member |
|---|---|---|---|---|---|---|
| website/src/app/api/subscription/billing/route.ts:3 | the billing, receipts, change and usage handlers import `verifyToken` from the session module, which exports only `AuthService` and `authService`; calling it throws, and the catch answers 500 | any request with a token, e.g. a fresh token of the sample representative | verify the token with the session service's validation and answer by its claims | not executed | Api.RepresentativeRouteAsWritten, Api.MissingVerifierRefusesSessions | Api.RepresentativeClaims with Api.SessionVerifier, Api.UnsignedTokensReachRepresentativeRoutes |
