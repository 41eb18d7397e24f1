# HireNest request logic in Dafny

HireNest is a job portal. Candidates apply to jobs, recruiters post jobs and move
applications through PENDING, VIEWED, SHORTLISTED and REJECTED, and an admin oversees users.
This project models two parts of it:

- **The API route handlers.** Each handler is modelled as its guard chain: a pure `Decide` or
  `Respond` function that yields either the (HTTP status, message) of the first guard that
  fails, or what the handler goes on to compute. The handlers that write (apply, status
  update, upload, registration, job creation, profile update, user deletion) are also methods
  over a `Store` class. `Store` holds the `users`, `candidate_profiles`, `recruiter_profiles`,
  `jobs` and `applications` tables and the identity provider's accounts. Each such method is
  proved to answer as its decision function says and to change the store by exactly the one
  write.
- **The client-side helpers** that decide which actions a page offers and how it shows values:
  - the recruiter's status buttons and job filter;
  - the candidate's notifications and job search;
  - the tables' relative times, status badges and row numbers;
  - the admin dashboard's labels;
  - the job board's query parameters and pagination controls;
  - the navbar.

Store and identity-provider calls are foreign. A failing call is a parameter of the handler
(`insertError`, `writeFails`, `queryError`, …). The store assigns ids and timestamps from a
growing counter and clock. So "newest first" is the reverse of a table kept oldest first, which
`WellFormed` states. The hosted store may return an embedded related row as an array or as an
object; this is the `Shape` parameter. A signed-in caller is `Session = Option<AuthUser>`.

Module layout:
- `Wrappers`, `Seqs`, `Strings`: option and result types, sequence lemmas, and the string
  operations the code relies on (`split`, `join`, `trim`, `includes`, `startsWith`, `String(n)`, `parseInt`,
  `padStart`).
- `Model`: the tables' row types, the store's row shapes, `.single()`, counting by status, and
  `Math.ceil`.
- `Database`: the `Store` class and its writes.
- One module per route handler, and one per page or component.

Behaviours of the code that a reader might not expect:
- The status endpoint has no forward-only transition rule. Any of the four statuses is accepted
  from any current status, and only the recruiter dashboard's buttons are forward-only
  (`RecruiterDashboard.ServerAcceptsBackwardMove`).
- Nothing in the code makes applications unique per (job, candidate); a unique constraint in
  the database would surface only as the insert error, which is a parameter. The apply handler's
  pre-check reads with `.single()`, which finds nothing when two rows match, so it keeps pairs
  unique only while they are unique (`ApplyRoute.DuplicatesOnlyCaughtOnce`).
- The recruiter applications endpoint does not select the profile's `resume_url`, so its
  fallback to the profile's resume never applies (`RecruiterAppsRoute.RowDefaults`).
- A company name read straight off an embedded recruiter profile is found only when the profile
  arrives as an object (`Model.CompanyFieldNeedsObject`).
- On the job board, typing a filter or removing its chip keeps the current page
  (`JobsPage.Board.SetSearch`). The listing endpoints ask the store for a range together with
  the exact count, and the store refuses a range that starts past that count; the endpoint
  then answers 500 (`ListJobsRoute.RefusedPastCount`). So a page left past the new last page
  comes back empty only when its offset lands exactly on the count, and otherwise fails, and
  the board keeps the jobs and pagination it last received (`JobsPage.Board.Receive`).
  "Next", disabled only on exactly the last page, stays enabled past it
  (`JobsPage.PastLastPage`).

## Model

| member | source | states |
|---|---|---|
| AdminAuth.HeaderFirst | src/lib/admin-auth.ts:10-21 | The super admin is granted exactly when the header token parses to the admin email and the SUPER_ADMIN role; the session and database are then not consulted. Any other token falls through to the session path. |
| AdminAuth.LoginSessionAccepted | src/app/admin/login/page.tsx:29-33 | The session value the admin login page stores is accepted by the header check as the super admin, whatever the session. |
| AdminAuth.SessionPathIff | src/lib/admin-auth.ts:24-43 | On the session path, access is granted as `DbAdmin(id)` iff the caller is signed in as `id` and their `users` row says ADMIN. A non-admin with a malformed token is denied. |
| AdminDashboard.TimeAgoBuckets | src/app/admin/dashboard/page.tsx:183-192 | The stepwise floors equal the floors of the whole difference: under a minute is "just now", then whole minutes, hours and days. |
| AdminDashboard.RecentCardNewest | src/app/admin/dashboard/page.tsx:455 | The Recent Jobs card shows min(4, number of jobs) rows, the newest jobs of the store, newest first. |
| AdminDashboard.TabsSplitUsers | src/app/admin/dashboard/page.tsx:480-495 | A user is in the Candidates or Recruiters tab iff they are listed with that role. Together the tabs hold exactly the non-admin users. |
| AdminDashboard.DisplayNameOfRow | src/app/admin/dashboard/page.tsx:725-727 | The name column shows the first and last name only for a candidate whose object profile has both. Otherwise it shows the email, and so does every row when profiles arrive as arrays. |
| AdminDashboard.DetailsOfRow | src/app/admin/dashboard/page.tsx:742-744 | A candidate's details count their applications. Anyone else shows the company of an object profile with a non-empty name, else the number of jobs they posted. |
| AdminOverviewRoute.AdminOnly | src/app/api/admin/overview/route.ts:7-14 | Without admin access the answer is 401, whatever the store holds. |
| AdminOverviewRoute.CountsOrZero | src/app/api/admin/overview/route.ts:78-93 | Each count is 0 when its read failed and the true count otherwise. With those reads working, the status counts sum to the total and open plus closed jobs is all jobs. |
| AdminOverviewRoute.NewestAreLast | src/app/api/admin/overview/route.ts:37-48 | Newest-first-limit-5 of an oldest-first table is its last min(5, n) rows, last first, in decreasing order of the key. |
| AdminOverviewRoute.RecentAreNewest | src/app/api/admin/overview/route.ts:37-48 | The recent users and jobs are the five newest rows (or all of them), newest first, and empty when their read failed. |
| AdminOverviewRoute.RecentJobFields | src/app/api/admin/overview/route.ts:65-76 | A recent job keeps its job's id, title, status and time. Its company is its recruiter's company name when the profile read worked, the profile exists and the name is non-empty, and 'Unknown' otherwise. Its count is the number of applications with that job id, or 0 when that read failed. |
| AdminUsersRoute.RoleFilter | src/app/api/admin/users/route.ts:17-39 | A user is selected iff no role is given or the role names theirs. The defaults are page 1 and limit 20, from offset 0. |
| AdminUsersRoute.PageIsWindow | src/app/api/admin/users/route.ts:19-35 | The page is the selected users from offset (page−1)·limit on, in order: at most `limit` of them, exactly `limit` when that many remain, and all the remaining ones on a partial last page. |
| AdminUsersRoute.ViewWindow | src/app/api/admin/users/route.ts:50-58 | The rows of a window are the rows of the users from the offset on. |
| AdminUsersRoute.PaginationCounts | src/app/api/admin/users/route.ts:60-67 | The total is the number of selected users. With a positive limit, `pages` is the least page count that holds them all, so 0 for an empty listing. |
| AdminUsersRoute.NewestFirst | src/app/api/admin/users/route.ts:34 | In a well-formed store the page lists users by strictly decreasing creation time. |
| AdminUsersRoute.RowContents | src/app/api/admin/users/route.ts:50-58 | A candidate's row carries their candidate profile and anyone else's their recruiter profile, in either shape. A user who posted no job shows a job count of 0. |
| AdminUsersRoute.DeleteGuards | src/app/api/admin/users/route.ts:80-104 | No admin access gives 401 and a missing user id gives 400. A database admin naming their own id gets 400 before any deletion; the super admin may delete anyone. |
| AdminUsersRoute.RefusedPastCount | src/app/api/admin/users/route.ts:33-48 | With admin access and the store working, the answer is the page iff the offset does not pass the number of selected users, and 500 with the store's refusal otherwise. An offset equal to that number gives an empty page that still reports the total. |
| AdminUsersRoute.Get | src/app/api/admin/users/route.ts:5-68 | The handler, with its query refined under the role parameter, answers as `Respond` and changes nothing. |
| AdminUsersRoute.Delete | src/app/api/admin/users/route.ts:78-118 | The answer follows the guards. The store loses exactly the account and the `users` row of that id, and only when the provider call succeeds. |
| ApplicationsTable.StatsAddUp | src/components/applications-table.tsx:120-126 | The four status counts sum to the number of rows with a known status, never exceed the total, and equal it when every status is known. |
| ApplicationsTable.CountEntries | src/components/applications-table.tsx:120-126 | Counting endpoint rows by status name counts the applications with that status. |
| ApplicationsTable.StatsOfEndpointRows | src/components/applications-table.tsx:120-126 | For the rows the candidate endpoint sends, the table's stats equal the endpoint's own tally. |
| ApplicationsTable.StatusLabelIff | src/components/applications-table.tsx:59-107 | The badge shows the raw status iff it is not one of the four. A known status is shown as a word of the same length and initial. |
| ApplicationsTable.TimelineIsPrefix | src/components/applications-table.tsx:401-416 | The lit steps form a prefix. A REJECTED application lights no step; its last step alone is drawn red with a cross and labelled "Rejected", and the last step is green iff it is lit. Pending, viewed and shortlisted light 1, 2 and 3 steps. |
| ApplyRoute.ResumeOfEitherShape | src/app/api/jobs/apply/route.ts:38-46 | The resume read from element 0 of an array, or from the object, is the profile's own `resume_url`; null without a profile. |
| ApplyRoute.PairAtMostOnce | src/app/api/jobs/apply/route.ts:87-100 | Under one-application-per-pair, no two rows match the same (job, candidate). |
| ApplyRoute.CandidateGuard | src/app/api/jobs/apply/route.ts:30-36 | With unique user ids, the role check passes iff the caller has a `users` row with role CANDIDATE. |
| ApplyRoute.OpenJobGuard | src/app/api/jobs/apply/route.ts:67-85 | With unique job ids, the job checks pass iff a job with that id exists and is OPEN. |
| ApplyRoute.DuplicateGuard | src/app/api/jobs/apply/route.ts:87-100 | Under one-application-per-pair, the `.single()` pre-check finds nothing iff the caller has not applied to the job. |
| ApplyRoute.SucceedsIffEligible | src/app/api/jobs/apply/route.ts:13-113 | The decision is Ok iff the caller is a candidate with a resume, the job exists and is open, and the caller has not applied. The draft is then PENDING, with the caller's id, the profile's resume and the cover letter or null. |
| ApplyRoute.ResumeCheckedBeforeJobId | src/app/api/jobs/apply/route.ts:50-64 | A candidate without a resume gets the resume 400 whatever the body holds, even with no job id. |
| ApplyRoute.ShapeIrrelevant | src/app/api/jobs/apply/route.ts:38-46 | The decision is the same whether the profile arrives as an array or an object. |
| ApplyRoute.GuardsIgnoreApplications | src/app/api/jobs/apply/route.ts:13-85 | Adding applications changes no guard before the duplicate check. |
| ApplyRoute.OnePerPairAppend | src/app/api/jobs/apply/route.ts:102-113 | Appending an application for a pair that has none keeps one application per pair. |
| ApplyRoute.NoSecondApplication | src/app/api/jobs/apply/route.ts:87-113 | After a successful apply, the same request by the same caller is refused as a duplicate, and the table stays one-per-pair. |
| ApplyRoute.DuplicatesOnlyCaughtOnce | src/app/api/jobs/apply/route.ts:88-95 | Once a pair has two applications, `.single()` finds none and a further apply is let through. |
| ApplyRoute.Post | src/app/api/jobs/apply/route.ts:4-125 | Answers as `Decide`. On success with no insert error, the store gains exactly the inserted row at the end of `applications`; otherwise nothing changes. |
| CandidateAppsRoute.OnlyCandidates | src/app/api/candidate/applications/route.ts:10-29 | No session gives 401. A caller without a row, or whose role is not CANDIDATE, gets 403. |
| CandidateAppsRoute.OwnAppsListed | src/app/api/candidate/applications/route.ts:32-67 | The list is the caller's applications, newest first, one row per application in the same order, with its id, status and date. |
| CandidateAppsRoute.StatsCountOwnApps | src/app/api/candidate/applications/route.ts:69-75 | `total` is the number of the caller's applications and each status count the number with that status; the four sum to the total. |
| CandidateAppsRoute.CompanyShown | src/app/api/candidate/applications/route.ts:65 | In the object shape the company is the recruiter's company name when the job, the recruiter's `users` row and profile exist and the name is non-empty, and 'Unknown' otherwise; a missing job gives an all-null job with 'Unknown'. In the array shape it is always 'Unknown'. |
| CandidateDashboard.MessageNames | src/app/dashboard/candidate/page.tsx:185-196 | Every message contains the job title, and every message about a decision also contains the company. |
| CandidateDashboard.NotificationsOfDecided | src/app/dashboard/candidate/page.tsx:156-166 | One notification per non-pending application, in order, with its id and status, all unread. The unread count is the number of non-pending applications. |
| CandidateDashboard.NotificationCountFromStats | src/app/dashboard/candidate/page.tsx:156-166 | For the endpoint's list, the number of notifications is `stats.total - stats.pending`. |
| CandidateDashboard.FilteredJobsIff | src/app/dashboard/candidate/page.tsx:389-393 | A job is kept iff its title, company or location contains the query ignoring case. An empty query keeps the list as it is. |
| CandidateDashboard.WithoutIff | src/app/dashboard/candidate/page.tsx:338 | Removing a job drops exactly the entries with its id and keeps every other entry. |
| CandidateDashboard.Dashboard.constructor | src/app/dashboard/candidate/page.tsx:127-130 | Starts with the loaded jobs, no selection, an empty letter and the dialog closed. |
| CandidateDashboard.Dashboard.OpenApply | src/app/dashboard/candidate/page.tsx:306-310 | Selects the job, clears the letter and opens the dialog; the jobs list is unchanged. |
| CandidateDashboard.Dashboard.HandleApply | src/app/dashboard/candidate/page.tsx:312-351 | No-op without a selection. On success the dialog closes and exactly that job leaves the list; on failure the list and dialog are unchanged. |
| CreateJobRoute.NormalizeSkillsText | src/app/api/jobs/create/route.ts:57 | Skills text becomes non-empty trimmed pieces without commas. Joining such pieces with commas and normalising gives them back. |
| CreateJobRoute.RoleResolution | src/app/api/jobs/create/route.ts:25-36 | With a `users` row only its role counts; without one the metadata role decides. A non-recruiter gets 403 naming the role or 'unknown'. |
| CreateJobRoute.CreatesOpenJobOfCaller | src/app/api/jobs/create/route.ts:40-60 | Ok iff a recruiter gives title, description and location. The draft is OPEN, owned by the caller, keeps those fields, and has empty optional fields as null. |
| CreateJobRoute.Post | src/app/api/jobs/create/route.ts:4-75 | Answers as `Decide`. On success the store gains exactly the new job at the end of `jobs`; otherwise nothing changes. |
| Database.WithStatus | src/app/api/applications/status/route.ts:71-74 | Same length; the rows with that id get the status and every other row is unchanged. |
| Database.Store.constructor | src/lib/supabase.ts:10-56 | A store seeded with any well-formed database holds exactly it. |
| Database.Store.AddApplication | src/app/api/jobs/apply/route.ts:103-113 | Appends one application with a fresh id and the current time and changes nothing else; the store stays well-formed. |
| Database.Store.AddJob | src/app/api/jobs/create/route.ts:48-62 | Appends one job with a fresh id and timestamps and changes nothing else; the store stays well-formed. |
| Database.Store.AddAccount | src/app/api/auth/register/route.ts:56-67 | Appends one account with a fresh id and the given email and metadata. |
| Database.Store.SetStatus | src/app/api/applications/status/route.ts:71-74 | Sets the status of the rows with that id and nothing else. |
| Database.Store.PutCandidate | src/app/api/auth/me/route.ts:93-96 | Replaces one candidate profile and nothing else. |
| Database.Store.PutRecruiter | src/app/api/auth/me/route.ts:99-102 | Replaces one recruiter profile and nothing else. |
| Database.Store.DeleteUser | src/app/api/admin/users/route.ts:108-109 | Removes the account and the `users` row with that id and nothing else. |
| Display.DaysIsFloor | src/components/applications-table.tsx:50 | The day count is the largest whole number of days that fits in the difference, for future dates too. |
| Display.RelativeBuckets | src/components/applications-table.tsx:46-57 | Under one day "Today", under two "Yesterday", then 2–6 days, 1–4 weeks under 30 days, and at least one month after. A date up to a day ahead shows "-1 days ago". The jobs table (src/components/jobs-table.tsx:66-77) uses the same function. |
| Display.RelativeAbsSymmetric | src/app/jobs/page.tsx:131-142 | The job board's label is the same for a past and a future date. It equals the tables' label for past dates and never shows a negative count. |
| Display.RelativeOrDateAgrees | src/app/dashboard/candidate/page.tsx:376-387 | Agrees with the tables' label under 30 days, and shows the date from then on. |
| Display.RowLabelDigits | src/components/applications-table.tsx:251 | Rows 1–9 get a leading zero and later rows the plain number; the label is all digits, at least two long, and denotes the one-based row number. |
| JobsPage.ParamsCarryFilters | src/app/jobs/page.tsx:92-98 | The parameters carry the page, limit "12" and exactly the non-empty filters, and no status. |
| JobsPage.ParamsRoundTrip | src/app/jobs/page.tsx:92-100 | The list endpoint parses the page and limit back as the page and 12, and reads the rest as open jobs, exactly the non-empty filters, offset (page−1)·12 and limit 12. |
| JobsPage.LookupSkip | src/app/jobs/page.tsx:92-98 | Parameters without the key do not change what `get` finds. |
| JobsPage.LookupMissing | src/app/jobs/page.tsx:92-98 | A key no parameter has is not found. |
| JobsPage.LookupConcat | src/app/jobs/page.tsx:92-98 | A key is found in the first part, else in the second. |
| JobsPage.ControlsForMoreThanAPage | src/app/jobs/page.tsx:371-383 | The controls show iff more than 12 jobs match. The buttons are 1..min(pages, 5), none beyond the last page. |
| JobsPage.Board.constructor | src/app/jobs/page.tsx:57-60 | Empty filters on page 1. |
| JobsPage.Board.ClearFilters | src/app/jobs/page.tsx:124-129 | Every filter is "" and the page is 1, so the next fetch sends only page 1 and limit 12. |
| JobsPage.Board.SetSearch | src/app/jobs/page.tsx:180 | Typing a search, or removing its chip: the search text changes, the other filters and the page stay, so the next fetch asks for the same page. |
| JobsPage.Board.SetLocation | src/app/jobs/page.tsx:190 | Typing a location, or removing its chip: the location changes, the other filters and the page stay. |
| JobsPage.Board.SetJobType | src/app/jobs/page.tsx:194 | Choosing a job type, or removing its chip: the job type changes, the other filters and the page stay. |
| JobsPage.PastLastPage | src/app/jobs/page.tsx:396-400 | For the board's query with the store working: a page within the count holds jobs; a page whose offset is exactly the count gives an empty listing and is one past the last; a page further on is refused with 500. "Next" is enabled on any page past the last. |
| JobsPage.Board.Receive | src/app/jobs/page.tsx:103-106 | A successful answer replaces the jobs and the pagination; an error keeps both, and the filters and page stay. |
| JobsPage.Board.Search | src/app/jobs/page.tsx:118-122 | Back to page 1 with the filters kept. |
| JobsPage.Board.Previous | src/app/jobs/page.tsx:374-377 | Drawn when the last answer's page count is above one and enabled away from page 1; moves one page back and never below page 1. The filters, jobs and pagination stay. |
| JobsPage.Board.Next | src/app/jobs/page.tsx:397-400 | Drawn when the last answer's page count is above one and enabled unless the page is exactly that count; moves one page on. From a page within the count it stays within it; from a page past the last it goes further past. |
| JobsPage.Board.GoTo | src/app/jobs/page.tsx:381-390 | The i-th numbered button (at most five, drawn with the controls) sets page i+1, which is within 1..pages. |
| JobsTable.BadgeIff | src/components/jobs-table.tsx:79-93 | A badge is shown iff the type is non-empty, and it shows that type. An unlisted type gets the default colour. |
| JobsTable.JoinedSnoc | src/components/jobs-table.tsx:216 | Joining one more skill appends ", " and that skill. |
| JobsTable.PreviewsAgree | src/components/jobs-table.tsx:214-240 | The mobile preview appears iff there are skills and starts with the first. The desktop preview (two skills) is a prefix of the mobile one (three). |
| JobsTable.ApplyDialog.constructor | src/components/jobs-table.tsx:38-40 | No selection, an empty letter, not busy. |
| JobsTable.ApplyDialog.Open | src/components/jobs-table.tsx:42-45 | Selects the job with an empty letter. |
| JobsTable.ApplyDialog.Close | src/components/jobs-table.tsx:47-50 | Clears the selection and the letter. |
| JobsTable.ApplyDialog.HandleApply | src/components/jobs-table.tsx:52-64 | No-op without a selection or handler. Otherwise sends the selection and letter; success clears both, failure keeps both, and busy ends cleared. |
| ListJobsRoute.SelectedIff | src/app/api/jobs/list/route.ts:9-41 | A job is selected iff it is in the table and passes the status, search, location and type filters. The defaults are OPEN, no filters and offset 0. |
| ListJobsRoute.PageIsWindow | src/app/api/jobs/list/route.ts:16-31 | The page is the selected jobs from offset (page−1)·limit on, in order: at most `limit` of them, exactly `limit` when that many remain, and all the remaining ones on a partial last page. |
| ListJobsRoute.ViewWindow | src/app/api/jobs/list/route.ts:53-66 | The rows of a window are the rows of the jobs from the offset on. |
| ListJobsRoute.NewApplicationCounted | src/app/api/jobs/list/route.ts:65 | A new application adds one to its job's count and leaves every other job's count unchanged. |
| ListJobsRoute.NewestFirst | src/app/api/jobs/list/route.ts:30 | In a well-formed store the page lists jobs by strictly decreasing creation time. |
| ListJobsRoute.PaginationCounts | src/app/api/jobs/list/route.ts:68-75 | The total is the number of matching jobs. With a positive limit, `pages` is the least page count that holds them all, so 0 for an empty listing; with limit 0 it is null. |
| ListJobsRoute.CompanyShown | src/app/api/jobs/list/route.ts:64 | In the object shape the company is the recruiter's company name when their `users` row and profile exist and the name is non-empty, and 'Unknown Company' otherwise; in the array shape it is always 'Unknown Company'. |
| ListJobsRoute.RefusedPastCount | src/app/api/jobs/list/route.ts:28-50 | With the store working, the answer is the listing iff the offset does not pass the number of matching jobs, and 500 with the store's refusal otherwise. An offset equal to that number gives an empty page that still reports the total. |
| ListJobsRoute.Get | src/app/api/jobs/list/route.ts:4-76 | Refines the query once per non-empty parameter, answers as `Respond`, and changes nothing. |
| LoginRoute.InputBeforeSignIn | src/app/api/auth/login/route.ts:8-27 | Missing email or password gives 400 whatever the provider would answer. A sign-in error gives 401 with its message. |
| LoginRoute.RoleAndProfile | src/app/api/auth/login/route.ts:29-48 | The role is the row's, else the non-empty metadata role, else CANDIDATE. The profile is the candidate one iff the row says CANDIDATE, and absent without a row. |
| MeRoute.ProfileByRole | src/app/api/auth/me/route.ts:10-41 | No session gives 401 and no row gives 404. The profile is the caller's candidate or recruiter profile in either shape, and null for an admin and for a candidate or recruiter without a profile. |
| MeRoute.PatchTouchesOwnProfile | src/app/api/auth/me/route.ts:90-103 | A candidate changes only their phone and a recruiter only their company fields; other body fields are ignored. An admin changes nothing, and no other profile changes. |
| MeRoute.Patch | src/app/api/auth/me/route.ts:61-105 | 401 without a session and 404 without a row. Otherwise success, with the store patched as `Patched` says unless the write fails. |
| Model.ParseStatus | src/app/api/applications/status/route.ts:40-41 | The result is a status exactly for the four names, and then that status's name is the input. |
| Model.ParseStatusName | src/app/api/applications/status/route.ts:40-41 | Every status name parses back to its status. |
| Model.OrNull | src/app/api/jobs/create/route.ts:54-56 | `x \|\| null` is null iff the value is absent or empty, and the value otherwise. |
| Model.FirstRowOfEmbed | src/app/api/auth/me/route.ts:34-40 | Reading element 0 of an array, or the object, gives the related row back in either shape. |
| Model.Single | src/app/api/jobs/apply/route.ts:88-95 | `.single()` finds a row iff exactly one matched, and then it is that row. |
| Model.FilterNone | src/app/api/jobs/apply/route.ts:88-95 | When nothing matches, the filter is empty. |
| Model.FilterAtMostOne | src/app/api/jobs/apply/route.ts:88-95 | When no two rows match, at most one survives the filter. |
| Model.SingleFilterUnique | src/app/api/jobs/apply/route.ts:88-95 | When no two rows match, `.single()` finds a row iff one matches, and finds that one. |
| Model.UserRowIs | src/app/api/applications/status/route.ts:18-22 | With unique ids, the lookup by id finds the user with that id iff there is one. |
| Model.JobRowIs | src/app/api/jobs/apply/route.ts:67-71 | With unique ids, the lookup by id finds the job with that id iff there is one. |
| Model.AppRowIs | src/app/api/applications/status/route.ts:49-56 | With unique ids, the lookup by id finds the application with that id iff there is one. |
| Model.TallySums | src/app/api/candidate/applications/route.ts:69-75 | The four status counts sum to the total. |
| Model.CeilDivIsCeiling | src/app/api/jobs/list/route.ts:74 | With a positive divisor, `Math.ceil(a / b)` is the least page count whose pages hold `a` rows, 0 when `a` is 0. |
| Model.CompanyFieldNeedsObject | src/app/api/jobs/list/route.ts:64 | `company_name` read off the embedding is found for an object and never for an array. |
| Navbar.DashboardLinkByRole | src/components/navbar.tsx:52-64 | A visitor goes to "/login" and each role to "/dashboard/" plus the lower-case role name; any other role goes to "/dashboard". |
| Navbar.ActiveMeansBelow | src/components/navbar.tsx:81 | An active link is a prefix of the path, and every path below it activates it. "/jobs" is not active on "/jobsx", and "/" only on "/". |
| Navbar.LinkSets | src/components/navbar.tsx:67-79 | A signed-in user gets Dashboard and Browse Jobs and no public link; a visitor gets the four public links. The menu adds 1 item for a candidate and 2 for a recruiter (lines 194-217). |
| RecruiterAppsRoute.Guards | src/app/api/recruiter/applications/route.ts:10-45 | No session gives 401, and a caller without a row or with another role gets 403. A recruiter who owns no job gets an empty list. |
| RecruiterAppsRoute.OwnJobIds | src/app/api/recruiter/applications/route.ts:36-41 | An id is among the caller's job ids iff a job with that id belongs to the caller. |
| RecruiterAppsRoute.ListedIff | src/app/api/recruiter/applications/route.ts:48-66 | An application is listed iff it is to one of the caller's jobs and passes both the job and status filters. |
| RecruiterAppsRoute.ForeignJobFilterIsEmpty | src/app/api/recruiter/applications/route.ts:58-63 | A job filter naming a job the caller does not own gives an empty list. |
| RecruiterAppsRoute.NewestFirst | src/app/api/recruiter/applications/route.ts:59 | In a well-formed store the list is by strictly decreasing application time. |
| RecruiterAppsRoute.RowDefaults | src/app/api/recruiter/applications/route.ts:77-98 | The resume is the application's own or null, since the profile's is not selected. A missing candidate shows 'Unknown' with null fields. An existing candidate shows their id and their email, or 'Unknown' for an empty one; the first, last name, phone and photo come from their profile in either shape, and are null without a profile. |
| RecruiterAppsRoute.Get | src/app/api/recruiter/applications/route.ts:4-101 | Refines the query for each parameter given, answers as `Respond`, and changes nothing. |
| RecruiterDashboard.OfferedIffForward | src/app/dashboard/recruiter/page.tsx:664-693 | A move is offered iff it goes to a later stage; shortlisted and rejected offer none. |
| RecruiterDashboard.CloseOnlyOpen | src/app/dashboard/recruiter/page.tsx:545-549 | "Close Position" is offered iff the job is OPEN. |
| RecruiterDashboard.ServerAcceptsBackwardMove | src/app/dashboard/recruiter/page.tsx:664-693 | The status endpoint accepts the owner's move from SHORTLISTED back to PENDING, which the buttons never offer. |
| RecruiterDashboard.RowShowsOwnJob | src/app/dashboard/recruiter/page.tsx:284-286 | The row of an application to the caller's job shows that job's id. |
| RecruiterDashboard.ClientFilterMatchesServer | src/app/dashboard/recruiter/page.tsx:284-286 | Filtering the full list by a job gives the rows, in the same order, that the endpoint returns for `job_id` = that job. |
| RecruiterDashboard.NarrowedToJob | src/app/dashboard/recruiter/page.tsx:284-286 | Among the caller's applications, those whose row shows the job are exactly those the `job_id` filter keeps. |
| RecruiterDashboard.ButtonMatchesServerGuard | src/app/dashboard/recruiter/page.tsx:417 | For a recruiter the button is enabled iff the create endpoint accepts the form. The stored skills are the server's split of the text, and an empty salary is stored as null. |
| RecruiterDashboard.Dashboard.constructor | src/app/dashboard/recruiter/page.tsx:113-124 | Empty form, not creating, dialog closed, no job selected. |
| RecruiterDashboard.Dashboard.CreateJob | src/app/dashboard/recruiter/page.tsx:161-199 | Sends the form with split skills. Success resets every field to "" and closes the dialog; failure keeps the form; busy ends cleared. |
| RecruiterJobsRoute.OnlyRecruiters | src/app/api/recruiter/jobs/route.ts:10-29 | Only a signed-in caller whose row says RECRUITER gets past the guards; an admin gets 403. |
| RecruiterJobsRoute.OwnJobsCounted | src/app/api/recruiter/jobs/route.ts:32-62 | Lists exactly the caller's jobs, once each, newest first. Each job's four counts sum to its total, which is the number of applications to it. |
| RecruiterJobsRoute.OpenPlusClosed | src/app/api/recruiter/jobs/route.ts:64-71 | Open plus closed jobs is the number of jobs. |
| RecruiterJobsRoute.CountFirstJob | src/app/api/recruiter/jobs/route.ts:66 | Counting the applications to a list of jobs splits off the first job's count. |
| RecruiterJobsRoute.TotalAppsCountsEachOnce | src/app/api/recruiter/jobs/route.ts:66 | Over jobs with distinct ids, the sum of per-job totals is the number of applications to any of them. |
| RecruiterJobsRoute.StatsOfCaller | src/app/api/recruiter/jobs/route.ts:64-75 | `total_applications` is the number of applications to the caller's jobs, and open plus closed is `total_jobs`. |
| RegisterRoute.PassesIffValid | src/app/api/auth/register/route.ts:9-67 | The guards pass iff the request is valid field by field. The metadata then has the requested role and null for each absent optional field. |
| RegisterRoute.GuardOrder | src/app/api/auth/register/route.ts:9-53 | Missing credentials win over a short password, which wins over a missing, empty or unknown role, which wins over a recruiter's missing company name or email, which wins over an email already in the users table; each refusal carries its own message and every refusal is a 400. A 6-character password passes. |
| RegisterRoute.Post | src/app/api/auth/register/route.ts:4-91 | Answers as `Decide`. On `Created` it adds exactly that account and echoes the requested role; otherwise the store is unchanged. |
| StatusRoute.OwnerEitherShape | src/app/api/applications/status/route.ts:58-61 | The owner read from element 0 of an array, or the object, is the job's recruiter. |
| StatusRoute.ShapeIrrelevant | src/app/api/applications/status/route.ts:49-68 | The decision does not depend on the join's shape. |
| StatusRoute.OnlyRecruiters | src/app/api/applications/status/route.ts:17-29 | An admin, a candidate or a caller without a row gets 403. |
| StatusRoute.OwnershipDecides | src/app/api/applications/status/route.ts:40-74 | Past the role and input checks, the owner is accepted with any status from any current status. An absent application and someone else's get the same 404. |
| StatusRoute.OwnsIff | src/app/api/applications/status/route.ts:49-68 | Ownership holds iff the application is found, its job is found, and that job's recruiter is the caller. |
| StatusRoute.UpdateTouchesOneRow | src/app/api/applications/status/route.ts:71-74 | Only the status of that one row changes, to the target, which is reachable from any current status. |
| StatusRoute.Patch | src/app/api/applications/status/route.ts:4-83 | Answers as `Decide`. On success with no update error, only that application's status changes; otherwise nothing changes. |
| Strings.SplitTrimNonEmpty | src/app/api/jobs/create/route.ts:57 | Every piece is non-empty, trimmed and free of commas. |
| Strings.SplitJoin | src/app/api/jobs/create/route.ts:57 | Joining the pieces of a split with the same separator gives the string back. |
| Strings.JoinSplit | src/app/api/jobs/create/route.ts:57 | Splitting pieces without the separator, joined by it, gives the pieces back. |
| Strings.SplitTrimNonEmptyJoin | src/app/dashboard/recruiter/page.tsx:172 | Non-empty trimmed pieces without commas, joined with commas and normalised, come back unchanged. |
| Strings.Trim | src/app/api/jobs/create/route.ts:57 | The result is the string without its leading and trailing whitespace: it starts right after the leading whitespace, only whitespace follows it, and it is empty iff the string is all whitespace. |
| Strings.IntToStringParses | src/app/api/jobs/list/route.ts:9-10 | `parseInt` reads back the number `String(n)` writes, negative numbers included. |
| Strings.SingleSkill | src/app/api/jobs/create/route.ts:57 | Text without commas gives its trimmed self, or nothing when blank. |
| Strings.SplitLast | src/app/api/upload/route.ts:68 | The last piece of a split is a suffix without the separator. It follows the last separator, or is the whole string. |
| Strings.EmptyQueryMatches | src/app/dashboard/candidate/page.tsx:389-393 | Every string contains the empty query, ignoring case. |
| Strings.PadStart2 | src/components/applications-table.tsx:251 | At least two characters. A shorter string is left-padded with '0' to exactly two; a longer one is kept. |
| Strings.NatToString | src/components/applications-table.tsx:251 | All digits with no leading zero; one digit iff the number is below 10. |
| Strings.NatToStringValue | src/components/applications-table.tsx:251 | The digits `String(n)` writes denote `n`. |
| Strings.NatToStringInjective | src/components/applications-table.tsx:251 | Two numbers are written the same iff they are equal. |
| UploadRoute.ExtensionAfterLastDot | src/app/api/upload/route.ts:68 | The extension has no dot and ends the name. It follows the last dot, or is the whole name without one. |
| UploadRoute.AcceptedIff | src/app/api/upload/route.ts:10-63 | Any signed-in caller, whatever the role, succeeds iff a file and a kind are given and the file is acceptable for the kind. |
| UploadRoute.StoredUnder | src/app/api/upload/route.ts:67-71 | An accepted file goes to "photos/" or "resumes/" + uid + "-" + time + "." + extension. |
| UploadRoute.SizeLimitsInclusive | src/app/api/upload/route.ts:44-62 | A 5 MiB photo and a 10 MiB resume pass; one byte more fails. |
| UploadRoute.WritesOneField | src/app/api/upload/route.ts:94-105 | Only `photo_url` or `resume_url` of the caller's own profile changes; nothing is written without a profile. |
| UploadRoute.Post | src/app/api/upload/route.ts:4-111 | Answers as `Decide`. A failed upload gives 500 and changes nothing. After a successful upload only the one profile field is written, and only if that write succeeds. |
| UploadRoute.WriteUrl | src/app/api/upload/route.ts:94-105 | The candidates map becomes `WithUrl(...)` unless the write fails; nothing else changes. |

## Left out

- Store and identity-provider calls are foreign and their internals are not modelled. A
  failing insert, update, count, list query, sign-in, account creation, deletion or storage
  upload is a parameter of the handler.
- The single-row reads whose error the handlers fold into "no row" (`error || !data`, or an
  ignored error) are taken to succeed: the users, profile and job reads of apply, the status
  update, job creation and the profile update, the admin session check, registration's
  existing-email read, login's users-row read (`LoginRoute.Respond`), and the users-row role
  reads of `CandidateAppsRoute.Respond`, `RecruiterJobsRoute.Respond` and
  `RecruiterAppsRoute.Respond`. A failure there reads as the row being absent, as in the
  source: for apply's duplicate pre-check that lets a duplicate through to the insert; for
  login the role then falls back to the account metadata's role, or CANDIDATE, even when a
  users row exists; for the three list endpoints the caller is refused with 403.
- Request parsing (`request.json()`, `formData()`, `JSON.parse` of the admin token) is not
  modelled. Fields arrive already parsed as optional values, and the admin token as `Json` or
  `Malformed`.
- A page or limit that `parseInt` turns into NaN is not modelled. Page and limit are integers.
- Strings.ParseInt: reads only an optional minus sign followed by digits. `parseInt`'s leading
  whitespace, `+` sign and ignored trailing text are not modelled; the job board only sends
  what `String(n)` writes.
- A page below 1 gives a negative offset. What the store answers to a negative range is not
  modelled; the model answers an empty page.
- Cascade deletes of a removed user's profiles, jobs and applications happen in database
  foreign keys, outside the code. `DeleteUser` removes only the account and the `users` row.
- Database triggers, concurrency (the check-then-insert race in apply, the dashboards'
  parallel fetches) and row-level security are not modelled. Each handler runs sequentially.
- Clocks are parameters (milliseconds); the store's clock only grows.
- `toLocaleDateString` text is the parameter `dateText`.
- PostgREST `ilike`/`.or()` pattern escaping is not modelled. A search is a plain
  case-insensitive substring match, with case folding limited to ASCII letters.
- The QuickStat percentage on the admin dashboard is floating-point arithmetic and is not
  modelled.
- The dashboards' fetch-and-refresh I/O, toasts, routing, JSX, styling and the profile edit
  dialog are not modelled.
- The `/api/jobs/{id}` PATCH and DELETE routes, called by the recruiter dashboard, are not part
  of this model.
- The logout route is not part of this model.
- In the recruiter dashboard, an application whose joined `job` is null makes the client filter
  throw in the source. The model reads a missing job as one whose id matches nothing.
- ApplicationsTable.StatusLabelIff: states only that a known status is shown as a word of the
  same length and initial, not the lower-case letters that follow the initial.
- RegisterRoute.Decide: a string's length counts Unicode scalar values, while `password.length`
  counts UTF-16 code units. A password of fewer than 6 scalar values that needs at least 6 code
  units (three emoji, say) is refused here and accepted by the source.
- Strings.Trim: strips ASCII whitespace only. JavaScript's `trim()` also strips the other Unicode
  white-space and line terminators (no-break space, U+2028, U+FEFF, …), so a skill ending in one
  of them keeps it here.
- `users.created_at` and the other timestamps are integers, not ISO strings. Ordering by them
  is ordering by the integer.
