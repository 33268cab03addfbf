# HR dashboard client state, modelled in Dafny

This project models the client-side core of a browser HR dashboard:

- the three store slices: jobs, auth session and analytics;
- the mock sign-in hook;
- the REST client's token store, interceptors and error normaliser;
- the decision logic inside the job and LinkedIn components.

Each slice is a class whose fields are the slice's state. Each reducer is a
method whose postcondition gives the new state as a function of the old one.
Lemmas about those functions state what the reducers promise: where a job
lands, what stays untouched, which counters move, and what a later reducer
can or cannot undo. The components are classes too: their `useState`
variables are fields and their handlers are methods that call the slice
methods. Their guards, badges, display names and statistics are pure
functions with lemmas.

Clock readings (`Date.now()`, `new Date().toISOString()`) are string or
integer parameters. The cookie, `localStorage`, the page's query string and
`window.location.href` are plain fields. HTTP replies are inputs: a 2xx body,
or a failure carrying an optional response and a "request was sent" flag.

Modules, one per source file: `JobSlice`, `AuthSlice`, `AnalyticsSlice`,
`UseAuth`, `ApiService`, `LinkedInOAuthModal`, `JobPostModal`,
`JobManagementDashboard`, `EditJobModal`, `JobCreationModal`. Three helper
modules sit beside them. `Wrappers` holds Option and Result. `Seqs` holds
first-match search (`find`/`findIndex`) and filtering. `Strings` holds
`includes`, `trim`, whitespace stripping and `split(sep)[0]`.

Where the code and its documented intent differ, the model follows the code:

- The slices shown are the mock-data versions. Jobs are added and changed
  synchronously by reducers. The auth session is a mock that reads the role
  from the token text.
- Nothing keeps "published implies a publication time" true globally.
  Regenerating a published job's post keeps `published` and drops
  `publishedAt` (`JobSlice.RegenerateLosesDate`). Only `publishJobPost`
  establishes the property (`JobSlice.PublishKeepsDates`).
- `publishJobPost` does not check that the platform list is non-empty. The
  editor's guard checks it. No LinkedIn-connection check exists on the
  publish path.
- A failed LinkedIn status fetch keeps whatever status was shown before. It
  does not reset the status to "not connected".
- The auth slice keeps its token in a cookie. The REST client keeps its token
  in local storage. The two are written and cleared independently.
- The session can hold a token while not authenticated: the initial state
  does this, and so does `switchRole` on a signed-out session.
- In the post editor, `generatePost` turns editing on, but the reducer it
  dispatches replaces the job object, so the `[job]` effect runs again and
  turns editing off and clears the platform selection. Edited text is never
  stored: publishing sends only the platforms, and the effect then reloads
  the stored text.
- `initializeAuth` restores a session from the cookie with the mock user of
  the role the token names. A reload after sign-in therefore replaces the
  signed-in user, whose name and id came from the email, with that mock user
  (`UseAuth.LoginThenReload`).

## Model

| member | source | states |
|---|---|---|
| `Seqs.FirstIndex` | src/store/slices/jobSlice.ts:92 | `findIndex` gives -1 iff no element has the key; otherwise the index of the first element that has it |
| `Seqs.FindFirst` | src/store/slices/jobSlice.ts:92 | the search loop returns exactly the first matching index, or -1 |
| `Seqs.FilterOut` | src/store/slices/jobSlice.ts:98 | `filter` keeps no element with the key, keeps every other element, and adds nothing |
| `Seqs.FilterOutConcat` | src/store/slices/jobSlice.ts:98 | filtering distributes over concatenation, so the kept elements keep their relative order |
| `Seqs.FilterOutLength` | src/store/slices/jobSlice.ts:98 | filtering removes exactly the matching elements: the new length is the old length minus their count |
| `Seqs.CountKey` | src/components/JobManagementDashboard.tsx:103 | the number of elements with the key is at most the length, and zero iff no element has it |
| `Seqs.FirstIndexSameKeys` | src/components/JobPostModal.tsx:40 | lists that agree on every key have the same first-match index for any key |
| `Strings.BeforeFirst` | src/hooks/useAuth.ts:27 | `split('@')[0]` is the prefix before the first '@' and holds no '@'; if the input has no '@' it is the whole input |
| `Strings.StripSpaces` | src/components/JobPostModal.tsx:76 | `replace(/\s+/g, '')` leaves no whitespace and is never longer than its input |
| `Strings.StripSpacesConcat` | src/components/JobPostModal.tsx:76 | stripping distributes over concatenation |
| `Strings.StripSpacesNoSpace` | src/components/JobPostModal.tsx:76 | a title with no whitespace becomes its hashtag unchanged |
| `Strings.Trim` | src/components/LinkedInOAuthModal.tsx:176 | the trimmed text is the slice of the input left after its leading and trailing whitespace: only whitespace lies outside it, and its own ends are not whitespace |
| `Strings.TrimIdempotent` | src/components/LinkedInOAuthModal.tsx:176 | trimming twice gives the same text as trimming once |
| `Strings.ContainsInfix` | src/components/JobPostModal.tsx:63-76 | `includes` finds the middle part of any concatenation |
| `JobSlice.JobStore.constructor` | src/store/slices/jobSlice.ts:68-72 | the slice starts with the three mock jobs, not loading, nothing selected |
| `JobSlice.MockJobsWellFormed` | src/store/slices/jobSlice.ts:26-66 | the mock jobs have distinct ids, and every published one has a post with `publishedAt` |
| `JobSlice.JobStore.SetLoading` | src/store/slices/jobSlice.ts:78-80 | only `loading` changes; jobs and the selection stay |
| `JobSlice.JobStore.AddJob` | src/store/slices/jobSlice.ts:81-90 | the new job goes in front of the old list |
| `JobSlice.AddJobAtFront` | src/store/slices/jobSlice.ts:81-90 | the new job is at index 0 as a draft with 0 applications and the payload's fields; the length grows by one and the old jobs follow in order |
| `JobSlice.JobStore.UpdateJob` | src/store/slices/jobSlice.ts:91-96 | the list becomes `Replaced(old list, payload)` |
| `JobSlice.Replaced` | src/store/slices/jobSlice.ts:91-96 | `updateJob` on the list keeps its length and only ever brings in the payload |
| `JobSlice.ReplacedSpec` | src/store/slices/jobSlice.ts:91-96 | the length is kept; only the first job with the id is replaced; with no such job the list is unchanged |
| `JobSlice.JobStore.DeleteJob` | src/store/slices/jobSlice.ts:97-99 | the list becomes the old list without the id |
| `JobSlice.Without` | src/store/slices/jobSlice.ts:97-99 | `deleteJob` on the list keeps only old jobs, none of them with the id |
| `JobSlice.WithoutSpec` | src/store/slices/jobSlice.ts:97-99 | every job with the id is removed and every other job kept, in relative order; the length drops by the number of matches; with no match the list is unchanged |
| `JobSlice.DeleteWins` | src/store/slices/jobSlice.ts:91-121 | after a delete, a late update, post generation or publication for that id is a no-op, so the id stays absent |
| `JobSlice.JobStore.SetSelectedJob` | src/store/slices/jobSlice.ts:100-102 | only the selection changes |
| `JobSlice.JobStore.GenerateJobPost` | src/store/slices/jobSlice.ts:103-113 | the first job with the id gets a fresh post (`post-<stamp>`, the content, no platforms, no `publishedAt`) |
| `JobSlice.WithPost` | src/store/slices/jobSlice.ts:103-113 | `generateJobPost` on the list keeps its length and every job's id and status |
| `JobSlice.WithPostSpec` | src/store/slices/jobSlice.ts:103-113 | no status changes; only the first matching job gets the post; an unknown id changes nothing |
| `JobSlice.RegenerateLosesDate` | src/store/slices/jobSlice.ts:103-113 | regenerating a published job's post leaves it published without `publishedAt` |
| `JobSlice.JobStore.PublishJobPost` | src/store/slices/jobSlice.ts:114-121 | the list becomes `Publish(old list, id, platforms, at)` |
| `JobSlice.Publish` | src/store/slices/jobSlice.ts:114-121 | `publishJobPost` on the list keeps its length and every job's id |
| `JobSlice.PublishSpec` | src/store/slices/jobSlice.ts:114-121 | a found job with a post gets exactly the given platforms, even an empty list, plus the time and `published`; a job without a post, or an unknown id, changes nothing; other jobs are untouched |
| `JobSlice.PublishKeepsDates` | src/store/slices/jobSlice.ts:114-121 | if "published implies a dated post" held of every job, it still does after publishing |
| `JobSlice.KeepsIndices` | src/store/slices/jobSlice.ts:103-121 | neither post generation nor publication moves a job: every id is found where it was found before |
| `AuthSlice.AuthStore.constructor` | src/store/slices/authSlice.ts:21-26 | the token is read from a non-empty cookie, yet the session is not authenticated and has no user |
| `AuthSlice.MockUser` | src/store/slices/authSlice.ts:29-44 | `mockUsers` has exactly the keys `hr` and `interviewer`, each mapped to a user of that role |
| `Strings.Truthy` | src/store/slices/authSlice.ts:24 | an optional string is truthy iff present and non-empty, and then it is kept as it is (the cookie read, the stored API token, the LinkedIn fields) |
| `AuthSlice.AuthStore.LoginStart` | src/store/slices/authSlice.ts:50-52 | only `loading` changes, and it becomes true |
| `AuthSlice.AuthStore.LoginSuccess` | src/store/slices/authSlice.ts:53-61 | the user and token are the payload's; authenticated; not loading; the cookie holds the token |
| `AuthSlice.AuthStore.LoginFailure` | src/store/slices/authSlice.ts:62-70 | the signed-out state: no user, no token, not authenticated, not loading, no cookie |
| `AuthSlice.AuthStore.Logout` | src/store/slices/authSlice.ts:71-79 | the same signed-out state as a failed login |
| `AuthSlice.AuthStore.SwitchRole` | src/store/slices/authSlice.ts:80-88 | a known role sets the user, a `mock_token_<role>_<stamp>` token and the cookie together; an unknown role such as `candidate` changes nothing; the authenticated flag never changes |
| `AuthSlice.AuthStore.InitializeAuth` | src/store/slices/authSlice.ts:89-98 | with no cookie nothing changes; with one, the token is the cookie, the session is authenticated, and the user is the `hr` mock user iff the token contains "hr", else the `interviewer` one |
| `AuthSlice.TokenRoleRoundTrip` | src/store/slices/authSlice.ts:93 | a mock token issued for a role with a numeric stamp is read back as that same role |
| `UseAuth.LoginUser` | src/hooks/useAuth.ts:23-30 | the user's email is the input; the name is the email's part before the first '@', or the whole email without one; the role is `hr` iff the email contains "hr" |
| `UseAuth.LoginOutcome` | src/hooks/useAuth.ts:22 | the mock sign-in succeeds iff both email and password are non-empty |
| `UseAuth.LoginToken` | src/hooks/useAuth.ts:32 | the sign-in token is a mock token that names the role derived from the email |
| `UseAuth.Dispatch` | src/hooks/useAuth.ts:15-52 | each dispatched action has the full effect of its reducer on the session; `initializeAuth` with a cookie restores the token and the mock user of the role the token names |
| `UseAuth.Login` | src/hooks/useAuth.ts:14-44 | returns true iff both fields are non-empty; dispatches `loginStart` and then exactly one of `loginSuccess` (with the derived user and token) or `loginFailure`; the session ends signed in or signed out accordingly |
| `UseAuth.HandleLogout` | src/hooks/useAuth.ts:46-48 | dispatches only `logout`, leaving the session signed out |
| `UseAuth.HandleSwitchRole` | src/hooks/useAuth.ts:50-52 | dispatches only `switchRole`: a known role gets its mock user, a fresh `mock_token_<role>_<stamp>` token and the cookie; an unknown role changes nothing; the authenticated and loading flags never change |
| `UseAuth.LoginTokenRoundTrip` | src/hooks/useAuth.ts:32 | the token issued at sign-in, read by `initializeAuth`, yields the role derived from the email |
| `UseAuth.LoginThenReload` | src/store/slices/authSlice.ts:89-98 | a successful sign-in followed by `initializeAuth` on its cookie keeps the signed-in role and token, and the user becomes the mock user of that role |
| `AnalyticsSlice.AnalyticsStore.constructor` | src/store/slices/analyticsSlice.ts:95-105 | the slice starts from the mock analytics data, not loading |
| `AnalyticsSlice.AnalyticsStore.SetLoading` | src/store/slices/analyticsSlice.ts:111-113 | only `loading` changes |
| `AnalyticsSlice.AnalyticsStore.UpdateMetrics` | src/store/slices/analyticsSlice.ts:114-116 | the data becomes the old data merged with the partial payload |
| `AnalyticsSlice.Merge` | src/store/slices/analyticsSlice.ts:114-116 | a payload that carries no key leaves the data as it was |
| `AnalyticsSlice.MergeSpec` | src/store/slices/analyticsSlice.ts:114-116 | exactly the fields the payload carries are replaced and the rest kept; an empty payload is the identity; merging the same payload twice equals merging it once |
| `AnalyticsSlice.AnalyticsStore.AddResume` | src/store/slices/analyticsSlice.ts:117-120 | the resume goes to index 0, `totalApplications` rises by exactly 1, nothing else changes |
| `AnalyticsSlice.AnalyticsStore.UpdateResumeStatus` | src/store/slices/analyticsSlice.ts:121-131 | the data becomes `StatusUpdated(old data, id, status, score)` |
| `AnalyticsSlice.StatusUpdated` | src/store/slices/analyticsSlice.ts:121-131 | the shortlist counter never goes down, even when a shortlisted resume moves to another status, and rises iff the id is found and the new status is shortlisted; resumes keep their number and ids |
| `AnalyticsSlice.StatusUpdatedSpec` | src/store/slices/analyticsSlice.ts:121-131 | an unknown id changes nothing; a found one always gets the status and gets the score only if it is present and non-zero; other resumes and the other counters are untouched; `shortlistedCandidates` rises by 1 iff the new status is shortlisted |
| `AnalyticsSlice.ShortlistCountedTwice` | src/store/slices/analyticsSlice.ts:128-130 | shortlisting the same resume twice raises the counter by 2 |
| `ApiService.ApiClient.GetToken` | src/services/api.service.ts:25-27 | no token iff the stored entry is missing or empty; otherwise the stored value |
| `ApiService.ApiClient.SetToken` | src/services/api.service.ts:29-31 | the entry holds the token |
| `ApiService.ApiClient.ClearToken` | src/services/api.service.ts:33-35 | the entry is removed |
| `ApiService.ApiClient.AuthorizationHeader` | src/services/api.service.ts:38-45 | a `Bearer <token>` header is attached iff a token is stored |
| `ApiService.ApiClient.OnRejected` | src/services/api.service.ts:52-62 | a 401 clears the stored token and redirects to `/login`; any other failure changes neither |
| `ApiService.HandleError` | src/services/api.service.ts:65-82 | a response body is returned verbatim; else a sent request gives the fixed network message; else the fixed unexpected-error message; both fixed results have `success: false` and no field errors |
| `ApiService.ApiClient.Call` | src/services/api.service.ts:113-120 | a call carries the header computed before it and returns the body, or the normalised error; the 401 effects apply whichever call failed |
| `ApiService.ApiClient.Authenticate` | src/services/api.service.ts:85-111 | the body `signUp` and `signIn` share: a token is stored only from a successful reply that carries a non-empty one; a 401 clears it and redirects; other failures leave storage alone |
| `ApiService.ApiClient.SignUp` | src/services/api.service.ts:85-97 | the token is stored only from a successful reply with a non-empty token; other replies leave storage alone, except a 401, which clears it; a successful reply never redirects |
| `ApiService.ApiClient.SignIn` | src/services/api.service.ts:99-111 | the same token and redirect rules as sign-up |
| `ApiService.ApiClient.Logout` | src/services/api.service.ts:131-140 | the stored token is cleared whether the remote call succeeds or fails |
| `ApiService.ApiClient.IsTokenValid` | src/services/api.service.ts:153-165 | false without a token or when decoding fails; otherwise `exp > now / 1000`, with now in milliseconds |
| `ApiService.JobsQuery` | src/services/api.service.ts:286 | a `status` parameter is sent iff the filter is non-empty, and it carries the filter |
| `LinkedInOAuthModal.ClassifyCallback` | src/components/LinkedInOAuthModal.tsx:43-67 | `linkedin_connected=true` is a success even when an error is present; otherwise a non-empty `linkedin_error` is a failure; otherwise nothing. A success's text is `message`, or the fixed text when that is absent or empty |
| `LinkedInOAuthModal.OAuthModal.CheckOAuthCallback` | src/components/LinkedInOAuthModal.tsx:43-67 | the query string is scrubbed in the success and failure branches and left intact otherwise; a refresh is requested only on success |
| `LinkedInOAuthModal.OAuthModal.FetchStatus` | src/components/LinkedInOAuthModal.tsx:69-86 | a successful reply replaces the status; any other reply keeps it; loading ends either way |
| `LinkedInOAuthModal.OAuthModal.HandleConnect` | src/components/LinkedInOAuthModal.tsx:88-111 | nothing happens unless there is no status, or it is not connected, or its token is invalid; then the page is sent to the authorization URL, or a notice says why not; `connecting` is false afterwards |
| `LinkedInOAuthModal.OAuthModal.HandleDisconnect` | src/components/LinkedInOAuthModal.tsx:113-136 | a successful disconnect sets the status to none and only then requests a refresh; otherwise the status is kept; loading ends either way |
| `LinkedInOAuthModal.StatusBadge` | src/components/LinkedInOAuthModal.tsx:138-172 | priority: loading, then not connected, then token expired, then connected; "Connected" shows exactly when neither loading nor the Connect button is |
| `LinkedInOAuthModal.ConnectAllowed` | src/components/LinkedInOAuthModal.tsx:88-90 | connecting (and the Connect button) is refused exactly for a connected account whose token is valid |
| `LinkedInOAuthModal.ProfileDisplayName` | src/components/LinkedInOAuthModal.tsx:174-179 | a first or last name gives `"first last"` with the whitespace at both ends cut off (a slice with only whitespace around it, ends not whitespace); otherwise the LinkedIn email if there is one; otherwise "LinkedIn User" |
| `LinkedInOAuthModal.DisplayNameFromNames` | src/components/LinkedInOAuthModal.tsx:174-179 | for any profile (with or without a picture) whose names are clean, the display name is "first last", or the one name present, with no stray space; without names it is the email, else "LinkedIn User" |
| `LinkedInOAuthModal.NoStatusShown` | src/components/LinkedInOAuthModal.tsx:258 | with no status, the Connect button is offered, the badge says not connected, and the name is the fallback |
| `JobPostModal.LookupJob` | src/components/JobPostModal.tsx:40 | an empty or missing id finds no job; otherwise the first job with the id |
| `JobPostModal.GeneratedContent` | src/components/JobPostModal.tsx:63-76 | the generated text is longer than the title and the description together |
| `JobPostModal.PostEditor.SyncFromJob` | src/components/JobPostModal.tsx:42-52 | text and platforms load from the job's post if it has one and are cleared otherwise; editing is off either way |
| `JobPostModal.GeneratedContentMentions` | src/components/JobPostModal.tsx:63-76 | the generated text contains the title, the description, and `#` followed by the title with its whitespace removed |
| `JobPostModal.PostEditor.GeneratePost` | src/components/JobPostModal.tsx:54-99 | without a job nothing changes; with one, the post is attached to the job and the `[job]` effect then reloads the editor from it: the text is the generated one, no platform is selected and editing is off |
| `JobPostModal.ToggleFlips` | src/components/JobPostModal.tsx:101-107 | toggling changes no other id's membership; an absent id is appended at the end |
| `JobPostModal.Toggle` | src/components/JobPostModal.tsx:101-107 | toggling flips whether the id is selected |
| `JobPostModal.ToggleTwiceRestores` | src/components/JobPostModal.tsx:101-107 | toggling an absent id twice restores the selection |
| `JobPostModal.PostEditor.TogglePlatform` | src/components/JobPostModal.tsx:101-107 | the selection becomes its toggle |
| `JobPostModal.PostEditor.PublishPost` | src/components/JobPostModal.tsx:109-145 | with no job, no text or no platforms nothing is dispatched and nothing changes; otherwise `publishJobPost` gets exactly the selected platforms and the dialog closes; when the job has a post the `[job]` effect reloads the stored text, replacing any edits, and turns editing off |
| `JobPostModal.PublishValid` | src/components/JobPostModal.tsx:110 | the validation `publishPost` applies: a job, non-empty text and at least one platform |
| `JobPostModal.PublishButtonShown` | src/components/JobPostModal.tsx:270 | with a job open, the Publish button is shown iff the publish validation passes |
| `JobPostModal.GenerateThenPublish` | src/components/JobPostModal.tsx:54-145 | generating a job's post, selecting a non-empty set of platforms and publishing leaves the job published on exactly those platforms with a publication time, and the editor showing the generated text |
| `JobManagementDashboard.CountStatus` | src/components/JobManagementDashboard.tsx:103 | a status count is at most the total, and is zero iff no job has that status |
| `JobManagementDashboard.StatusCountsPartition` | src/components/JobManagementDashboard.tsx:92-115 | the published, draft and closed counts add up to the total |
| `JobManagementDashboard.PublishedPlusDraftBounded` | src/components/JobManagementDashboard.tsx:103-115 | Published plus Draft is at most Total, with equality iff there are no closed jobs |
| `JobManagementDashboard.TotalApplications` | src/components/JobManagementDashboard.tsx:127 | the application total includes every job's count and is zero iff every job has no applications |
| `JobManagementDashboard.StatsConcat` | src/components/JobManagementDashboard.tsx:103-127 | the counts and the application sum add up over a concatenation of lists |
| `JobManagementDashboard.StatsAfterAdd` | src/components/JobManagementDashboard.tsx:92-127 | after `addJob`, Total and Draft rise by one and the other cards do not change |
| `JobManagementDashboard.MockStats` | src/components/JobManagementDashboard.tsx:92-127 | the initial list shows 3 jobs, 2 published, 1 draft and 23 applications |
| `JobManagementDashboard.StatusColor` | src/components/JobManagementDashboard.tsx:50-57 | the default class is given iff the status is none of published, draft and closed |
| `JobManagementDashboard.StatusColorsDistinct` | src/components/JobManagementDashboard.tsx:50-57 | `getStatusColor` gives each status its own class, none of them the default class |
| `JobManagementDashboard.EmptyStateMeansZeroStats` | src/components/JobManagementDashboard.tsx:233 | the empty state shows iff the list is empty, and then every card reads zero |
| `JobManagementDashboard.Dashboard.HandleViewJobPost` | src/components/JobManagementDashboard.tsx:41-48 | only a found id selects its job and opens the editor; otherwise nothing changes |
| `JobManagementDashboard.Dashboard.HandleDeleteJob` | src/components/JobManagementDashboard.tsx:33-39 | dispatches `deleteJob` for the id |
| `EditJobModal.EditJobForm.SyncFromJob` | src/components/EditJobModal.tsx:42-51 | a job reloads title, description, interviewer and status; no job leaves the form alone |
| `EditJobModal.EditJobForm.FetchInterviewers` | src/components/EditJobModal.tsx:60-83 | a successful reply replaces the interviewer list; otherwise a notice; loading ends either way |
| `EditJobModal.SubmitVerdict` | src/components/EditJobModal.tsx:88-113 | a missing job refuses first, then loading interviewers, before field validation runs; the form is ready iff there is a job, loading is done and all three fields are filled |
| `EditJobModal.EditJobForm.HandleSubmit` | src/components/EditJobModal.tsx:85-142 | a refused submit dispatches nothing; otherwise the update carries the job's id and only title, description and interviewer, never the status; success closes the dialog; `loading` is false afterwards |
| `JobCreationModal.InterviewerChoices` | src/components/JobCreationModal.tsx:18-24 | the form offers five interviewers, none of them empty, so picking any one fills the interviewer field |
| `JobCreationModal.JobCreationForm.HandleSubmit` | src/components/JobCreationModal.tsx:36-77 | the job is created iff all three fields are filled; the dispatched payload is exactly those fields, giving a draft with 0 applications at the front; the form is reset to empty strings and closed; a refused submit changes nothing |

## Left out

- Rendering, styling, toasts and routing. Toast texts appear only where a handler decides them, returned as a notice string.
- The `setTimeout` delays in the hook and the modals. Without them, the `catch` branches of the mock sign-in, `generatePost`, `publishPost` and job creation cannot be reached, so they are not modelled.
- The axios instance: base URL, the 10-second timeout and interceptor registration. HTTP replies are inputs.
- The endpoints that only pass their reply through (profile, verify, health, interviewers, LinkedIn calls, job CRUD, stats, applications) are all `ApiService.ApiClient.Call`. `getCurrentToken` and `clearAuthData` are the same as `GetToken` and `ClearToken`.
- `ApiService.ApiClient.IsTokenValid`: the `atob`/`JSON.parse` decoding of the token is a function parameter. `exp` is an integer, and a missing `exp` counts as a failed decode.
- `ApiService.ApiClient.SignUp`: a successful reply whose `data` object is missing makes the source throw a TypeError. That case is not modelled, because the reply type always carries `data`.
- `LinkedInOAuthModal.ClassifyCallback`: the error text is taken as already decoded. The second `decodeURIComponent`, and its exception on malformed input, is not modelled.
- The effects that run when a modal opens (status fetch plus callback check, interviewer fetch). They only wire the modelled handlers together.
- `updateJobAsync` is not defined in the job slice. The edit form's dispatch is abstract: its outcome is an input.
- Cookie expiry (7 days).
- `mockUsers` lookups of inherited property names such as `toString`.
- Whitespace for `trim` and `\s` is the ASCII set, not the full Unicode set.
- Numbers: application counts are `nat`. Analytics numbers are `int`. No floating point, NaN or negative-zero scores.
- `AnalyticsSlice.Merge`: a payload key that is present but holds `undefined` is not distinguished from an absent key.
- The display-only lists (`socialPlatforms`, status options) and the rest of the UI.
- src/components/AnalyticsDashboard.tsx, src/components/LinkedInCredentialsModal.tsx, src/components/MultiUserDashboard.tsx, src/components/DashboardLayout.tsx, src/components/LoginForm.tsx, src/App.tsx and src/store/index.ts: presentation, floating-point display maths or store wiring.
