# headhuntv4: the submission and administrator-access core, in Dafny

headhuntv4 is a recruitment and collaboration marketplace. Visitors browse job
postings and "ideas" (collaboration pitches). They apply to a posting with a PDF
resume, or commit hours to an idea. An administrator logs in with a shared secret and
reviews the submissions on a dashboard.

This project models the parts of the system that make decisions:

- **The submission pipeline.** `POST /api/apply` exists as a serverless handler and
  as an older Express route. `Submission.Backend` holds the tables as fields:
  applications, collaborators, idea counters, stored resume keys, and a trace of
  store calls. Both handlers are methods on it.
- **The upload filter.** This is the PDF-only, 5 MiB upload middleware, and the way
  each server reports its errors (`Upload`).
- **The administrator checks.** These are `checkAdmin`, `requireAdmin`, the two login
  handlers, the server start-up guard, and the "starts with `Bearer `" test
  (`AdminAuth`).
- **The small endpoints.** Recruiters, leads, prospects, jobs and ideas are modelled as
  total functions from request, secret and store reply to response and store call
  (`Endpoints`). This includes the recruiter slug derivation.
- **The administrator listings.** These are applications and collaborators with their
  join-flattening, in the serverless and the Express versions, plus the Express
  resume-link route (`Listings`).
- **The browser side.**
  - The session token guard, `RequireAuth` and the login page (`Session`).
  - The application dialog, which builds the multipart payload (`ApplicationModal`).
  - The lead form (`RecruiterProfile`).
  - The share-an-idea dialog (`ShareIdea`).
  - The ideas page and its sort (`MatchPage`).
  - The administrator dashboard (`AdminDashboard`).
- **Supporting modules.**
  - `Js`: JSON values and JavaScript truthiness.
  - `Text`: `split`, `trim`, decimal numerals and `parseInt`.
  - `Uri`: `encodeURIComponent` and `decodeURIComponent` on UTF-8, following section
    2.1 of RFC 3986.
  - `Http`: responses and store calls.

### How the outside world is modelled

- **The store.** Supabase is replaced by plain state, plus replies passed in as
  parameters: `StoreReply`, `Replies`, `SignReply`, and the dashboard's `Reply`.
  - The three kinds of client handle are abstract values: shared, request-scoped and
    admin.
  - Each modelled handler returns the store call it makes, or the method appends it
    to `calls`. The properties "nothing is written on a 4xx" and "only the
    administrator reads" are stated against that call.
- **Time and randomness.** `Date.now()` and `Math.random()` are parameters (`now`,
  `random`).
- **Browser state.**
  - `sessionStorage` is a field of `Session.Browser`.
  - `window.open`, `alert` and the requests the dashboard makes are sequences that the
    methods append to.

### Behaviour of the code worth knowing

- **The admin check compares one shared secret.** `checkAdmin` accepts only the value of
  `ADMIN_PASSWORD`. The check never reads the scheme word, so "Basic <secret>" passes
  (`AdminAuth.CheckAdminAnyScheme`).
- **Collaborations are lightly validated.** A collaboration needs only a non-empty
  `committed_hours`; "0" and "abc" are accepted.
  - Identity fields are never required, for collaborations or for job applications.
  - A non-numeric hour count is stored as null (`parseInt` gives NaN).
- **The rate limit fails open.** A failing count query lets the application through
  (`Submission.RateLimited`).
- **No handler returns 404.** For an unknown idea, the serverless handler answers 200
  and leaves the counters unchanged. The Express route answers 500 after the
  collaborator row has been inserted.
- **The collaboration reply differs between the servers.** The serverless reply carries
  only a message; the Express reply carries the new id.
- **The Express resume-link route answers 401 or 403.** It gives 401 without an
  `authorization` header and 403 for a wrong token.
- **api/login.js has no unset-secret guard.** When `ADMIN_PASSWORD` is unset, a body
  with no password logs in. The browser then stores the text "undefined" as the token
  and `RequireAuth` accepts it (`Session.UnsetSecretOpensDashboard`).

## Model

| member | source | states |
|---|---|---|
| Upload.SingleResume | api/apply.js:12-23 | no file is NoFile; a file under another field is LIMIT_UNEXPECTED_FILE; a non-PDF is rejected by the filter whatever its size; a PDF over 5 MiB is LIMIT_FILE_SIZE; an accepted file is a PDF named "resume" of at most 5 MiB |
| Upload.TypeCheckedBeforeSize | api/apply.js:16-22 | two non-PDF files that differ only in size get the same verdict (the type is decided before the size) |
| Upload.MiddlewareErrorResponse | api/apply.js:39-43 | every middleware error is a 400; the filter's error carries "Only PDF files are allowed!" |
| Upload.ServerErrorResponse | api/server.js:295-307 | a MulterError is 400 (the size limit with the fixed "File is too large. Max size is 5MB."), the filter's plain Error is 500 with its message |
| Upload.ServersDisagreeOnlyOnType | api/server.js:295-307 | the serverless handler and the Express server give different statuses exactly for the non-PDF error |
| AdminAuth.TokenOf | api/_lib/auth.js:6 | `split(' ')[1]` is undefined exactly when the header has no space, and never holds a space |
| AdminAuth.TokenOfWords | api/_lib/auth.js:6 | for "scheme token rest" with space-free words, the token is the second word whatever the first |
| AdminAuth.TokenOfShape | api/_lib/auth.js:6 | a token found in a header sits right after its first space and is followed by the end or a space |
| AdminAuth.TokenOfFromShape | api/_lib/auth.js:6 | conversely, a space-free word placed right after the first space is the token |
| AdminAuth.AuthHeader | api/_lib/auth.js:3 | the header read is a non-empty `authorization` or, failing that, `Authorization` |
| AdminAuth.CheckAdmin | api/_lib/auth.js:1-8 | no usable header means false; acceptance implies the compared value holds no space |
| AdminAuth.CheckAdminAnyScheme | api/_lib/auth.js:6-7 | any scheme word followed by the secret passes |
| AdminAuth.CheckAdminExactly | api/_lib/auth.js:3-7 | for a space-free secret, checkAdmin holds iff the header it reads has the secret as its second space-separated word |
| AdminAuth.CheckAdminUnsetSecret | api/_lib/auth.js:6-7 | with the secret unset, checkAdmin holds iff a header is present and holds no space |
| AdminAuth.Startup | api/server.js:11-16 | the server runs iff ADMIN_PASSWORD is set and non-empty, and then with that password |
| AdminAuth.RequireAdmin | api/server.js:38-47 | 401 iff the lower-case header is missing or empty; otherwise 403 unless the second word equals the password; next() iff it does |
| AdminAuth.RequireAdminSpacedPassword | api/server.js:42-45 | a password containing a space refuses every request |
| AdminAuth.ServerLogin | api/server.js:52-59 | 200 {success:true, token:password} iff the submitted password equals the secret, otherwise 401 {success:false, error:'Invalid password'} |
| AdminAuth.ServerLoginNeedsPassword | api/server.js:53-57 | once started, a body without a password never logs in |
| AdminAuth.ServerLoginTokenOpensGate | api/server.js:38-59 | the token handed out, sent as "Bearer <token>", passes requireAdmin when the password has no space |
| AdminAuth.Login | api/login.js:1-12 | 405 for non-POST; 200 with the submitted password as token iff it strictly equals ADMIN_PASSWORD; 401 {success:false, error:'Invalid password'} otherwise |
| AdminAuth.LoginUnsetSecret | api/login.js:6-7 | with the secret unset, a POST with no password is answered 200 |
| AdminAuth.LoginTokenPassesCheckAdmin | api/login.js:6-8 | a login token sent back as "Bearer <token>" passes checkAdmin iff it has no space |
| AdminAuth.HasBearerPrefix | api/recruiters/index.js:25-26 | holds iff an authorization header is present and starts with "Bearer ": the truthiness test adds nothing |
| AdminAuth.BearerPrefixAcceptsAnyValue | api/recruiters/index.js:25-28 | every value after "Bearer ", the empty one included, passes the prefix test |
| AdminAuth.BearerPrefixRefuses | api/leads/index.js:11-14 | the gate refuses a missing or empty header, a bare "Bearer", a lower-case "bearer …" and a "Basic …" header |
| Endpoints.NotAllowed | api/recruiters/index.js:47-50 | other verbs get 405 with Allow: GET, POST |
| Endpoints.ListReply | api/jobs/index.js:11-12 | 200 iff the store answered rows, with the rows under the endpoint's key; a store error is 500 with its message |
| Endpoints.Slugify | api/recruiters/index.js:34 | a derived slug uses only a-z, 0-9, '_' and '-' and is no longer than the name |
| Endpoints.SlugifyIdempotent | api/recruiters/index.js:34 | deriving a slug from a derived slug gives it back |
| Endpoints.SlugifyHyphenatesWords | api/recruiters/index.js:34 | "a b" of lower-case words becomes "a-b" |
| Endpoints.FinalSlug | api/recruiters/index.js:34 | a truthy slug is kept verbatim; otherwise a string name is slugified; otherwise the derivation throws |
| Endpoints.RecruiterRow | api/recruiters/index.js:30-38 | the inserted row has exactly name, bio, highlights, calendar_id, headshot_url from the body plus the final slug |
| Endpoints.Recruiters | api/recruiters/index.js:8-51 | GET reads ordered by name ascending; POST without a Bearer prefix is 401 with no write; a throwing slug is 500 with no write; otherwise one insert, 201 {recruiter} or 500; other verbs 405 |
| Endpoints.RecruitersWriteNeedsBearer | api/recruiters/index.js:25-28 | a recruiter is written only by a POST whose header starts with "Bearer " |
| Endpoints.RecruitersIgnoreBearerValue | api/recruiters/index.js:26 | two requests differing only in the value after "Bearer " get the same outcome |
| Endpoints.Leads | api/leads/index.js:8-51 | GET needs a Bearer prefix (401 otherwise) and reads newest first joined with the recruiter's name; POST inserts exactly the five lead fields, 201 {lead} or 500; other verbs 405 |
| Endpoints.LeadsPostIsPublic | api/leads/index.js:31-42 | a lead POST's outcome does not depend on the headers |
| Endpoints.LeadsReadNeedsBearer | api/leads/index.js:11-14 | leads are read only with a Bearer-prefixed header |
| Endpoints.Prospects | api/prospects/index.js:4-36 | GET without checkAdmin is 403 with no read; GET reads newest first; POST inserts the body as is and answers its row with 200 or 500; other verbs 405 |
| Endpoints.ProspectsReadNeedsAdmin | api/prospects/index.js:6-9 | no prospect is read unless checkAdmin holds |
| Endpoints.ProspectsPostVerbatim | api/prospects/index.js:25-32 | the row written is the submitted body, whatever the headers |
| Endpoints.PostingRow | api/jobs/index.js:18-21 | the posting has title, company, location, description from the body, and salary kept when truthy and null otherwise |
| Endpoints.Jobs | api/jobs/index.js:4-29 | GET is public, newest first; POST without checkAdmin is 403 with no write; otherwise one insert answered 200 or 500; other verbs 405 |
| Endpoints.JobsWriteNeedsAdmin | api/jobs/index.js:15-16 | a posting is written only by a POST that passes checkAdmin |
| Endpoints.FalsySalariesBecomeNull | api/jobs/index.js:21 | a missing, empty or zero salary is stored as null |
| Endpoints.IdeaRow | api/ideas/index.js:15-18 | the idea has title, department, description from the body, participants_count 0, and total_hours kept when truthy and 0 otherwise |
| Endpoints.Ideas | api/ideas/index.js:3-26 | GET is public ordered by total_hours descending; POST needs no credential and inserts IdeaRow; other verbs 405 |
| Endpoints.NewIdeasHaveNoParticipants | api/ideas/index.js:18 | every idea written starts with participants_count 0 |
| Listings.JoinedOr | api/applications.js:23 | a falsy join gives the fallback label; a joined object gives its field |
| Listings.FlattenApplication | api/applications.js:21-24 | the row keeps every field and gains job_title from the posting, or 'Unknown Job' |
| Listings.FlattenCollaborator | api/collaborators.js:21-25 | the row keeps every field and gains idea_title ('Deleted Idea' fallback) and idea_entity ('Unknown' fallback) |
| Listings.FlattenApplications | api/applications.js:21-24 | one output row per input row, in order, each flattened |
| Listings.FlattenCollaborators | api/collaborators.js:21-25 | one output row per input row, in order, each flattened |
| Listings.FlattenApplicationsAppend | api/applications.js:21-24 | flattening distributes over concatenation |
| Listings.OrphanApplicationLabel | api/applications.js:23 | a row with a null posting is labelled 'Unknown Job' and is otherwise unchanged |
| Listings.FlattenCollaboratorIdempotent | api/collaborators.js:21-25 | flattening an already flattened row changes nothing |
| Listings.GatedListing | api/applications.js:4-27 | non-GET is 405, GET without checkAdmin is 403, and any read happens only after both gates pass, newest first |
| Listings.Applications | api/applications.js:4-27 | a read implies checkAdmin; an authorized GET answers the flattened rows with 200 |
| Listings.Collaborators | api/collaborators.js:4-28 | a read implies checkAdmin and goes through the shared client; an authorized GET answers the flattened rows |
| Listings.ScopedCollaborators | api/collaborators/index.js:4-38 | the same gates, with the read through the request's own client |
| Listings.CollaboratorListingsAgree | api/collaborators/index.js:31-37 | the two collaborator listings give the same response to every request and store reply |
| Listings.ServerListing | api/server.js:222-240 | requireAdmin's refusal is returned with no read; past it, one newest-first read and the flattened answer |
| Listings.ServerApplications | api/server.js:222-240 | the applications table is read iff requireAdmin passes, and the rows come back flattened |
| Listings.ServerCollaborators | api/server.js:242-260 | the collaborators table is read iff requireAdmin passes, and the rows come back flattened |
| Listings.ResumeLink | api/server.js:198-206 | a signed URL of 60 seconds for the given key is requested iff requireAdmin passes; the answer is {url} or 500 |
| Listings.ResumeLinkNeedsHeader | api/server.js:39-40 | without an authorization header, no link is requested and the answer is 401 |
| Text.ParseInt | api/apply.js:59 | `parseInt` with no radix: a number only when, after leading white space, the text starts with a sign or a digit; a negative number only after a minus sign |
| Text.ParseIntOfIntToString | src/components/ShareIdeaModal.jsx:53 | every integer's decimal numeral is read back as that integer |
| Text.ParseIntNoDigits | api/apply.js:59 | with no digit after the white space and the sign, the result is NaN (None) |
| Submission.IsCollaboration | api/apply.js:47 | `!!committed_hours`: a collaboration iff the field is a non-empty string, so "0" counts |
| Submission.ClientIp | api/apply.js:89 | `x-forwarded-for \|\| remoteAddress`: the forwarded header whole when it is non-empty, the socket address otherwise |
| Submission.RateLimited | api/apply.js:94-110 | refused iff the count query answered and at least two rows share the email or address within the last day; a failed count never refuses |
| Submission.ObjectKey | api/apply.js:112 | the key starts with "resume-", ends with ".pdf" and is at least 14 characters long |
| Submission.Bumped | api/apply.js:77-80 | the participant count grows by one from its value or 0; the total grows by the hours, and becomes null when the hours are NaN |
| Submission.RecentCount | api/apply.js:94-98 | the count never exceeds the number of rows |
| Submission.RecentCountIsCardinality | api/apply.js:94-98 | the count is the number of rows with the same email OR the same address created within the window |
| Submission.RecentCountIgnoresOldRows | api/apply.js:90-98 | rows created before the 24-hour window are never counted |
| Submission.ObjectKeyRoundTrip | api/apply.js:112 | the clock value and random suffix are read back from a generated key |
| Submission.ObjectKeyInjective | api/apply.js:112 | two keys are equal only for the same clock value and suffix |
| Submission.BumpedAddsCommitment | api/apply.js:77-80 | the fallback moves counters (T, P) to (T + h, P + 1) |
| Submission.FallbackLosesConcurrentUpdate | api/apply.js:75-80 | two fallbacks computed from the same read do not compose: the second erases the first commitment |
| Submission.CommittedHoursRoundTrip | api/apply.js:59 | `parseInt` reads back every numeral a client sends as committed_hours |
| Submission.StatsCalls | api/apply.js:67-82 | the RPC comes first through the caller's client; the fallback calls follow iff the RPC errors |
| Submission.MissingIdeaLeavesCounters | api/apply.js:75-81 | when the RPC errors and the idea is missing, the counters stay as they were |
| Submission.Backend.UpdateStats | api/apply.js:67-82 | the new ideas table is the RPC's, or the fallback's increment when the RPC errors and the idea is read and updated; the calls made are StatsCalls |
| Submission.Backend.Commit | api/apply.js:54-84 | an insert error answers 500 with nothing written; otherwise the collaborator row is appended, the ideas become IdeasAfterCommitment, the calls are the insert and then StatsCalls, and the answer is 200 "Collaboration successful" without an id |
| Submission.Backend.SubmitApplication | api/apply.js:86-139 | 429 with only the count call when RateLimited; 500 with nothing stored when the upload fails or the key is taken; 500 with the object kept when the insert fails; otherwise the row with the key and the client address, and 200 with its id; Valid is kept, and a successful application leaves at most DailyLimit recent rows when the count answered |
| Submission.Backend.CommitExpress | api/server.js:138-161 | the insert, RPC, read and update all go through the shared client; an insert error is 500 with nothing written; when the RPC fails and the idea cannot be read, 500 after the row is in, with the counters unchanged; otherwise 200 with the new id |
| Submission.Backend.UpdateStatsExpress | api/server.js:148-159 | the step succeeds iff the RPC answers or the idea is read; the ideas become IdeasAfterCommitment; the update call is made only after a successful read |
| Submission.Backend.SubmitApplicationExpress | api/server.js:163-189 | the upload and the insert go through the shared client with no rate limit; the row records no address; the object is kept when the insert fails; Valid is kept |
| Submission.Backend.Apply | api/apply.js:34-145 | 405 and 400 paths leave every table unchanged; a collaboration inserts its row and then updates stats, or answers 500 with nothing written; a job application is 429 when two recent rows match, then uploads before inserting, keeps the object when the insert fails, and answers 200 with the new id; every stored application names a stored object |
| Submission.Backend.ApplyExpress | api/server.js:129-195 | the same flow with no rate limit and no address recorded; a non-PDF is 500; when the RPC fails and the idea is missing, 500 after the row is inserted; a successful collaboration returns its id |
| Session.IsAdminRoute | src/App.jsx:21 | holds iff the path starts with '/admin': the equality test adds nothing |
| Session.AdminRouteIsPrefix | src/App.jsx:21 | '/administrator' and '/admin/x' qualify and '/adm' does not |
| Session.HasToken | src/components/RequireAuth.jsx:5-7 | `!token` negated: a token iff the stored text is truthy, so "undefined" and "null" count |
| Session.GuardedToken | src/App.jsx:26-31 | admin paths leave the token untouched; any other path leaves no usable token, removing it only when one is present |
| Session.GuardIdempotent | src/App.jsx:27-29 | running the guard twice on the same path is running it once |
| Session.GuardLocksDashboard | src/App.jsx:26-31 | after any non-admin path, RequireAuth redirects |
| Session.RequireAuth | src/components/RequireAuth.jsx:3-12 | the children render iff a non-empty token is stored; otherwise a replacing redirect to '/login' that carries the location |
| Session.TokenAfterLogin | src/pages/Login.jsx:20-26 | a truthy success stores String(data.token); otherwise storage is unchanged |
| Session.LoginError | src/pages/Login.jsx:13-29 | the error is empty iff the reply reports success; 'Login failed' iff the request threw or the body is null (reading `data.success` throws); 'Invalid credentials' iff a readable body does not report success |
| Session.Browser.Navigate | src/App.jsx:18-32 | the path moves and the token becomes GuardedToken of the old token |
| Session.Browser.SubmitLogin | src/pages/Login.jsx:11-30 | the token and error follow TokenAfterLogin and LoginError; the page goes to '/admin' exactly on success |
| Session.ServerLoginOpensDashboard | src/pages/Login.jsx:20-23 | after a successful Express login the stored token is the password, and the dashboard renders iff it is non-empty |
| Session.UnsetSecretOpensDashboard | api/login.js:6-8 | with the secret unset, an empty login stores "undefined" and RequireAuth lets it through |
| RecruiterProfile.Without | src/pages/RecruiterProfile.jsx:42 | the window is gone, nothing new appears, and every other window keeps its number of copies |
| RecruiterProfile.Toggle | src/pages/RecruiterProfile.jsx:41-45 | a present window is removed entirely; an absent one is appended at the end |
| RecruiterProfile.WithoutAppend | src/pages/RecruiterProfile.jsx:42 | `filter` keeps order: filtering a concatenation is filtering each part, in place |
| RecruiterProfile.WithoutAbsent | src/pages/RecruiterProfile.jsx:42 | filtering out an absent window changes nothing |
| RecruiterProfile.WithoutAppended | src/pages/RecruiterProfile.jsx:42 | filtering out a window just appended gives the list before it |
| RecruiterProfile.ToggleTwiceRestores | src/pages/RecruiterProfile.jsx:39-47 | toggling an absent window twice restores the list |
| RecruiterProfile.ToggleKeepsOthers | src/pages/RecruiterProfile.jsx:41-45 | every other window keeps its number of copies |
| RecruiterProfile.ToggleWindow | src/pages/RecruiterProfile.jsx:40-46 | only preferred_windows changes |
| RecruiterProfile.LeadBody | src/pages/RecruiterProfile.jsx:55-58 | the body's keys are exactly recruiter_id and the four form fields, with the windows as an array (the order of the keys in the JSON text is not modelled) |
| RecruiterProfile.LeadBodyStoredAsSent | src/pages/RecruiterProfile.jsx:52-58 | the leads endpoint stores the page's body exactly as sent |
| RecruiterProfile.ProfilePage.constructor | src/pages/RecruiterProfile.jsx:12-20 | the form starts empty and not submitted |
| RecruiterProfile.ProfilePage.WindowToggle | src/pages/RecruiterProfile.jsx:39-47 | the form becomes ToggleWindow of the old form |
| RecruiterProfile.ProfilePage.Submit | src/pages/RecruiterProfile.jsx:49-65 | sends LeadBody; submitted only on an ok reply; otherwise exactly one alert with 'Failed to submit inquiry' or the exception's message |
| ShareIdea.HoursOrZero | src/components/ShareIdeaModal.jsx:53 | `parseInt(x) \|\| 0`: the parsed value, or 0 for NaN |
| ShareIdea.NewIdea | src/components/ShareIdeaModal.jsx:48-55 | newIdea has the reply's id, the form's title, description and department, total_hours HoursOrZero, participants_count 0, and nothing else |
| ShareIdea.NewIdeaHours | src/components/ShareIdeaModal.jsx:53 | a numeral typed as hours is the new idea's total_hours |
| ShareIdea.ShareIdeaModal.constructor | src/components/ShareIdeaModal.jsx:7-16 | the form is empty, nothing is submitted, newIdea is null |
| ShareIdea.ShareIdeaModal.Submit | src/components/ShareIdeaModal.jsx:25-64 | posts the form; success iff an ok reply with a usable body, then newIdea is built and the form reset; a non-ok reply always shows the "invalid response" message; isSubmitting ends false |
| ShareIdea.ShareIdeaModal.CollaborateNow | src/components/ShareIdeaModal.jsx:109-113 | onSuccess receives the newIdea state built by Submit; then success and newIdea are cleared and the dialog closes |
| ShareIdea.ShareIdeaModal.SuccessClose | src/components/ShareIdeaModal.jsx:66-70 | success and newIdea are cleared and the dialog closes |
| MatchPage.Insert | src/pages/Match.jsx:21 | inserting adds exactly one element (as a multiset) |
| MatchPage.InsertSorted | src/pages/Match.jsx:21 | inserting into a non-increasing list keeps it non-increasing |
| MatchPage.Hours | src/pages/Match.jsx:21 | `(idea.total_hours \|\| 0)`: a numeric field is its own key and any falsy one counts as 0 |
| MatchPage.SortByHours | src/pages/Match.jsx:21 | the result is non-increasing in total_hours (missing counts as 0) and a permutation of the input |
| MatchPage.InsertStable | src/pages/Match.jsx:21 | an insertion puts the new element after every element with the same key |
| MatchPage.SortStable | src/pages/Match.jsx:21 | the sort is stable: for every key, the elements with that key keep their input order |
| MatchPage.SortKeepsOrderedInput | src/pages/Match.jsx:21 | an already ordered list is left as it is (the sort is stable) |
| MatchPage.IdeasOf | src/pages/Match.jsx:20-28 | a null body, a truthy non-array `ideas`, and an array of two or more elements holding null throw (None, the catch at :25-28); otherwise a falsy `ideas` gives the empty list and an array gives its items |
| MatchPage.MatchPageState.constructor | src/pages/Match.jsx:11-14 | no ideas, nothing selected, loading |
| MatchPage.MatchPageState.FetchIdeas | src/pages/Match.jsx:16-29 | loading ends false either way; the ideas become the sorted list, or stay when the request or the sort fails |
| MatchPage.MatchPageState.OnShareSuccess | src/pages/Match.jsx:103-108 | the list is refetched, and the ideas become the sorted IdeasOf list or stay, as in FetchIdeas; the selection follows SelectionAfterShare |
| MatchPage.SelectionAfterShare | src/pages/Match.jsx:105-107 | the argument is selected iff it is truthy with a truthy id; otherwise the selection is kept |
| MatchPage.SubmitCallKeepsSelection | src/components/ShareIdeaModal.jsx:57 | the onSuccess() call made by handleSubmit passes no argument, so that call keeps the selection |
| MatchPage.CollaborateNowSelection | src/pages/Match.jsx:103-108 | when the page receives the new idea from "Collaborate Now", that idea is selected iff the reply gave it a truthy id, and otherwise the selection is kept; a selected idea counts as an idea for the application dialog, because it carries total_hours |
| MatchPage.ShareFromMatchPage | src/components/ShareIdeaModal.jsx:48-113 | submit, then "Collaborate Now": the selection becomes NewIdea(reply data, submitted form) exactly when the reply succeeded with a truthy id and the user clicked; otherwise it is unchanged; the list is refetched once per onSuccess call |
| ApplicationModal.IsIdea | src/components/ApplicationModal.jsx:23 | never for a falsy item; always on '/match'; elsewhere iff the item has a `total_hours` that is not undefined, zero or null included |
| ApplicationModal.LinkedInUrl | src/components/ApplicationModal.jsx:82 | an empty handle gives ''; otherwise the prefix followed by the handle with one leading '/' removed |
| ApplicationModal.LinkedInUrlStripsOneSlash | src/components/ApplicationModal.jsx:82 | "/h" gives the same URL as "h"; "//h" keeps one slash |
| ApplicationModal.Head | src/components/ApplicationModal.jsx:77-85 | an idea sends idea_id then committed_hours; a job sends posting_id and linkedin_url, then the resume when one is chosen |
| ApplicationModal.Payload | src/components/ApplicationModal.jsx:75-89 | the payload ends with full_name, email and phone; its only possible file part is the job's resume |
| ApplicationModal.TextFields | api/apply.js:46 | every field the server reads comes from a text part of the payload |
| ApplicationModal.TextFieldOfUnique | api/apply.js:46 | a name used by one text part only is read back with that part's text |
| ApplicationModal.FileOf | api/apply.js:40 | the middleware sees no file iff every part is text |
| ApplicationModal.IdeaPayloadIsCollaboration | src/components/ApplicationModal.jsx:63-79 | a sent idea payload is a collaboration for the server, with the typed hours and no file |
| ApplicationModal.JobPayloadIsApplication | src/components/ApplicationModal.jsx:80-85 | a job payload is never a collaboration, and its resume arrives under the field the middleware accepts |
| ApplicationModal.FailureMessage | src/components/ApplicationModal.jsx:97-100 | a null body shows the TypeError that reading `errData.error` raises; otherwise the server's non-empty `error` string is shown, or 'Submission failed' when it is falsy |
| ApplicationModal.ServerErrorShown | src/components/ApplicationModal.jsx:97-100 | every error answer of the apply handler is shown with its own message |
| ApplicationModal.Dialog.constructor | src/components/ApplicationModal.jsx:7-19 | an empty form on step 1, no error, not submitting |
| ApplicationModal.Dialog.FileChange | src/components/ApplicationModal.jsx:48-56 | only a PDF replaces the resume and clears the error; otherwise the form is unchanged and the PDF error is shown |
| ApplicationModal.Dialog.Submit | src/components/ApplicationModal.jsx:58-109 | a request is sent iff an idea has hours or a job has a resume, with Payload as its body; the checks' messages otherwise; success only on an ok reply, the server's or the exception's message otherwise; isSubmitting ends false |
| ApplicationModal.Dialog.Close | src/components/ApplicationModal.jsx:111-119 | the dialog closes and success, step, form and error are reset |
| AdminDashboard.ParseHighlights | src/pages/AdminDashboard.jsx:187 | one piece per comma plus one, each the trim of the matching piece of the split, in order; '' gives [''] |
| AdminDashboard.HighlightsHaveNoComma | src/pages/AdminDashboard.jsx:187 | no parsed highlight holds a comma |
| AdminDashboard.HighlightsRoundTrip | src/pages/AdminDashboard.jsx:187 | comma-free, already trimmed highlights come back exactly from their comma-joined text |
| AdminDashboard.HighlightsStable | src/pages/AdminDashboard.jsx:187 | re-parsing the joined result changes nothing |
| AdminDashboard.RecruiterBody | src/pages/AdminDashboard.jsx:184-187 | a body exists iff the form has highlights; it keeps every entry and replaces highlights by the parsed list |
| AdminDashboard.ObjectKeyNeedsNoEscaping | src/pages/AdminDashboard.jsx:149 | encodeURIComponent leaves every generated resume key unchanged |
| AdminDashboard.ResumePathReachesServer | src/pages/AdminDashboard.jsx:149 | decoding the encoded path gives back the key |
| AdminDashboard.ListOf | src/pages/AdminDashboard.jsx:43 | `data.<list> \|\| []`: a truthy field or the empty array |
| AdminDashboard.AfterLoad | src/pages/AdminDashboard.jsx:39-45 | a thrown request or a null body (reading the field throws) keeps the list; any other body replaces it with ListOf |
| AdminDashboard.Dashboard.constructor | src/pages/AdminDashboard.jsx:6-27 | the token read at mount, an empty job form, both modals closed |
| AdminDashboard.Dashboard.Bearer | src/pages/AdminDashboard.jsx:50 | "Bearer " and the token, or "Bearer null" without one |
| AdminDashboard.Dashboard.ListRequest | src/pages/AdminDashboard.jsx:39-101 | a GET of the list's endpoint, carrying the token exactly for applications, collaborators, prospects and leads |
| AdminDashboard.Dashboard.Load | src/pages/AdminDashboard.jsx:39-101 | exactly ListRequest is sent; that list, and no other, becomes AfterLoad of what it showed |
| AdminDashboard.Dashboard.ShowTab | src/pages/AdminDashboard.jsx:29-37 | the postings are fetched first without a token, then the tab's own list with ListRequest; the postings and that list become AfterLoad of their replies; other lists are untouched |
| AdminDashboard.Dashboard.Delete | src/pages/AdminDashboard.jsx:103-145 | nothing is sent and no list changes unless confirmed; otherwise one DELETE with the token and, once that request settles with any status, the reload of that list, which becomes AfterLoad; when the DELETE itself rejects, there is no reload and the lists are unchanged |
| AdminDashboard.Dashboard.ViewResume | src/pages/AdminDashboard.jsx:147-162 | requests the link for the encoded key with the token; opens a tab iff a readable reply has a url, otherwise alerts the error or 'Unknown error'; an exception or a null body alerts 'Error fetching resume link' |
| AdminDashboard.Dashboard.CreateJob | src/pages/AdminDashboard.jsx:164-179 | posts the form with the token; once settled the modal closes, the form resets to five empty strings and the postings reload into AfterLoad; otherwise the form, modal and lists are unchanged |
| AdminDashboard.Dashboard.CreateRecruiter | src/pages/AdminDashboard.jsx:181-200 | posts RecruiterBody with the token, nothing when highlights are missing; once settled the modal closes and the recruiters reload into AfterLoad; otherwise the lists are unchanged |
| Uri.Encode | src/pages/AdminDashboard.jsx:149 | a string of unreserved characters encodes to itself |
| Uri.Decode | api/server.js:198-199 | decoding never lengthens the text, and a path without '%' is left as it is |
| Uri.DecodeEncode | src/pages/AdminDashboard.jsx:149 | decodeURIComponent(encodeURIComponent(s)) == s for every string of scalar values |
| Uri.EncodeInjective | src/pages/AdminDashboard.jsx:149 | different keys give different request paths |

## Left out

- **Network, storage service and timers.** `fetch`, Supabase, `setTimeout`, `window.open`, `alert` and `console` are not modelled as code. Their results enter as parameters, and their effects are recorded as values.
- **Supabase client construction.** The files that build clients are not part of this model: api/db.js, api/_lib/supabase.js and api/_lib/supabaseAdmin.js. The three client kinds are abstract handles.
  - No row-level security is claimed.
  - The `getSupabaseClient` export is missing from the shared client module. The model treats the request-scoped handle as if that export existed.
- **The `increment_idea_stats` RPC.** Its body is not part of the repository. Its result is an oracle: the ideas table it leaves, or an error.
- **Concurrency.** Each request is handled alone. The lost update of two concurrent fallbacks is stated only for two values computed from the same read (`Submission.FallbackLosesConcurrentUpdate`).
- **Multipart parsing.** Multer's parsing is abstracted to the text fields and at most one file part. Repeated field names and more than one file are not modelled.
- **JSON numbers.** They are integers. Floating-point hours and the store's coercion of strings into numeric columns are not modelled.
- **Request bodies.** A null or missing `req.body` is not modelled; the destructuring throws there.
- **Filter injection.** The email and address strings are interpolated into the rate-limit filter; the model counts by equality and does not model that injection.
- **Case mapping.** The slug's `toLowerCase` is modelled on ASCII letters only.
- **Uri.Encode: lone surrogates.** A JavaScript string can hold a lone surrogate, and `encodeURIComponent` throws on one. A Dafny `char` is a Unicode scalar value and cannot be a surrogate, so such strings are not representable in the model and that error path is not modelled. `Uri.DecodeEncode` holds for every representable string.
- **Express routes outside the core.** These are not modelled:
  - the jobs, ideas and prospects routes of api/server.js;
  - all delete routes;
  - the participants route;
  - the Express default 404 for verbs the apply route does not match.
- **Serverless handlers outside the core.** api/admin/resume-link/[path].js, the `[id]` routes and the participants handler are not part of this model.
- **Dashboard details.** The delete requests and the create-job POST carry the token; the server's answer to them is not examined, as on the page. The `activeTab` names are replaced by the list they show.
- **Presentational parts.** Rendering, animation, the step indicator of the application dialog, the participants list it fetches, and `handleInputChange` are not modelled.
- Text.ParseInt: JavaScript's `parseInt` returns a double, so a numeral whose magnitude exceeds 2^53 is rounded; the model returns the exact integer. `Submission.CommittedHoursRoundTrip`, `ShareIdea.NewIdeaHours` and `Text.ParseIntOfIntToString` are therefore exact in JavaScript only for magnitudes up to 2^53 - 1.
- MatchPage.IdeasOf: `Array.prototype.sort` moves `undefined` elements to the end without comparing them; the model sorts them with key 0. A parsed JSON body never holds `undefined`, so the case does not arise from the request.
- MatchPage.Hours: the comparator's subtraction coerces a numeric string or `true` to a number; the model gives such a `total_hours` the key 0. Where the store keeps that column numeric, it answers numbers and the case does not arise.
- **Submission.RecentCount.** Its own ensures is only a bound. The meaning of the count is stated by `Submission.RecentCountIsCardinality`.
