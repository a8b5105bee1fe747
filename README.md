# Moxie coach dashboard — a Dafny model of its core

Moxie is a dashboard for strength and conditioning coaches. A FastAPI
backend keeps users, athletes, goals, programs, sessions, exercises,
physical assessments, personal records and session templates in MongoDB,
and a React client lists them and shows a few derived metrics. This project
models the part of the system that makes decisions and proves what those
decisions guarantee. The parts are listed by layer.

**Backend:**
- how a request's token is found and checked, and the coach-only and
  athlete-only role gates (`ServerAuth`);
- the document store the handlers use, as an abstract collection of
  documents (`Store`);
- the handlers (`Server`):
  - registration with duplicate-email rejection;
  - login with a uniform failure, cookie logout and `/auth/me`;
  - filter-query construction for the list endpoints;
  - creation, partial update and deletion with 404 on a missing id;
- the route table with each endpoint's guard (`Routes`);
- the two analytics endpoints (`Analytics`):
  - the athlete overview, whose session count by type is a loop over a map;
  - the assessment series, which sorts an array in place.

**Client:**
- the request builder of the API service, with its query strings and
  status classification (`Api`);
- the session state machine of `AuthProvider`, as a class over its three
  state cells (`AuthContext`);
- the derived views:
  - the dashboard metrics, previews and the in-place sort of its
    assessments (`Dashboard`);
  - the athlete page's filters, sectors and ages (`AthletesPage`);
  - the radar-chart projection (`RadarChart`);
  - the prototype roster (`Roster`) and training-plan pages
    (`TrainingPlans`).

**Shared modules:**
- entity records, enumerations and default statuses (`Enums`, `Models`);
- JSON-like values and documents (`Values`);
- sequence and string helpers (`Seqs`, `Text`);
- `Option`/`Result` (`Wrappers`).

**Conventions:**
- A stored document is a `map<string, Value>`, and a collection is a
  sequence of documents in storage order.
- Timestamps are integers.
- Each call to a foreign library is a function-valued parameter: password
  hashing and checking, JWT encoding and decoding, form-encoding and JSON
  decoding.
- So is each clock or network result: the current time, a fetch's
  response, and the outcome of an API call.

## Model

| member | source | states |
|---|---|---|
| Enums.EnumDomains | backend/models.py:8-64 | each enumeration lists all its members: 2 roles, 3 sexes, 5 goal types, 3 priorities, 5 goal statuses, 4 program statuses, 6 session types, 4 session statuses, 7 exercise categories |
| Enums.ParseUserRole | backend/models.py:8-10 | a role string validates to exactly the member with that wire name, and to nothing otherwise |
| Enums.ParseSex | backend/models.py:12-15 | a sex string validates to exactly the member with that wire name |
| Enums.ParseGoalType | backend/models.py:17-22 | a goal-type string validates to exactly the member with that wire name |
| Enums.ParsePriority | backend/models.py:24-27 | a priority string validates to exactly the member with that wire name |
| Enums.ParseGoalStatus | backend/models.py:29-34 | a goal-status string validates to exactly the member with that wire name |
| Enums.ParseProgramStatus | backend/models.py:36-40 | a program-status string validates to exactly the member with that wire name |
| Enums.ParseSessionType | backend/models.py:42-48 | a session-type string validates to exactly the member with that wire name |
| Enums.ParseSessionStatus | backend/models.py:50-54 | a session-status string validates to exactly the member with that wire name |
| Enums.ParseExerciseCategory | backend/models.py:56-64 | a category string validates to exactly the member with that wire name |
| Enums.EnumNamesDistinct | backend/models.py:8-64 | no two members of one enumeration share a wire name |
| Models.NewUser | backend/models.py:72-77 | a user built from a registration keeps its role, email and names, gets the hash and the base id and stamps |
| Models.UserDocFields | backend/models.py:66-77 | the stored user document has exactly the base fields, the profile and `hashed_password`, and no password |
| Models.ResponseOmitsPassword | backend/models.py:86-92 | a user response carries id, email, role and creation time and never a password or its hash |
| Models.NewGoalIsActive | backend/models.py:178-201 | a goal created from a request has status `active` and the request's athlete and priority |
| Models.NewProgramIsDraft | backend/models.py:216-235 | a program created from a request has status `draft` |
| Models.NewSessionIsDraft | backend/models.py:248-271 | a session created from a request is a `draft` with null RPE and duration, and null intensity when none was sent |
| ServerAuth.CreateAccessToken | backend/auth.py:33-43 | the claims are the input's, and the expiry is now plus the given delta, or plus thirty days when the delta is absent or zero |
| ServerAuth.VerifyToken | backend/auth.py:45-65 | an expired token gives "Token has expired"; a malformed token or one without `sub` gives "Invalid token"; a success carries `sub`, `email` and `role`, with an absent role as null |
| ServerAuth.GetTokenFromRequest | backend/auth.py:67-79 | a bearer header gives its second word; otherwise a non-empty cookie; otherwise nothing |
| ServerAuth.HeaderBeatsCookie | backend/auth.py:70-72 | with a bearer header the cookie never changes the token |
| ServerAuth.GetCurrentUser | backend/auth.py:81-100 | no token gives 401 "Not authenticated"; a rejected token gives 401 with the rejection's message; success exactly when the token verifies |
| ServerAuth.GetCurrentCoach | backend/auth.py:102-112 | passes exactly an authenticated coach; any other authenticated caller gets 403 |
| ServerAuth.GetCurrentAthlete | backend/auth.py:114-124 | passes exactly an authenticated athlete; any other authenticated caller gets 403 |
| ServerAuth.NoRoleFailsBothGates | backend/auth.py:102-124 | a caller without a role is refused by both role gates |
| ServerAuth.GatesExclusive | backend/auth.py:102-124 | no caller passes both role gates |
| Store.EmptyQueryMatchesAll | backend/database.py:30-35 | the empty query matches every document |
| Store.FindOne | backend/database.py:73-78 | a document is found exactly when one matches, and it matches and is stored |
| Store.GetDocument | backend/database.py:23-28 | a document is found exactly when one has the id, and it has the id |
| Store.FindDocuments | backend/database.py:62-71 | at most 1000 documents, all matching, a prefix of the matches in storage order, all of them when there are at most 1000 |
| Store.CreateDocument | backend/database.py:15-21 | the collection gains the document at the end, with both stamps set to now and every other field kept |
| Store.UpdateDocument | backend/database.py:44-55 | a missing id changes nothing and returns nothing; otherwise the first document with the id gets the fields and a fresh `updated_at` and is returned |
| Store.DeleteDocument | backend/database.py:57-60 | reports a deletion exactly when a document had the id; removes exactly that one document, the others keeping their order |
| Server.ResponseOf | backend/server.py:73 | the response holds exactly the stored fields that a user response declares |
| Server.StoredUserFields | backend/server.py:60-70 | the stored user keeps the registration's fields and stores the password only as its hash |
| Server.Register | backend/server.py:50-73 | a taken email gives 400 "Email already registered" and changes nothing; otherwise the user is appended and returned without its hash |
| Server.RegisterKeepsEmailsUnique | backend/server.py:52-58 | registration keeps the stored emails pairwise distinct |
| Server.Login | backend/server.py:76-112 | an unknown email or a wrong password gives 401; success issues a token for the stored user's id, email and role and sets the 30-day cookie |
| Server.LoginFailureUniform | backend/server.py:80-91 | an unknown email and a wrong password get the same 401 "Invalid email or password" |
| Server.VerifyUserClaims | backend/server.py:94-100 | a token carrying the login claims verifies to that user's id, email and role |
| Server.LoginAfterRegister | backend/server.py:50-112 | in any database where the email is not yet registered, registering and then logging in with the same password succeeds and signs the new user's id, email and role |
| Server.LoginTokenIdentifiesUser | backend/server.py:94-100 | the token a login issues authenticates as the stored user |
| Server.ApplyCookie | backend/server.py:103-118 | a positive max-age sets the cookie; deletion removes it and keeps the others |
| Server.Logout | backend/server.py:115-119 | logout answers "Successfully logged out" and expires `access_token` |
| Server.LogoutEndsCookieSession | backend/server.py:103-119 | after login the jar holds the token; after logout it does not, and the next request is 401 "Not authenticated" |
| Server.GetMe | backend/server.py:122-129 | 404 "User not found" exactly when the id is unknown; otherwise every `UserResponse` field of the stored user with its stored value, and no hash |
| Server.AthletesQuery | backend/server.py:140-147 | the name adds the `$or` entry and the sector adds the `sector` entry, each exactly when given; no filter gives the empty query |
| Server.AthletesQueryMeaning | backend/server.py:140-147 | a document matches exactly when its first or last name contains the name ignoring case, and its sector equals the sector |
| Server.SessionsQuery | backend/server.py:301-308 | athlete and program add equality entries when given; the date range only when both dates are given |
| Server.SessionsQueryMeaning | backend/server.py:301-308 | a session matches exactly when it has the athlete, the program, and a start inside the range when one applies |
| Server.AthleteIdQuery | backend/server.py:204-206 | empty without an id; otherwise a document matches exactly when its `athlete_id` is the id |
| Server.ExercisesQuery | backend/server.py:352-354 | empty without a category; otherwise an exercise matches exactly when its category is that one |
| Server.GetAthletes | backend/server.py:133-150 | the first 1000 stored athletes that pass both filters, in stored order; so every matching athlete when there are at most 1000 |
| Server.GetSessions | backend/server.py:293-311 | the first 1000 stored sessions that pass the athlete, program and date filters, in stored order; so every matching session when there are at most 1000 |
| Server.ListForAthlete | backend/server.py:201-209 | the first 1000 stored documents of the athlete (of anyone without an athlete), in stored order; so all of them when there are at most 1000, the whole collection without a filter |
| Server.GetExercises | backend/server.py:349-357 | the first 1000 stored exercises of the category (of any category without one), in stored order; so all of them when there are at most 1000 |
| Server.GetSessionTemplates | backend/server.py:471-475 | the first 1000 stored templates in storage order; all of them when there are at most 1000 |
| Server.GetAthlete | backend/server.py:153-160 | 404 "Athlete not found" exactly when no athlete has the id; otherwise the stored athlete with that id |
| Server.CreateEntity | backend/server.py:163-168 | the new document is appended to its collection with fresh stamps; the other collections are unchanged |
| Server.NonNull | backend/server.py:184 | the update keeps exactly the fields whose value is not null |
| Server.UpdateEntity | backend/server.py:322-335 | a missing id gives the collection's 404 and changes nothing; otherwise the first document with the id gets the non-null fields and a fresh `updated_at`, every other document stays as it was and where it was, and other collections are untouched |
| Server.PartialUpdate | backend/server.py:184 | a sent non-null field is set; a null or unsent field keeps its stored value; `updated_at` is now |
| Server.UpdateAthlete | backend/server.py:171-187 | the existence check comes first: 404 "Athlete not found" without writing; otherwise the partial update of the first athlete with the id, every other athlete and every other collection unchanged |
| Server.UpdateAthleteAsOtherUpdates | backend/server.py:171-187 | checking first gives the same result as updating and then checking |
| Server.DeleteEntity | backend/server.py:190-197 | 404 exactly when no document has the id, with nothing changed; otherwise "<Noun> deleted successfully" and exactly the first document with the id removed, the others keeping their order |
| Routes.Dispatch | backend/server.py:50-561 | every endpoint dispatched exists; records and templates have no update |
| Routes.DispatchRoute | backend/server.py:50-561 | each endpoint's method and path dispatch back to it |
| Routes.RoutesDistinct | backend/server.py:50-561 | no two endpoints share a method and path |
| Routes.Authorize | backend/server.py:123-532 | public endpoints pass everyone; user endpoints pass exactly an authenticated caller; coach endpoints pass exactly an authenticated coach |
| Routes.AnonymousReachesOnlyPublic | backend/auth.py:81-92 | without a token only the public endpoints answer; all others give 401 "Not authenticated" |
| Routes.AthleteRefusedOnCoachEndpoints | backend/server.py:137-486 | an athlete gets 403 exactly on the coach-only endpoints: the athlete list, every create and delete, every update but the session update |
| Routes.CoachPassesEveryGate | backend/auth.py:102-112 | a coach passes every guard |
| Analytics.OverviewQuery | backend/server.py:501-509 | the query has the athlete, the start bound and the done status |
| Analytics.OverviewQueryMeaning | backend/server.py:501-509 | a session matches exactly when it is the athlete's, done, and starts no earlier than seven days before now (there is no upper bound) |
| Analytics.TypeKeys | backend/server.py:516-518 | one key per session: its type, or "other" when it has none |
| Analytics.CountSessionsByType | backend/server.py:515-519 | the map has exactly the keys that occur, each counting the sessions of that type |
| Analytics.HistogramAddsUp | backend/server.py:512-519 | the counts add up to the number of sessions, the weekly volume |
| Analytics.NumberOf | backend/server.py:513 | integers, floats and booleans add as numbers; anything else cannot be summed |
| Analytics.Total | backend/server.py:513 | the sum exists exactly when every term is a number |
| Analytics.SessionWithoutIntensityBreaksSum | backend/server.py:513 | a session created without intensity cannot be summed as written, and counts 0 once null reads as 0 |
| Analytics.Intensity | backend/server.py:513 | a missing or null intensity counts 0; a stored number counts as itself |
| Analytics.IntensityTotalBounded | backend/server.py:513 | for intensities on the 1-10 scale the total exists and lies between 0 and 10 per session |
| Analytics.MeanBounded | backend/server.py:513 | a total within 0..10n gives a mean within 0..10 |
| Analytics.MeanOnScale | backend/server.py:513 | the average intensity of on-scale sessions lies within 0..10, and is 0 without sessions |
| Analytics.GetAthleteOverview | backend/server.py:497-529 | the volume is the number of recent done sessions; the average is their mean intensity; the counts are the histogram; no next events; failure only when an intensity is not numeric |
| Analytics.SeriesOf | backend/server.py:543-557 | one date per assessment and ten columns as long as the dates, entry i of each column from assessment i, a missing score as null |
| Analytics.GetAthleteAssessments | backend/server.py:532-557 | the series of the athlete's assessments sorted stably by ascending date (same-date assessments keep their stored order), a permutation of those found; failure exactly when a date is not a timestamp |
| Seqs.SortInPlace | backend/server.py:541 | the array ends sorted by the key, holds the same elements, and elements with equal keys keep their order (stable) |
| Seqs.Distinct | frontend/src/pages/Athletes.tsx:72 | each element of the input exactly once |
| Seqs.DistinctFirstOccurrenceOrder | frontend/src/pages/Athletes.tsx:72 | the distinct elements appear in the order of their first occurrence |
| Seqs.NoDuplicatesCard | frontend/src/pages/Athletes.tsx:72 | a list without duplicates is as long as its set of elements |
| Seqs.FilterCount | frontend/src/pages/Athletes.tsx:281 | a filter keeps as many elements as there are positions satisfying the predicate |
| Api.ApiBase | frontend/src/lib/api.ts:1-2 | the base URL is the first set backend URL followed by `/api`, "undefined/api" when none is set |
| Api.Fetch | frontend/src/lib/api.ts:178-186 | the URL is the base and the path; credentials are included; the JSON content type is sent unless the caller passes headers, which replace it |
| Api.Complete | frontend/src/lib/api.ts:188-193 | no response is a network failure; a non-2xx status becomes an `ApiError` with that status and the body text; a 2xx response gives the decoded body |
| Api.OptionsOf | frontend/src/lib/api.ts:197-432 | each call's method; a JSON body only for login, create and update; never headers |
| Api.EveryCallSendsJson | frontend/src/lib/api.ts:179-186 | every call of the service sends credentials and the JSON content type |
| Api.EndpointOf | frontend/src/lib/api.ts:197-432 | every call the service offers addresses an existing backend endpoint |
| Api.PathIsRoutePath | frontend/src/lib/api.ts:197-432 | under `/api` each call's path is its endpoint's route path |
| Api.CallsReachTheirEndpoints | frontend/src/lib/api.ts:197-432 | each call's method and path dispatch on the backend to the endpoint it means |
| Api.PresentParams | frontend/src/lib/api.ts:216-218 | at most one parameter per candidate |
| Api.PresentParamsOrdered | frontend/src/lib/api.ts:307-311 | the parameters keep the order of the candidates |
| Api.PresentParamsMeaning | frontend/src/lib/api.ts:216-218 | a parameter is sent exactly when its value is non-empty, with that value |
| Api.QueryString | frontend/src/lib/api.ts:220 | the query string is empty exactly when there are no parameters |
| Api.WithQuery | frontend/src/lib/api.ts:221 | the `?` and the query are added only when the query is non-empty |
| Api.AthletesParams | frontend/src/lib/api.ts:215-218 | `name` then `sector`, each only when non-empty |
| Api.GetAthletesPath | frontend/src/lib/api.ts:215-222 | the path with the athlete query, the bare `/athletes` without filters |
| Api.AthleteFiltersReachServer | frontend/src/lib/api.ts:215-222 | the parameters sent are exactly the filters the server applies |
| Api.SessionsParams | frontend/src/lib/api.ts:307-311 | athlete_id, program_id, start_date, end_date, each only when present |
| Api.GetSessionsPath | frontend/src/lib/api.ts:301-315 | the path with the session query, the bare `/sessions` without filters |
| Api.SessionParamsOrdered | frontend/src/lib/api.ts:307-311 | the session parameters follow the fixed order |
| Api.SingleFilterPath | frontend/src/lib/api.ts:249-251 | `?key=value` is added if and only if a value is given |
| AuthContext.AfterCheck | frontend/src/contexts/AuthContext.tsx:38-52 | success holds the user and clears the error; any failure drops the user; only a non-401 `ApiError` sets the error; loading ends; authenticated exactly on success |
| AuthContext.LoginMessage | frontend/src/contexts/AuthContext.tsx:64-74 | 401 gives "Invalid email or password", another `ApiError` "Login failed. Please try again.", any other failure the network message |
| AuthContext.AfterLogin | frontend/src/contexts/AuthContext.tsx:54-78 | the user is set, and the error cleared, only when login and `getMe` both succeed; a failure keeps the user, shows its message and is re-thrown; loading ends |
| AuthContext.AfterLogout | frontend/src/contexts/AuthContext.tsx:80-91 | no user, no error, not loading |
| AuthContext.FailedLoginKeepsSession | frontend/src/contexts/AuthContext.tsx:59-74 | a failed login leaves the user and the authentication unchanged |
| AuthContext.InitialCheckError | frontend/src/contexts/AuthContext.tsx:44-48 | after the first check an error is shown exactly for a non-401 `ApiError` |
| AuthContext.CheckIdempotent | frontend/src/contexts/AuthContext.tsx:38-52 | repeating a check with the same outcome changes nothing |
| AuthContext.UseAuth | frontend/src/contexts/AuthContext.tsx:15-21 | outside a provider an error; inside, the provider's state |
| AuthContext.AuthProvider.constructor | frontend/src/contexts/AuthContext.tsx:28-30 | no user, loading, no error |
| AuthContext.AuthProvider.CheckAuthStatus | frontend/src/contexts/AuthContext.tsx:38-52 | the cells move as `AfterCheck` says |
| AuthContext.AuthProvider.Login | frontend/src/contexts/AuthContext.tsx:54-78 | the cells and the re-thrown failure are as `AfterLogin` says |
| AuthContext.AuthProvider.Logout | frontend/src/contexts/AuthContext.tsx:80-91 | whatever the call does, the cells end as `AfterLogout` says |
| Dashboard.ActiveGoals | frontend/src/components/Dashboard.tsx:56 | exactly the active goals, as a subsequence |
| Dashboard.UpcomingSessions | frontend/src/components/Dashboard.tsx:57-61 | exactly the scheduled sessions starting after now, as a subsequence |
| Dashboard.CompletedSessions | frontend/src/components/Dashboard.tsx:62 | exactly the done sessions |
| Dashboard.Percent | frontend/src/components/Dashboard.tsx:63 | the nearest integer to 100·done/total, halves up; 0 without sessions; within 0..100 |
| Dashboard.CompletionRate | frontend/src/components/Dashboard.tsx:62-63 | the share of done sessions in percent, rounded half up (with n sessions: 2n·r ≤ 200·done + n < 2n·r + 2n); within 0..100; 0 without sessions |
| Dashboard.CompletionRateExtremes | frontend/src/components/Dashboard.tsx:62-63 | 100 when there are sessions and all are done; 0 when none is done |
| Dashboard.RecentSessions | frontend/src/components/Dashboard.tsx:66-69 | five done sessions, or all when fewer, latest first, none shown more often than it occurs |
| Dashboard.RecentSessionsAreLatest | frontend/src/components/Dashboard.tsx:66-69 | a done session starting later than a shown one is shown too |
| Dashboard.CardAthletes | frontend/src/components/Dashboard.tsx:168 | the first four athletes |
| Dashboard.CardGoals | frontend/src/components/Dashboard.tsx:169 | exactly the active goals of the card's athlete |
| Dashboard.Preview | frontend/src/components/Dashboard.tsx:189-218 | the first two entries and the hidden count; the count is positive exactly when there are more than two |
| Dashboard.AllFour | frontend/src/components/Dashboard.tsx:31-36 | all four values exactly when all four fetches succeed |
| Dashboard.DashboardView.constructor | frontend/src/components/Dashboard.tsx:16-20 | empty collections, loading |
| Dashboard.DashboardView.LoadDashboardData | frontend/src/components/Dashboard.tsx:28-48 | all four collections are replaced only when all fetches succeed; otherwise none changes and the toast is raised; loading ends |
| Dashboard.DashboardView.LatestAssessment | frontend/src/components/Dashboard.tsx:72-74 | nothing exactly when there are no assessments; otherwise one with the latest date, the array reordered in place latest first |
| AthletesPage.FilteredAthletes | frontend/src/pages/Athletes.tsx:62-70 | an athlete is kept exactly when the search and the sector both match, in order |
| AthletesPage.NoFiltersListAll | frontend/src/pages/Athletes.tsx:62-70 | with no filter set every athlete is listed |
| AthletesPage.NameFindsAthlete | frontend/src/pages/Athletes.tsx:62-70 | an athlete's first name, or its last name in lower case, finds that athlete |
| AthletesPage.AthleteGoals | frontend/src/pages/Athletes.tsx:54-56 | exactly the athlete's active goals, in order |
| AthletesPage.AthleteRecords | frontend/src/pages/Athletes.tsx:58-60 | exactly the athlete's records, in order |
| AthletesPage.RecentPb | frontend/src/pages/Athletes.tsx:218-225 | the athlete's first record in list order, or nothing when it has none |
| AthletesPage.RecentPbIsFirstRecord | frontend/src/pages/Athletes.tsx:218-225 | the personal best shown is the head of the athlete's records |
| AthletesPage.PresentSectors | frontend/src/pages/Athletes.tsx:72 | exactly the set, non-empty sectors |
| AthletesPage.UniqueSectors | frontend/src/pages/Athletes.tsx:72 | each set, non-empty sector once, in the order of first appearance |
| AthletesPage.AgeFromBirthDate | frontend/src/pages/Athletes.tsx:74-84 | nothing without a birth date; otherwise the number of birthdays reached by today |
| AthletesPage.EmptyStateWithoutFilters | frontend/src/pages/Athletes.tsx:249-266 | with no filter the empty state and the add button appear exactly when there are no athletes |
| AthletesPage.Stats | frontend/src/pages/Athletes.tsx:270-298 | the athlete and record counts, the number of goals whose status is active, and the number of distinct set, non-empty sectors (the length of the sector list) |
| AthletesPage.ActiveGoalCount | frontend/src/pages/Athletes.tsx:281 | the active-goal figure equals the number of positions holding an active goal |
| AthletesPage.SectorCount | frontend/src/pages/Athletes.tsx:72 | the sector list is as long as the set of distinct set, non-empty sectors |
| AthletesPage.AllThree | frontend/src/pages/Athletes.tsx:31-35 | all three values exactly when all three fetches succeed |
| AthletesPage.AthletesView.constructor | frontend/src/pages/Athletes.tsx:16-21 | empty collections, loading, no filters |
| AthletesPage.AthletesView.LoadData | frontend/src/pages/Athletes.tsx:29-46 | the three collections are replaced only when all fetches succeed; loading ends; the filters stay |
| RadarChart.DataValues | frontend/src/components/RadarChart.tsx:29-53 | ten values, value i from the i-th score field and drawn on the axis labelled with that field's name, present scores unchanged and missing ones 0 |
| RadarChart.NoScoresIsZero | frontend/src/components/RadarChart.tsx:42-53 | an assessment without scores plots ten zeros |
| Roster.FilteredAthletes | src/pages/Athletes.tsx:15-18 | an athlete is kept exactly when the search is in its name or sport ignoring case, in order |
| Roster.EmptySearchKeepsAll | src/pages/Athletes.tsx:15-18 | the empty search keeps every athlete |
| Roster.Initials | src/pages/Athletes.tsx:65 | at most one letter per piece, starting with the name's first letter |
| Roster.InitialsOfWords | src/pages/Athletes.tsx:65 | for words joined by single spaces, the first letter of each word |
| Roster.Badge | src/pages/Athletes.tsx:83-89 | success and a "+" exactly for a positive change |
| TrainingPlans.FilteredPrograms | src/pages/TrainingPlans.tsx:16-19 | a program is kept exactly when the search is in its name or target group ignoring case, in order |
| TrainingPlans.EmptySearchKeepsAll | src/pages/TrainingPlans.tsx:16-19 | the empty search keeps every program |
| TrainingPlans.TrainingPlansView.constructor | src/pages/TrainingPlans.tsx:13-14 | empty search, nothing selected |
| TrainingPlans.TrainingPlansView.SelectProgram | src/pages/TrainingPlans.tsx:21-23 | the clicked program is selected and its card shown |
| TrainingPlans.TrainingPlansView.Close | src/pages/TrainingPlans.tsx:25-27 | nothing is selected and the card is hidden |
| TrainingPlans.TrainingPlansView.SetSearchTerm | src/pages/TrainingPlans.tsx:50 | the search changes and the selection does not |
| TrainingPlans.NoPlansOnlyWhenEmpty | src/pages/TrainingPlans.tsx:59-78 | with an empty search the "no plans" card appears exactly when there are no programs |

## Findings

| source | as written | input that shows it | evidently intended | confidence | as-written member | corrected member |
|---|---|---|---|---|---|---|
| backend/server.py:513 | the intensity sum defaults only a missing key to 0, so a stored null intensity makes the sum fail (a 500) | a session created this week without an intensity and then marked done: `SessionCreate` stores intensity as null | a session without intensity counts 0, as in the overview's other fields | not executed | Analytics.SessionWithoutIntensityBreaksSum | Analytics.IntensityTotalBounded |

The overview in this model uses the corrected reading (`Analytics.Intensity`).

## Left out

- Password hashing and checking, JWT signing and decoding: parameters. The decoder's three outcomes are valid claims, expired, and malformed. Any decoding error is treated as the library's `JWTError`.
- Wall-clock reads are parameters: the `now` of the server and of the dashboard, and the client's `today`.
- MongoDB itself and its `_id` field are not modelled. `$regex` with the `i` option is modelled as a case-insensitive substring test, so regex metacharacters in a name filter are not modelled.
- Lower-casing covers the ASCII letters only.
- Pydantic validation of requests and responses is not modelled. This covers `EmailStr` and the coercion of stored documents into response models.
- Routing, dependency injection, CORS, the shutdown hook and the application's startup are not modelled.
- `Event`, `EventEntry` and `SessionExercise` are not modelled: no endpoint uses them.
- Floating point is not modelled: the intensity mean is a real number, and JavaScript numbers are integers.
- `Promise.all` concurrency, `fetch`, `console`, toasts, navigation and all markup are not modelled. A load is the all-or-nothing combination of its outcomes.
- The pages' `isAuthenticated` guard around loading is not modelled.
- The dashboard's fixed summary-metric changes are not modelled.
- The fields of the client interfaces that no modelled view reads are not modelled.
- The form-encoding of `URLSearchParams` (section 5.2 of the WHATWG URL Standard) is a parameter.
- `Api.Fetch`: caller headers replace the merged headers, dropping the JSON content type. This is modelled as written; no call of the service passes headers, as `Api.EveryCallSendsJson` states.
- Analytics.GetAthleteOverview: `intensity_avg` is the exact mean, without `round(…, 1)`.
- Analytics.GetAthleteAssessments: dates are timestamps; their `strftime` formatting is left out.
- Dashboard.CompletionRate: round-half-up of the exact ratio. The floating-point product before `Math.round` can differ from it right at a half: for 23 done of 40 sessions, `(23 / 40) * 100` is just below 57.5 in IEEE doubles and shows 57, where the model gives 58.
- Dashboard.RecentSessions: the order among sessions with the same start is not stated.
- Dashboard.DashboardView.LatestAssessment: which of several assessments with the latest date is returned is not stated.
- AthletesPage.AgeFromBirthDate: parsing the date string is a parameter. The time-zone shift of `new Date` on an ISO date is not modelled.
- Roster.Badge: the number formatting of the label is not modelled, only its variant and sign prefix.
- `frontend/src/components/Dashboard.tsx` date formatting with `toLocaleDateString` is not modelled.
