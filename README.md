# Fruitful Lab dashboard and Pinterest Potential calculator, modelled in Dafny

Fruitful Lab runs a small internal dashboard and a public marketing tool. This project models the decision logic of both and proves properties of it.

The backend is a FastAPI service. It keeps user accounts with hashed passwords, issues JWT bearer tokens and guards its routes with "current user" and "current active user" dependencies. Administrators upload monthly Pinterest account statistics as CSV files: every row is parsed, and the whole batch is committed or rolled back. Two command-line scripts create, delete, list and wipe users, with a secret protecting admin creation.

The frontend is a Next.js application. Its edge middleware keeps the dashboard and the contractor area behind the access-token cookie. Its login route forwards the form to the backend and sets the cookie. Its main feature is the Pinterest Potential calculator, an eight-step wizard. The calculator has:

- a variant resolver, and experiments evaluated by GrowthBook with a local weighted fallback;
- lead-capture modes;
- answer validation, in two copies of the specification;
- a benchmark table with audience tiers and insight lines;
- a niche picker with icons and search suggestions;
- a draft saved in session storage;
- small UI pieces: a checkbox grid, a slider with ticks and a progress bar.

Each source file of the core is one Dafny module, in a file named after it:

| module | file |
|---|---|
| `Utils` | backend/utils.py |
| `Stats` | backend/routers/stats.py |
| `Security` | backend/security.py |
| `AuthRoutes` | backend/routers/auth.py |
| `ManageUsers` | backend/scripts/db/manage_users.py |
| `LegacyManageUsers` | backend/manage_users.py |
| `Middleware` | frontend/middleware.ts |
| `LoginRoute` | frontend/app/api/auth/login/route.ts |
| `VariantPage` | frontend/app/tools/pinterest-potential/page.tsx |
| `LeadMode` | frontend/lib/tools/pinterestPotential/leadMode.ts |
| `LeadGating` | frontend/lib/tools/pinterestPotential/leadGatingConfig.ts |
| `AnswerSpec` | frontend/lib/tools/pinterestPotential/pinterestPotentialSpec.ts |
| `LegacyAnswerSpec` | lib/tools/pinterestPotential/pinterestPotentialSpec.ts |
| `Benchmarks` | frontend/lib/tools/pinterestPotential/benchmarks.ts |
| `AudiencePreview` | frontend/lib/tools/pinterestPotential/audiencePreview.ts |
| `NicheUiAdapter` | frontend/lib/tools/pinterestPotential/nicheUiAdapter.ts |
| `Insight` | frontend/lib/tools/pinterestPotential/insight.ts |
| `Wizard` | frontend/components/tools/pinterestPotential/PinterestPotentialWizard.tsx |
| `PotentialDraft` | frontend/components/tools/pinterestPotential/usePinterestPotentialDraft.ts |
| `CheckboxGrid` | frontend/components/ui/forms/CheckboxCardGrid.tsx |
| `Slider` | frontend/components/ui/forms/SliderWithTicks.tsx |
| `ProgressBar` | frontend/components/ui/ProgressBar.tsx |
| `GrowthBookExperiments` | frontend/lib/growthbook/experiments.ts |
| `ExperimentConfig` | frontend/lib/experiments/config.ts |

Four shared modules support them:

- `Results`: `Option` and `Result`.
- `Strings`: the whitespace sets of Python and JavaScript, trimming, ASCII lower-casing, split and join, and decimal rendering.
- `Json`: JavaScript values with their truthiness and property access.
- `Users`: the users table of backend/models.py, kept with a unique e-mail column.

Code that changes state step by step is modelled as methods with loops, proved against specification functions:

- the CSV upload loop (`Stats.StatsDb`);
- the user-management commands over `Users.UserTable`;
- `validateAnswers`'s question loop;
- the suggestion loops;
- the checkbox toggle;
- the tick loop;
- the weighted pick and `equalSplitWeights`;
- the wizard (`Wizard.Wizard`) and the draft hook (`PotentialDraft.DraftHook`), as classes.

The rest is functions and lemmas.

Foreign code becomes parameters:

- The password hasher and the JWT codec are records of functions. The properties the code relies on are stated as the predicates `SoundHasher` and `SoundCodec`.
- The clock, `Math.random()`, the environment's secrets and keys, the backend reply seen by the login route, and the GrowthBook client are inputs.
- `JSON.parse` and `JSON.stringify` are inputs.
- The wizard's validation, computation and option lists are inputs. `validateAnswers` is exported by frontend/lib/tools/pinterestPotential/pinterestPotentialSpec.ts, but its `Answers` type holds numbers and option-id arrays, while the wizard passes the string answers its `buildSpecAnswers` builds. `computeResults` comes from compute.ts, which is not part of this model. `getNicheOptions`, `getPrimaryGoalOptions`, `validateLead`, `getQ3Prompt` and `getQ6Prompt` are imported from the spec file, which does not define them.


## Model

| member | source | states |
|---|---|---|
| `Utils.MakeDate` | backend/utils.py:42 | `date(year, month, day)` succeeds exactly for a real calendar date (year 1…9999, month 1…12, day within the month, leap years counted) and then holds those three numbers; the year check is the one reported for an out-of-range year |
| `Utils.StrptimeIso` | backend/utils.py:13-14 | `strptime(s, "%Y-%m-%d")` succeeds only on 8 to 10 characters that begin and end with a digit, and only with a real calendar date |
| `Utils.IsoRoundTrip` | backend/utils.py:13-14 | every valid date written as `YYYY-MM-DD` reads back as itself |
| `Utils.IsoAcceptsShortForms` | backend/utils.py:13-14 | the format is lenient inside: `2024-1-5` and `2024-01- 5` are read as 5 January 2024; `2024-02-30` fails with a day out of range and `2024-01-011` with unconverted data |
| `Utils.IsoRejectsSurroundingSpace` | backend/utils.py:13-14 | text with whitespace at either end never parses as ISO |
| `Utils.IsoNeedsFourDigitYear` | backend/utils.py:13-14 | text with a slash in third position (a range value) is never an ISO date, so range values always reach the pattern |
| `Utils.RangeMatch` | backend/utils.py:19-24 | a match has slashes and a dash at positions 2, 5 and 8; without the year group it is exactly 11 characters; a year group is a number in 0…9999 |
| `Utils.RangeMatchWithYear` | backend/utils.py:19-24 | `MM/DD-MM/DD YYYY` matches with the four two-digit groups and the year read off |
| `Utils.ParseCalendarMonth` | backend/utils.py:6-42 | every success is a real date; "Unrecognized calendar_month format" is raised exactly when the stripped text is neither ISO nor the range pattern; a missing-year error only happens for a range match when no default year is given |
| `Utils.CalendarMonthIgnoresSurroundingSpace` | backend/utils.py:10 | the value is stripped first, so parsing `raw` and parsing its stripped form agree |
| `Utils.CalendarMonthIso` | backend/utils.py:10-16 | an ISO date padded with any whitespace is read as itself, whatever the default year |
| `Utils.CalendarMonthRangeWithYear` | backend/utils.py:19-42 | `MM/DD-MM/DD YYYY` gives the first day of the range in that year, for any end month and day (they are never checked) and any default year |
| `Utils.CalendarMonthRangeWithoutYear` | backend/utils.py:28-42 | `MM/DD-MM/DD` without a year raises the missing-year error when there is no default year, otherwise gives the start date in the default year, or the date error when that date does not exist |
| `Utils.PyIntOfRendering` | backend/utils.py:58 | Python's `int()` reads every integer's decimal rendering back as that integer |
| `Utils.ParseIntField` | backend/utils.py:45-60 | every failure is "Invalid integer" naming the field and the raw value |
| `Utils.IntFieldBlankIsZero` | backend/utils.py:53-55 | a missing cell or one of only whitespace is 0 |
| `Utils.IntFieldCommasIsZero` | backend/utils.py:53-55 | a cell of commas only, with any whitespace around, is 0 |
| `Utils.IntFieldRoundTrip` | backend/utils.py:53-58 | every integer written in decimal, negative ones included, reads back as itself |
| `Utils.IntFieldIgnoresCommas` | backend/utils.py:53-58 | thousands separators anywhere in the digits and whitespace around the cell are ignored (`" 1,313 "` is 1313) |
| `Utils.IntFieldRejectsLetters` | backend/utils.py:57-60 | `"12a"` is refused with the invalid-integer error |
| `Utils.IntFieldRejectsSpacedCommas` | backend/utils.py:53-60 | `", ,"` keeps its inner space after the commas go, and is refused |
| `Stats.ReadCsv` | backend/routers/stats.py:53 | the header is missing exactly when the file has no rows; otherwise it is the first row, and there is at most one record per later row |
| `Stats.DataRecords` | backend/routers/stats.py:53 | every record has a key for every header name |
| `Stats.RecordHasEveryColumn` | backend/routers/stats.py:53 | every header name is a key of every `DictReader` record (short rows get `None`), so a required column never raises `KeyError` once the header gate passed |
| `Stats.BlankLinesAreSkipped` | backend/routers/stats.py:53-73 | a blank line among the data rows yields no record, so the line number counts records, not physical lines |
| `Stats.StrictModeDoesNotStrip` | backend/routers/stats.py:77-83 | a whitespace-padded ISO date is refused in strict mode (raw text to `strptime`) and accepted in range mode (stripped first) |
| `Stats.Outcomes` | backend/routers/stats.py:72-94 | one loop-body outcome per record, in record order |
| `Stats.ParseBatch` | backend/routers/stats.py:71-103 | a batch that stops does so at a record whose outcome is that rejection or crash; a batch that completes has one row per record |
| `Stats.ParseBatchAllParsed` | backend/routers/stats.py:72-96 | the batch succeeds exactly when every record parses, and then holds one row per record, in order |
| `Stats.ParseBatchRejected` | backend/routers/stats.py:72-103 | a 400 for record k happens exactly when record k raises a handled error and every earlier record parsed |
| `Stats.ParseBatchPrefixStops` | backend/routers/stats.py:72-103 | once a prefix of the records has failed, later records do not change the outcome |
| `Stats.StatsDb.constructor` | backend/routers/stats.py:39 | a session starts with the committed rows and nothing staged |
| `Stats.StageRecords` | backend/routers/stats.py:68-94 | the loop stages each parsed row in order, counting lines from the header's 1; it stops at the first failing record with line number index + 2, keeping the rows staged before it; committed rows are untouched |
| `Stats.UploadCsv` | backend/routers/stats.py:34-105 | the endpoint: content-type gate, header gate, loop, then commit of all staged rows or rollback; committed rows change only on success, by appending every record's row; a handled error leaves nothing staged; an unhandled exception leaves the staged rows for the session to discard |
| `Stats.InsertedRowsMatchRecords` | backend/routers/stats.py:68-105 | an accepted upload reports as many inserted rows as there are data records, each row the parse of its record |
| `Stats.FailureReportsFirstBadLine` | backend/routers/stats.py:69-103 | the 400 names line k + 2 and the error of the first record k that fails |
| `Stats.GatesComeFirst` | backend/routers/stats.py:43-66 | a content type other than the three accepted ones gives "Please upload a CSV file."; an empty file or a header without `saves` gives the missing-columns 400, whatever the records hold |
| `Stats.DetailText` | backend/routers/stats.py:48-102 | the 400 for a wrong file type reads "Please upload a CSV file."; the missing-columns text lists the five columns in sorted order; a row failure starts with "Error parsing CSV on line " |
| `Stats.MissingColumnsText` | backend/routers/stats.py:62-66 | the missing-columns text is the five sorted names joined by ", " after the prefix |
| `Stats.InsertByMonth` | backend/routers/stats.py:116-119 | inserting one row into a month-sorted listing keeps it sorted and adds exactly that row |
| `Stats.ListMonthly` | backend/routers/stats.py:112-121 | the monthly listing holds the same rows as the table, ascending by calendar month |
| `Users.FindByEmail` | backend/security.py:44-45 | `get_user_by_email`: a returned user is in the table and has that e-mail; `None` exactly when no user has it |
| `Users.FindByEmailUnique` | backend/security.py:44-45 | with unique e-mails the query finds exactly the row holding the e-mail |
| `Users.RemoveEmailKeepsUnique` | backend/scripts/db/manage_users.py:64-70 | deleting the rows with one e-mail keeps the e-mail column unique |
| `Security.RequireJwtSecret` | backend/security.py:72 | the JWT secret is refused when unset or empty; any other value is the secret used |
| `Security.AuthenticateUser` | backend/security.py:48-54 | `authenticate_user` returns only a user of the table with that e-mail |
| `Security.AuthenticateExactlyWithPassword` | backend/security.py:36-54 | with a sound password hasher, a user authenticates with exactly the password whose hash is stored, and the result is that user |
| `Security.AuthenticateUnknownEmail` | backend/security.py:48-51 | an e-mail no user has never authenticates |
| `Security.CreateAccessToken` | backend/security.py:60-73 | a token is produced exactly when the JWT secret is configured |
| `Security.GetCurrentUser` | backend/security.py:76-102 | a resolved user is a user of the table |
| `Security.GetCurrentActiveUser` | backend/security.py:105-110 | a resolved user is in the table and active |
| `Security.CurrentUserOutcomes` | backend/security.py:80-102 | once the secret is found, every failure is the single 401 "Could not validate credentials", whatever was wrong; a success is the user named by the decoded token's `sub` |
| `Security.ActiveUserRefinesCurrentUser` | backend/security.py:105-110 | the active-user dependency succeeds exactly when the current-user one does with an active user; an inactive user gets the 400 "Inactive user" |
| `Security.TokenIdentifiesUser` | backend/security.py:60-102 | a token made for a user's e-mail resolves to that user at any time up to its expiry |
| `Security.ExpiredTokenRefused` | backend/security.py:71-96 | after its expiry a token is refused with the same 401 |
| `Security.RotatedSecretRefusesOldTokens` | backend/security.py:72-89 | the secret is read on every call, so a changed secret refuses every token signed with the old one |
| `Security.DefaultLifetimeApplies` | backend/security.py:67-71 | without an explicit lifetime a token carries `sub`, `iat` = now and `exp` = now plus the configured minutes |
| `Users.AppendFresh` | backend/routers/auth.py:31-54 | adding a row whose e-mail is not yet present keeps the e-mail column unique, and the e-mail query then finds that row |
| `AuthRoutes.RegisteredUser` | backend/routers/auth.py:42-52 | the registered row has the payload's e-mail, is never an admin, and has equal creation and update times |
| `AuthRoutes.RegisterUser` | backend/routers/auth.py:23-56 | an e-mail already present gives "User with this email already exists" and leaves the table unchanged; otherwise exactly the new row is appended and returned, and e-mails stay unique |
| `AuthRoutes.Login` | backend/routers/auth.py:59-87 | a successful login returns a bearer token |
| `AuthRoutes.ReadCurrentUser` | backend/routers/auth.py:90-99 | `/auth/me` returns only an active user of the table |
| `AuthRoutes.LoginOutcomes` | backend/routers/auth.py:71-87 | login gives "Incorrect email or password" exactly when authentication fails, and succeeds exactly when authentication succeeds and the JWT secret is set |
| `AuthRoutes.LoginThenMe` | backend/routers/auth.py:59-99 | the token from login is accepted by `/auth/me` for the configured lifetime and names the user who logged in, or gets "Inactive user" (login does not look at `is_active`) |
| `AuthRoutes.RegisteredUserCanLogIn` | backend/routers/auth.py:23-87 | right after registering, login succeeds with the chosen password and with no other |
| `Users.RemoveEmail` | backend/scripts/db/manage_users.py:64-70 | deleting by e-mail keeps exactly the rows with a different e-mail |
| `ManageUsers.NormalizeGroupIdempotent` | backend/scripts/db/manage_users.py:16 | normalising a group name (strip, lower case) twice is normalising it once |
| `ManageUsers.NormalizeAll` | backend/scripts/db/manage_users.py:16 | one normalised piece per comma-separated piece, in order |
| `ManageUsers.DropEmpty` | backend/scripts/db/manage_users.py:17 | the result keeps the input's order (a subsequence) and holds every non-empty piece as often as the input does and no empty one; nothing is dropped when none is empty |
| `ManageUsers.ParseGroups` | backend/scripts/db/manage_users.py:12-17 | no text or empty text gives no groups; otherwise the comma pieces, each stripped and lower-cased, empty ones dropped; every group is non-empty, normalised and comma-free |
| `ManageUsers.ParseGroupsExample` | backend/scripts/db/manage_users.py:12-17 | `"A, ,b,a"` parses to `["a", "b", "a"]`: blank piece dropped, case folded, repeats kept |
| `ManageUsers.ParseGroupsRoundTrip` | backend/scripts/db/manage_users.py:12-17 | a normalised group list written back with commas parses to itself |
| `ManageUsers.ParseGroupsBlankPieces` | backend/scripts/db/manage_users.py:14-17 | commas alone, or only whitespace between commas, give no groups |
| `ManageUsers.NewUser` | backend/scripts/db/manage_users.py:40-49 | the created row is active, admin only when asked for, with equal creation and update times |
| `ManageUsers.CreateUser` | backend/scripts/db/manage_users.py:20-57 | an existing e-mail is reported and the table is unchanged; otherwise exactly the new row (groups defaulting to none) is appended; e-mails stay unique |
| `ManageUsers.DeleteUser` | backend/scripts/db/manage_users.py:60-73 | an unknown e-mail is reported with no change; otherwise exactly that user's rows are removed |
| `ManageUsers.DeleteFreesEmail` | backend/scripts/db/manage_users.py:64-70 | after a delete the e-mail is free and every other user is still present |
| `ManageUsers.WipeUsers` | backend/scripts/db/manage_users.py:93-108 | without `--yes`, anything but the exact confirmation `WIPE` aborts with no change; otherwise the table is emptied and the old row count reported |
| `ManageUsers.AdminGate` | backend/scripts/db/manage_users.py:153-170 | admin rights are granted exactly when asked for with a set, non-empty secret equal to the one typed; a request without `--admin` is never refused |
| `ManageUsers.RunCommand` | backend/scripts/db/manage_users.py:111-189 | a refused admin gate changes nothing; a passed gate gives create's outcome and table (existing e-mail: unchanged; otherwise the old rows plus the new user, admin as the gate decided, with the parsed groups); delete leaves the old rows minus that e-mail's or reports it unknown; list changes nothing; wipe empties the table or aborts unchanged |
| `LegacyManageUsers.CreateUser` | backend/manage_users.py:12-45 | as the newer tool's create, but the row never carries groups |
| `LegacyManageUsers.RunCommand` | backend/manage_users.py:79-138 | the same admin gate in front of create; a refused gate changes nothing; a non-admin create always runs; a passed gate appends the new group-less user unless the e-mail exists; delete and list as in the newer tool, with the table stated for each |
| `Middleware.Handle` | frontend/middleware.ts:18-49 | whenever the request passes through, the experiment cookies are applied exactly when the path is under `/tools/pinterest-potential` |
| `Middleware.IsProtected` | frontend/middleware.ts:16-23 | the protected paths are exactly `/dashboard`, `/cont` and everything below them |
| `Middleware.SiblingNamesNotProtected` | frontend/middleware.ts:21-23 | `/dashboards` and `/contact` are public, `/cont/fruitful-qa` is protected |
| `Middleware.UnprotectedPassesThrough` | frontend/middleware.ts:27-33 | a public path always passes through, whatever the cookie |
| `Middleware.RedirectExactly` | frontend/middleware.ts:35-42 | a redirect to `/login` happens exactly for a protected path with no token or an empty one, and its `next` is pathname plus search |
| `Middleware.TokenNotValidated` | frontend/middleware.ts:35-48 | any non-empty token lets a protected path through; its content is not examined |
| `Middleware.ExperimentHookOnBothBranches` | frontend/middleware.ts:25-47 | under the calculator prefix the experiment hook runs on both pass-through branches |
| `LoginRoute.Credentials` | frontend/app/api/auth/login/route.ts:11-24 | credentials exist exactly when the body's `email` and `password` are both strings, and the backend form carries the e-mail as `username` and the password unchanged |
| `LoginRoute.FailureDetail` | frontend/app/api/auth/login/route.ts:34-42 | a failed reply's `detail` is forwarded when present and not null, otherwise the default message |
| `LoginRoute.RedirectTarget` | frontend/app/api/auth/login/route.ts:48-51 | the target always starts with "/"; it is the body's `next` whenever that is a string starting with "/" |
| `LoginRoute.AccessCookie` | frontend/app/api/auth/login/route.ts:55-63 | the cookie `fruitful_access_token` holds the token as read, HTTP-only, SameSite lax, path "/", four hours, secure exactly in production |
| `LoginRoute.Post` | frontend/app/api/auth/login/route.ts:10-66 | on success the cookie is `fruitful_access_token`, httpOnly, SameSite lax, path "/", max age 4 hours, and secure only in production |
| `LoginRoute.MissingFieldsRefusedBeforeBackend` | frontend/app/api/auth/login/route.ts:13-18 | a body without string e-mail and password gets the 400 "Email and password are required" whatever the backend would say |
| `LoginRoute.FormCarriesCredentials` | frontend/app/api/auth/login/route.ts:20-32 | with string credentials the outcome depends only on the backend's reply to that e-mail and password |
| `LoginRoute.FailureIsUnauthorized` | frontend/app/api/auth/login/route.ts:34-43 | a refused login is a 401 with the forwarded or default detail |
| `LoginRoute.FailureDefaultMessage` | frontend/app/api/auth/login/route.ts:35-39 | a non-JSON reply or a null detail gives "Invalid email or password. Please try again."; a string detail is forwarded |
| `LoginRoute.RedirectTargetSpec` | frontend/app/api/auth/login/route.ts:48-51 | the target is the dashboard exactly when `next` is missing, not a string, does not start with "/", or is the dashboard itself |
| `LoginRoute.ProtocolRelativeTargetAccepted` | frontend/app/api/auth/login/route.ts:48-51 | only the leading "/" is checked, so a protocol-relative `//evil.example` is passed on as the redirect target |
| `LoginRoute.SuccessSetsCookie` | frontend/app/api/auth/login/route.ts:45-65 | on success the response carries the redirect target and a cookie holding the backend's `access_token` with the fixed attributes |
| `VariantPage.ResolveVariant` | frontend/app/tools/pinterest-potential/page.tsx:37-48 | the resolved variant is always a known one: the lower-cased request when it names a variant, the default otherwise |
| `VariantPage.ResolveIgnoresCase` | frontend/app/tools/pinterest-potential/page.tsx:40 | the request's letter case does not change the variant chosen |
| `VariantPage.ResolveExamples` | frontend/app/tools/pinterest-potential/page.tsx:40-47 | `No_Welcome` selects `no_welcome`; no parameter or the old name `v2` selects the default `welcome` |
| `VariantPage.ResolveIdempotent` | frontend/app/tools/pinterest-potential/page.tsx:37-48 | resolving an already resolved variant gives it back |
| `VariantPage.NoComponentForResolvedVariant` | frontend/app/tools/pinterest-potential/page.tsx:15-30 | the component map is keyed `v1`/`v2`, so no variant the resolver can return has a component to render |
| `VariantPage.IntendedPageComponent` | frontend/app/tools/pinterest-potential/page.tsx:15-30 | with the registration keyed by the current variant names, the welcome variant renders V1 and exactly the other variant renders V2 |
| `VariantPage.EveryVariantRenders` | frontend/app/tools/pinterest-potential/page.tsx:15-48 | with that registration every variant has a component; no parameter renders V1 and `NO_WELCOME` renders V2 |
| `LeadMode.SkipSeparators` | frontend/lib/tools/pinterestPotential/leadMode.ts:26 | the result is no longer than the input and does not start with a separator |
| `LeadMode.CollapseLeavesNoSeparator` | frontend/lib/tools/pinterestPotential/leadMode.ts:26 | after the replacement no whitespace or hyphen is left |
| `LeadMode.CollapseRun` | frontend/lib/tools/pinterestPotential/leadMode.ts:26 | a run of whitespace and hyphens followed by anything else becomes exactly one underscore |
| `LeadMode.CollapseWithoutSeparators` | frontend/lib/tools/pinterestPotential/leadMode.ts:26 | text without separators is unchanged, so the replacement is idempotent |
| `LeadMode.Aliases` | frontend/lib/tools/pinterestPotential/leadMode.ts:29-59 | each mode's alias list starts with its canonical name |
| `LeadMode.AliasesDisjoint` | frontend/lib/tools/pinterestPotential/leadMode.ts:29-59 | no alias belongs to two modes, so the order of the three tests does not matter |
| `LeadMode.ModeOfAlias` | frontend/lib/tools/pinterestPotential/leadMode.ts:29-59 | a mode is found exactly when the text is an alias, and the mode found owns that alias |
| `LeadMode.NormalizeLeadMode` | frontend/lib/tools/pinterestPotential/leadMode.ts:15-63 | no value gives no mode, and a mode is returned only when the value's comparable form is one of its aliases |
| `LeadMode.NormalizeIsAliasLookup` | frontend/lib/tools/pinterestPotential/leadMode.ts:15-63 | normalising is the alias lookup of the comparable form: the empty text and `auto`, which return early, are no alias anyway |
| `LeadMode.NormalizeRecognises` | frontend/lib/tools/pinterestPotential/leadMode.ts:15-63 | a value is recognised exactly when its trimmed, lower-cased, separator-collapsed form is an alias, and then as the mode owning that alias |
| `LeadMode.NormalizeSelects` | frontend/lib/tools/pinterestPotential/leadMode.ts:29-59 | a value whose comparable form is an alias of a mode selects that mode |
| `LeadMode.WordComparable` | frontend/lib/tools/pinterestPotential/leadMode.ts:18-26 | a lower-case word without separators is its own comparable form |
| `LeadMode.NormalizeIgnoresCaseAndSpace` | frontend/lib/tools/pinterestPotential/leadMode.ts:18 | surrounding whitespace and letter case do not change the result |
| `LeadMode.NoOverride` | frontend/lib/tools/pinterestPotential/leadMode.ts:16-22 | no value, a blank one and `auto` in any case give no mode |
| `LeadMode.SeparatedWords` | frontend/lib/tools/pinterestPotential/leadMode.ts:24-26 | two words joined by any run of whitespace and hyphens are read as the alias joining them with one underscore |
| `LeadMode.SeparatorsTolerated` | frontend/lib/tools/pinterestPotential/leadMode.ts:24-47 | `gate - before` selects gate-before-results and `after-results` selects optional-after-results |
| `LeadMode.JoinWords` | frontend/lib/tools/pinterestPotential/leadMode.ts:26 | a word, a separator run and a rest not starting with a separator collapse to word, one underscore, collapsed rest |
| `LeadMode.CanonicalNamesFixed` | frontend/lib/tools/pinterestPotential/leadMode.ts:3-59 | every canonical mode name normalises to its own mode |
| `LeadMode.ResolveLeadMode` | frontend/lib/tools/pinterestPotential/leadMode.ts:65-85 | a recognised request gives its mode; skip mode comes only from the request, the cookie or a known lead |
| `LeadMode.ResolvePrecedence` | frontend/lib/tools/pinterestPotential/leadMode.ts:65-85 | a recognised request wins, then a recognised cookie, then skip mode for a known lead, else gate before results |
| `LeadMode.RequestedModeWins` | frontend/lib/tools/pinterestPotential/leadMode.ts:74-75 | an explicit mode in the request is honoured whatever the cookie and the visitor |
| `LeadGating.NormalizeGating` | frontend/lib/tools/pinterestPotential/leadGatingConfig.ts:68-72 | a mode is read exactly for the strings `hard_lock` and `soft_lock`, and it is the mode of that name |
| `LeadGating.ResolveLeadGating` | frontend/lib/tools/pinterestPotential/leadGatingConfig.ts:38-80 | the mode is always one the configuration allows, and the lead state is `known` exactly for a known lead |
| `LeadGating.ModeIndependentOfLead` | frontend/lib/tools/pinterestPotential/leadGatingConfig.ts:38-80 | the mode does not depend on whether the lead is known |
| `LeadGating.GatingPrecedence` | frontend/lib/tools/pinterestPotential/leadGatingConfig.ts:74-80 | a recognised request wins, then a recognised cookie, then the default `hard_lock` |
| `LeadGating.ExactStringsOnly` | frontend/lib/tools/pinterestPotential/leadGatingConfig.ts:69-70 | matching is exact: `Soft_Lock` and ` soft_lock` fall back to `hard_lock`, `soft_lock` is honoured |
| `AnswerSpec.Round` | frontend/lib/tools/pinterestPotential/pinterestPotentialSpec.ts:102 | `Math.round` gives the integer within half a unit, halves rounded up |
| `AnswerSpec.ClampToSliderRange` | frontend/lib/tools/pinterestPotential/pinterestPotentialSpec.ts:101-103 | for an ordered range the result lies in [min, max], is round(v) when that lies inside, min below and max above; an inverted range gives max |
| `AnswerSpec.ValidEmailUnanchored` | frontend/lib/tools/pinterestPotential/pinterestPotentialSpec.ts:105-108 | the email test is a search, so text around a match does not stop it matching |
| `AnswerSpec.ValidEmail` | frontend/lib/tools/pinterestPotential/pinterestPotentialSpec.ts:106 | a passing string holds an `@`, a `.` and at least five characters |
| `AnswerSpec.ValidEmailExamples` | frontend/lib/tools/pinterestPotential/pinterestPotentialSpec.ts:105-108 | `a@b.c` and `x a@b.c y` pass; `a@b` and `a@.c` fail |
| `AnswerSpec.QuestionError` | frontend/lib/tools/pinterestPotential/pinterestPotentialSpec.ts:124-144 | the lead question is skipped, an optional radio or checkbox question never errs, and a reported message is never empty |
| `AnswerSpec.ErrorsOf` | frontend/lib/tools/pinterestPotential/pinterestPotentialSpec.ts:123-145 | every message in the error map is non-empty |
| `AnswerSpec.ErrorsOfSpec` | frontend/lib/tools/pinterestPotential/pinterestPotentialSpec.ts:123-145 | with distinct ids, a question's id is in the error map exactly when its rules fail, mapped to that rule's message, and no other key appears |
| `AnswerSpec.QuestionErrors` | frontend/lib/tools/pinterestPotential/pinterestPotentialSpec.ts:121-145 | the loop over the questions builds exactly the error map the per-question rules define |
| `AnswerSpec.WithLeadErrors` | frontend/lib/tools/pinterestPotential/pinterestPotentialSpec.ts:150-153 | `LEAD.name` is added exactly for a blank name, with "Name is required.", `LEAD.email` exactly for an email failing the test, with "A valid email is required.", and every other key is untouched |
| `AnswerSpec.WithNameError` | frontend/lib/tools/pinterestPotential/pinterestPotentialSpec.ts:151 | `LEAD.name` is set to "Name is required." exactly for a blank name; otherwise an existing entry keeps its message; other keys untouched |
| `AnswerSpec.WithEmailError` | frontend/lib/tools/pinterestPotential/pinterestPotentialSpec.ts:152 | `LEAD.email` is set to "A valid email is required." exactly for an email failing the test; otherwise an existing entry keeps its message; other keys untouched |
| `AnswerSpec.QuestionIds` | frontend/lib/tools/pinterestPotential/pinterestPotentialSpec.ts:162-287 | the questions' ids are distinct and none is a lead key |
| `AnswerSpec.ValidateAnswers` | frontend/lib/tools/pinterestPotential/pinterestPotentialSpec.ts:120-156 | `ok` exactly when no error; each question's key present exactly when its rules fail; lead keys only when a lead is passed and its name is blank or email invalid, carrying "Name is required." and "A valid email is required."; no other keys |
| `AnswerSpec.RadioValueNotChecked` | frontend/lib/tools/pinterestPotential/pinterestPotentialSpec.ts:127-131 | a radio answer is only checked for presence, so an id no option has passes, while a missing required slider gets the required message |
| `AnswerSpec.SliderOutOfRange` | frontend/lib/tools/pinterestPotential/pinterestPotentialSpec.ts:137-143 | a Q7 value outside the bounds 1..5 the question table gives it gets "Value must be between 1 and 5." and a null one the required message |
| `AnswerSpec.AsJsNumber` | frontend/lib/tools/pinterestPotential/pinterestPotentialSpec.ts:141 | the number `<` and `>` compare: a number itself, `null` and `[]` as 0, `[x]` as x, and a longer array as NaN |
| `AnswerSpec.SliderArrayAnswer` | frontend/lib/tools/pinterestPotential/pinterestPotentialSpec.ts:137-143 | an array under Q7 compares as JavaScript converts it: `[]` gets the range message, `[x]` errs exactly when x is outside 1..5, and two or more elements never err |
| `AnswerSpec.PrimaryRegionId` | frontend/lib/tools/pinterestPotential/pinterestPotentialSpec.ts:298-301 | the first selected Q2 id when the selection is a non-empty array, nothing otherwise |
| `AnswerSpec.AvgHouseholdIncome` | frontend/lib/tools/pinterestPotential/pinterestPotentialSpec.ts:303-317 | the primary region's income when it has an entry, otherwise 30000 (region 1's, or the final fallback) |
| `AnswerSpec.RegionsCovered` | frontend/lib/tools/pinterestPotential/pinterestPotentialSpec.ts:303-317 | every Q2 option id has a region entry and every computed income lies between 15000 and 75000 |
| `LegacyAnswerSpec.LegacyQuestionIds` | lib/tools/pinterestPotential/pinterestPotentialSpec.ts:154-263 | this copy's question ids are distinct and none is a lead key |
| `LegacyAnswerSpec.ValidateAnswers` | lib/tools/pinterestPotential/pinterestPotentialSpec.ts:107-147 | `ok` exactly when no error; each question's key present exactly when its rules fail; `LEAD` gets "Lead info is required." exactly when no lead is passed, so that call is never ok; `LEAD.name`/`LEAD.email` exactly for a passed lead's blank name or invalid email, with their messages; no key other than a question id or these three |
| `LegacyAnswerSpec.SameQuestionRules` | lib/tools/pinterestPotential/pinterestPotentialSpec.ts:110-240 | this copy's questions have the frontend copy's ids, in order, and give every answer the same per-question error, with Q7/Q8 bounded 1..5 |
| `LegacyAnswerSpec.LeadErrors` | lib/tools/pinterestPotential/pinterestPotentialSpec.ts:135-144 | without a lead `LEAD` gets "Lead info is required."; with one, `LEAD.name` and `LEAD.email` are added for a blank name or an invalid e-mail with their messages; every other key is kept as it was |
| `LegacyAnswerSpec.QuestionKeysClear` | lib/tools/pinterestPotential/pinterestPotentialSpec.ts:109-133 | the question loop sets none of `LEAD`, `LEAD.name` and `LEAD.email` |
| `LegacyAnswerSpec.QuestionErrorsKept` | lib/tools/pinterestPotential/pinterestPotentialSpec.ts:107-147 | after the lead step each question keeps exactly the error its rules give, and no key other than a question id or a lead key appears |
| `Benchmarks.BenchmarkKey` | frontend/lib/tools/pinterestPotential/benchmarks.ts:52-54 | the key starts with the segment's name and a colon |
| `Benchmarks.KeyRoundTrip` | frontend/lib/tools/pinterestPotential/benchmarks.ts:50-54 | splitting a key at the segment gives back the segment and niche it was built from |
| `Benchmarks.KeysInjective` | frontend/lib/tools/pinterestPotential/benchmarks.ts:52-54 | different (segment, niche) pairs have different keys, so the lookup map built from them cannot confuse two rows |
| `Benchmarks.MapOf` | frontend/lib/tools/pinterestPotential/benchmarks.ts:544-546 | every key of the map is sent to a row of the given rows carrying that key |
| `Benchmarks.MapOfSpec` | frontend/lib/tools/pinterestPotential/benchmarks.ts:544-546 | the map holds exactly the keys of the given rows |
| `Benchmarks.HasRow` | frontend/lib/tools/pinterestPotential/benchmarks.ts:548-552 | the table has a row for a segment and niche exactly when their key is in the lookup map |
| `Benchmarks.GetBenchmark` | frontend/lib/tools/pinterestPotential/benchmarks.ts:548-555 | a row is returned exactly when the table has one for the pair, and it is that pair's row; otherwise the error "Missing benchmark row for segment:niche" |
| `Benchmarks.OpportunityTypeBySegment` | frontend/lib/tools/pinterestPotential/benchmarks.ts:7-540 | every row's opportunity is traffic for content creators, revenue for product sellers and leads for service providers |
| `Benchmarks.RangesOrdered` | frontend/lib/tools/pinterestPotential/benchmarks.ts:60-540 | every audience, income and opportunity range of the table is positive with its low end below its high end |
| `Benchmarks.OtherRowsExist` | frontend/lib/tools/pinterestPotential/benchmarks.ts:210-528 | each segment has an `other` row, so that fallback niche never fails |
| `Benchmarks.FoodRowIsCreators` | frontend/lib/tools/pinterestPotential/benchmarks.ts:548-555 | `food` is found for content creators and is an error for product sellers |
| `AudiencePreview.AudiencePreviewFromRange` | frontend/lib/tools/pinterestPotential/audiencePreview.ts:15-23 | Broad exactly from a high end of 20,000,000, Medium exactly from 10,000,000 below that, Focused exactly below 10,000,000 |
| `AudiencePreview.TierMonotone` | frontend/lib/tools/pinterestPotential/audiencePreview.ts:16-22 | only the high end counts, and a larger high end never gives a smaller tier |
| `AudiencePreview.GetAudiencePreviewLevel` | frontend/lib/tools/pinterestPotential/audiencePreview.ts:25-28 | a tier exactly when the benchmark row exists, otherwise the lookup's own error |
| `AudiencePreview.LevelIsRowTier` | frontend/lib/tools/pinterestPotential/audiencePreview.ts:25-28 | the tier is that of the audience range of the row for the same segment and niche |
| `AudiencePreview.TierExamples` | frontend/lib/tools/pinterestPotential/audiencePreview.ts:20-22 | a 35,000,000 high end is Broad, 7,000,000 Focused, exactly 10,000,000 Medium |
| `Insight.PhrasesDistinct` | frontend/lib/tools/pinterestPotential/insight.ts:22-44 | each phrase and action helper words each level differently |
| `Insight.SkipSpaces` | frontend/lib/tools/pinterestPotential/insight.ts:63 | the result is no longer than the input and does not start with whitespace; it is empty only for all-whitespace input |
| `Insight.CollapseSpaces` | frontend/lib/tools/pinterestPotential/insight.ts:63 | only the empty text collapses to the empty text, and a leading non-space character is kept |
| `Insight.CollapseAfterWord` | frontend/lib/tools/pinterestPotential/insight.ts:63 | a word without whitespace in front of a text is kept as it is |
| `Insight.BuildInsightLine` | frontend/lib/tools/pinterestPotential/insight.ts:50-74 | a line exactly when the benchmark row exists, otherwise the lookup's own error |
| `Insight.LineForRow` | frontend/lib/tools/pinterestPotential/insight.ts:59-73 | whatever the row and the levels, the line starts with `Insight:` |
| `Insight.TrimKeepsPrefix` | frontend/lib/tools/pinterestPotential/insight.ts:63 | trimming keeps the text up to any later non-whitespace character |
| `Insight.CollapseLeadingSpace` | frontend/lib/tools/pinterestPotential/insight.ts:63 | a space in front of a text collapses with the whitespace run that follows it |
| `Insight.WordThenSpaceKept` | frontend/lib/tools/pinterestPotential/insight.ts:63 | collapsing and trimming keep a leading word, and the single space after it when more text follows |
| `Insight.StitchStartsWithInsight` | frontend/lib/tools/pinterestPotential/insight.ts:63 | the stitched line starts with `Insight:`, and with `Insight: ` whenever a note has text |
| `Insight.InsightPrefix` | frontend/lib/tools/pinterestPotential/insight.ts:50-74 | every line returned for a known row starts with `Insight:` |
| `Insight.TemplateIgnoresNotes` | frontend/lib/tools/pinterestPotential/insight.ts:66-73 | unless both indices are high the row's notes are ignored, so any two known rows give the same line |
| `Insight.HighHighUsesNotes` | frontend/lib/tools/pinterestPotential/insight.ts:55-64 | with both indices high the row's own notes are stitched, each default sentence standing in only for the note the row lacks; all four combinations of present and absent notes are stated |
| `Insight.BuildInsightFromBenchmark` | frontend/lib/tools/pinterestPotential/insight.ts:80-88 | a line exactly when the row exists, and it is the line for the row's own seasonality and competition |
| `NicheUiAdapter.TiersAgree` | frontend/lib/tools/pinterestPotential/nicheUiAdapter.ts:53-66 | the adapter's own tier functions give the same tiers as the audience preview module's |
| `NicheUiAdapter.GetNicheIconKey` | frontend/lib/tools/pinterestPotential/nicheUiAdapter.ts:141-184 | `other` is Shapes and `wellness` HeartPulse in every segment; `finance` is Calculator exactly for service providers and PiggyBank otherwise |
| `NicheUiAdapter.IconKeyRules` | frontend/lib/tools/pinterestPotential/nicheUiAdapter.ts:141-184 | any niche other than `other`, `wellness` and `finance` takes its segment's entry, Sparkles when it has none |
| `NicheUiAdapter.UiOption` | frontend/lib/tools/pinterestPotential/nicheUiAdapter.ts:190-199 | an option is enriched exactly when its benchmark row exists, keeping its id and label, with its metadata when there is some, its icon key and its row's audience tier; otherwise the lookup's error |
| `NicheUiAdapter.FirstMissing` | frontend/lib/tools/pinterestPotential/nicheUiAdapter.ts:190-200 | the index of the first option without a benchmark row, none exactly when every option has one |
| `NicheUiAdapter.FirstFailure` | frontend/lib/tools/pinterestPotential/nicheUiAdapter.ts:190-200 | every element before the index maps successfully and the element at it, if any, fails |
| `NicheUiAdapter.MapOrFail` | frontend/lib/tools/pinterestPotential/nicheUiAdapter.ts:190-200 | a `map` whose callback may throw succeeds exactly when no element fails, with one result per element in order, and otherwise gives the first failing element's error |
| `NicheUiAdapter.GetNicheUiOptions` | frontend/lib/tools/pinterestPotential/nicheUiAdapter.ts:186-201 | the spec's options enriched one for one in the spec's order, or the error of the first option without a row |
| `NicheUiAdapter.WithoutOther` | frontend/lib/tools/pinterestPotential/nicheUiAdapter.ts:209 | the filter keeps, in order, exactly the options whose value is not `other` |
| `NicheUiAdapter.PrimarySpec` | frontend/lib/tools/pinterestPotential/nicheUiAdapter.ts:208-210 | the filtered slice holds at most six options, none `other`, in the given order, and leaves a non-`other` option out only when six were taken |
| `NicheUiAdapter.PrimaryOptionsSpec` | frontend/lib/tools/pinterestPotential/nicheUiAdapter.ts:207-211 | at most six options, none `other`, in the adapter's order; a non-`other` option is left out only when six were already taken |
| `NicheUiAdapter.GetPrimaryNicheUiOptions` | frontend/lib/tools/pinterestPotential/nicheUiAdapter.ts:207-211 | succeeds exactly when the segment's options resolve, passing their error on otherwise; at most six options, none `other` |
| `NicheUiAdapter.PrepareIsPrepared` | frontend/lib/tools/pinterestPotential/nicheUiAdapter.ts:240 | each candidate text is trimmed before it is offered |
| `NicheUiAdapter.AppendFresh` | frontend/lib/tools/pinterestPotential/nicheUiAdapter.ts:239-246 | adding a clean suggestion with a new lower-cased key keeps the list free of blanks and case-insensitive duplicates, and adds its key to the seen set |
| `NicheUiAdapter.RunSpec` | frontend/lib/tools/pinterestPotential/nicheUiAdapter.ts:236-264 | the scan keeps the list well formed with `seen` exactly its lower-cased labels, stops exactly when the list reaches the limit, adds at most one suggestion per text and never exceeds a positive limit |
| `NicheUiAdapter.RunOrigins` | frontend/lib/tools/pinterestPotential/nicheUiAdapter.ts:239-246 | every suggestion is one of the offered texts, with that text's niche |
| `NicheUiAdapter.GetNicheSearchSuggestions` | frontend/lib/tools/pinterestPotential/nicheUiAdapter.ts:233-267 | the two loops return the option lookup's error, or exactly the suggestions the scan over keywords then labels defines |
| `NicheUiAdapter.KeywordPhase` | frontend/lib/tools/pinterestPotential/nicheUiAdapter.ts:249-257 | the keyword loop ends in the state the scan over every non-`other` option's keywords reaches, `stopped` being the early return |
| `NicheUiAdapter.LabelPhase` | frontend/lib/tools/pinterestPotential/nicheUiAdapter.ts:260-266 | the label loop, started where the keyword loop left off, ends with exactly the defined suggestions |
| `NicheUiAdapter.HarvestKeywords` | frontend/lib/tools/pinterestPotential/nicheUiAdapter.ts:252-256 | one option's keyword loop advances the scan by exactly that option's keywords |
| `NicheUiAdapter.AddTo` | frontend/lib/tools/pinterestPotential/nicheUiAdapter.ts:239-255 | `add` followed by the limit test is one step of the scan |
| `NicheUiAdapter.RunAppendDone` | frontend/lib/tools/pinterestPotential/nicheUiAdapter.ts:255-263 | once the limit stops the scan, later texts change nothing |
| `NicheUiAdapter.RunAppendGrows` | frontend/lib/tools/pinterestPotential/nicheUiAdapter.ts:239-246 | later texts only ever append to the list |
| `NicheUiAdapter.KeywordsOfOptions` | frontend/lib/tools/pinterestPotential/nicheUiAdapter.ts:249-254 | every keyword text is trimmed and names the niche of an option that is not `other` |
| `NicheUiAdapter.LabelsOfOptions` | frontend/lib/tools/pinterestPotential/nicheUiAdapter.ts:260-262 | every label text is trimmed and names the niche of an option that is not `other` |
| `NicheUiAdapter.SuggestionsSpec` | frontend/lib/tools/pinterestPotential/nicheUiAdapter.ts:233-267 | the suggestions are trimmed, non-empty and distinct ignoring case, each query equals its label, each names a non-`other` option's niche, and a positive limit bounds their number |
| `NicheUiAdapter.KeywordsFirst` | frontend/lib/tools/pinterestPotential/nicheUiAdapter.ts:248-264 | the keyword suggestions are a prefix of the result, and labels are used only when the keywords left the list short of the limit |
| `NicheUiAdapter.SearchPlaceholder` | frontend/lib/tools/pinterestPotential/nicheUiAdapter.ts:272-276 | the placeholder is `Search…` exactly when there is nothing to suggest, and otherwise starts with `Try: ` |
| `NicheUiAdapter.GetNicheSearchPlaceholder` | frontend/lib/tools/pinterestPotential/nicheUiAdapter.ts:272-276 | a segment whose options resolve gets `Search…` or a `Try: ` line; otherwise the options' error is passed on |
| `NicheUiAdapter.CreatorNichesHaveMeta` | frontend/lib/tools/pinterestPotential/nicheUiAdapter.ts:99-110 | every content-creator niche of the benchmark table has metadata |
| `NicheUiAdapter.SellerNichesHaveMeta` | frontend/lib/tools/pinterestPotential/nicheUiAdapter.ts:111-122 | every product-seller niche of the benchmark table has metadata |
| `NicheUiAdapter.ProviderNichesHaveMeta` | frontend/lib/tools/pinterestPotential/nicheUiAdapter.ts:123-134 | every service-provider niche of the benchmark table has metadata |
| `CheckboxGrid.KeyOf` | frontend/components/ui/forms/CheckboxCardGrid.tsx:40-41 | an option's key is its id when it has one, else its value |
| `CheckboxGrid.Emit` | frontend/components/ui/forms/CheckboxCardGrid.tsx:49 | only option keys in the set are emitted, and every option key in the set is |
| `CheckboxGrid.Toggle` | frontend/components/ui/forms/CheckboxCardGrid.tsx:43-51 | the emitted list is the option keys, in the options' order, that lie in the selection with the key flipped |
| `CheckboxGrid.EmitInOptionOrder` | frontend/components/ui/forms/CheckboxCardGrid.tsx:48-49 | the emitted keys are a subsequence of the option keys |
| `CheckboxGrid.EmitOnlyOptionKeys` | frontend/components/ui/forms/CheckboxCardGrid.tsx:49 | selections that agree on the option keys emit the same list |
| `CheckboxGrid.ToggleSpec` | frontend/components/ui/forms/CheckboxCardGrid.tsx:43-51 | after a toggle the key is selected exactly when it was not, every other option key keeps its membership, only option keys are emitted, in order |
| `CheckboxGrid.DoubleToggle` | frontend/components/ui/forms/CheckboxCardGrid.tsx:43-51 | toggling the same key twice gives back the selection in the options' order, without keys no option has |
| `Wizard.ShallowEqualAnswers` | frontend/components/tools/pinterestPotential/PinterestPotentialWizard.tsx:182-191 | the key-count test and the loop over the first map's keys decide exactly the shallow-equality predicate |
| `Wizard.ShallowEqualIsEquality` | frontend/components/tools/pinterestPotential/PinterestPotentialWizard.tsx:182-191 | with no explicit `undefined` on either side, two answer sets compare equal exactly when they are equal |
| `Wizard.ShallowEqualUndefinedKeys` | frontend/components/tools/pinterestPotential/PinterestPotentialWizard.tsx:184-189 | `{niche: undefined}` and `{primary_goal: undefined}` compare equal although they differ |
| `Wizard.PatchIsNoop` | frontend/components/tools/pinterestPotential/PinterestPotentialWizard.tsx:193-199 | the loop over the patch's keys decides exactly whether every patched property reads as it does in the base |
| `Wizard.NoopPatchSpec` | frontend/components/tools/pinterestPotential/PinterestPotentialWizard.tsx:193-199 | a patch is a no-op exactly when spreading it over the base changes no property read; the empty patch is one |
| `Wizard.ApplySegmentInvalidation` | frontend/components/tools/pinterestPotential/PinterestPotentialWizard.tsx:201-210 | a change between two set segments drops exactly niche and primary goal and keeps every other property; otherwise the next answers are returned unchanged; the segment is never touched |
| `Wizard.FirstTruthy` | frontend/components/tools/pinterestPotential/PinterestPotentialWizard.tsx:179 | the index of the first key with a non-empty error, none exactly when there is no such key |
| `Wizard.KeysByStep` | frontend/components/tools/pinterestPotential/PinterestPotentialWizard.tsx:168-178 | steps 1 to 8 list their own question first; any other step lists no key |
| `Wizard.GetErrorKeyForStep` | frontend/components/tools/pinterestPotential/PinterestPotentialWizard.tsx:167-180 | the key shown is one of the step's own keys and carries a field or a results error |
| `Wizard.ErrorKeySpec` | frontend/components/tools/pinterestPotential/PinterestPotentialWizard.tsx:167-180 | a field error is preferred to a results error; nothing is shown exactly when none of the step's keys has either |
| `Wizard.ValidateStep` | frontend/components/tools/pinterestPotential/PinterestPotentialWizard.tsx:420-462 | every error is a non-empty message under one of the keys the step displays |
| `Wizard.ValidateStepSpec` | frontend/components/tools/pinterestPotential/PinterestPotentialWizard.tsx:420-462 | a step has no error exactly when it is complete; on steps 2 and 7 Q1 is flagged exactly when the segment is not a known one |
| `Wizard.ValidationErrorShown` | frontend/components/tools/pinterestPotential/PinterestPotentialWizard.tsx:420-462 | a failing step always has one of its own errors to show |
| `Wizard.BuildSpecAnswers` | frontend/components/tools/pinterestPotential/PinterestPotentialWizard.tsx:473-492 | Q2 and Q7 are passed on exactly when they are options of the segment; every other answer is copied |
| `Wizard.ValidatedAnswersSurvive` | frontend/components/tools/pinterestPotential/PinterestPotentialWizard.tsx:420-492 | answers that pass steps 2 and 7 reach the results with niche and goal intact |
| `Wizard.JumpTarget` | frontend/components/tools/pinterestPotential/PinterestPotentialWizard.tsx:502-506 | the wizard stays on its step or jumps to one of the eight questions |
| `Wizard.JumpTargetSpec` | frontend/components/tools/pinterestPotential/PinterestPotentialWizard.tsx:502-506 | the step of the first question whose error is non-empty, or the current step when no question is in error |
| `Wizard.Wizard.constructor` | frontend/components/tools/pinterestPotential/PinterestPotentialWizard.tsx:258-294 | the step is the draft's when it lies in 1 to 8, else 1; answers come from the draft; no errors or results |
| `Wizard.Wizard.ComputeAndShowResults` | frontend/components/tools/pinterestPotential/PinterestPotentialWizard.tsx:494-528 | a failed validation or computation shows its errors in both maps and jumps to the first question in error; success clears the results errors and stores the results; the answers are untouched |
| `Wizard.Wizard.ShowErrors` | frontend/components/tools/pinterestPotential/PinterestPotentialWizard.tsx:498-507 | a failure's errors go into both error maps and the step jumps to the first question in error, the answers and results untouched |
| `Wizard.Wizard.GoNext` | frontend/components/tools/pinterestPotential/PinterestPotentialWizard.tsx:537-564 | a failing step shows its errors and nothing else changes; otherwise changed answers are committed and the tool marked started; step 8 computes results from the answers held before the call; any other step advances by one |
| `Wizard.Wizard.GoPrev` | frontend/components/tools/pinterestPotential/PinterestPotentialWizard.tsx:602-615 | errors are cleared; the unstarted welcome variant stays; the welcome variant at step 1 returns to the welcome screen; otherwise the step goes down by one, never below 1 |
| `Wizard.LockGatesSpec` | frontend/components/tools/pinterestPotential/PinterestPotentialWizard.tsx:680-686 | the hard gate shows exactly for a new lead under the hard lock who has not submitted and is not known; the soft gate exactly for a new lead under the soft lock; never both, never for a known lead |
| `Slider.Clamp` | frontend/components/ui/forms/SliderWithTicks.tsx:32 | for an ordered range the value lies in [min, max], and is round(v) whenever that lies inside |
| `Slider.ClampSpec` | frontend/components/ui/forms/SliderWithTicks.tsx:32 | the clamp agrees with the answer spec's slider clamp; on integer bounds clamping twice is clamping once |
| `Slider.OnInput` | frontend/components/ui/forms/SliderWithTicks.tsx:33-36 | the value passed to `onChange` is the clamped input, inside [min, max] for an ordered range |
| `Slider.BuildTicks` | frontend/components/ui/forms/SliderWithTicks.tsx:38-39 | the loop yields no tick for min > max, and for a positive step exactly min, min + step, … up to max |
| `Slider.TickCountBounds` | frontend/components/ui/forms/SliderWithTicks.tsx:38-39 | the last tick is at most max and one more step passes it |
| `Slider.FitsBelowCount` | frontend/components/ui/forms/SliderWithTicks.tsx:38-39 | a multiple of the step that still fits below max comes before the loop ends |
| `Slider.PastMaxIsCount` | frontend/components/ui/forms/SliderWithTicks.tsx:38-39 | the first multiple of the step past max is where the loop ends |
| `Slider.TicksEnds` | frontend/components/ui/forms/SliderWithTicks.tsx:38-39 | for an ordered range the ticks start at min and the step after the last one passes max |
| `Slider.TicksBelowMax` | frontend/components/ui/forms/SliderWithTicks.tsx:38-39 | every tick is at most max |
| `Slider.TicksStep` | frontend/components/ui/forms/SliderWithTicks.tsx:38-39 | each tick is the previous one plus the step |
| `Slider.TicksRise` | frontend/components/ui/forms/SliderWithTicks.tsx:38-39 | the ticks rise strictly |
| `Slider.TickLoopNeverEnds` | frontend/components/ui/forms/SliderWithTicks.tsx:38-39 | with a step of zero or less and min <= max, every pass of the loop leaves the counter at most max, so the loop never stops |
| `Slider.Described` | frontend/components/ui/forms/SliderWithTicks.tsx:41 | no description exactly when neither id is given or both are empty; one id alone is the description; two are joined by one space, the field's own id first |
| `ProgressBar.SafeTotal` | frontend/components/ui/ProgressBar.tsx:14 | the total is at least 1, the given one when that is at least 1 |
| `ProgressBar.SafeStep` | frontend/components/ui/ProgressBar.tsx:15 | the step lies in [1, total], is the given one when that lies inside, 1 below and the total above |
| `ProgressBar.Caption` | frontend/components/ui/ProgressBar.tsx:30 | an override caption is shown as it is |
| `ProgressBar.Percent` | frontend/components/ui/ProgressBar.tsx:16 | the percentage lies in [0, 100] and is 100 once the step reaches the total |
| `ProgressBar.PercentMonotone` | frontend/components/ui/ProgressBar.tsx:14-16 | a later step never shows a smaller percentage of the same total |
| `ProgressBar.CaptionSpec` | frontend/components/ui/ProgressBar.tsx:14-30 | without an override the caption is `Step s of t` for an in-range step and `Step 1 of t` for a step below 1 |
| `PotentialDraft.IsObjectSpec` | frontend/components/tools/pinterestPotential/usePinterestPotentialDraft.ts:15-17 | the object test accepts objects and arrays and refuses null and absent values |
| `PotentialDraft.DraftShapeSpec` | frontend/components/tools/pinterestPotential/usePinterestPotentialDraft.ts:19-28 | a draft shape is an object with a numeric step in [0, 11), an object for answers and an absent or object lead draft; an array never passes |
| `PotentialDraft.Merge` | frontend/components/tools/pinterestPotential/usePinterestPotentialDraft.ts:43-63 | the keys are the union; every patched key takes the patch's value, every other key keeps its own |
| `PotentialDraft.MergeIdempotent` | frontend/components/tools/pinterestPotential/usePinterestPotentialDraft.ts:63 | spreading the same patch twice is spreading it once |
| `PotentialDraft.DraftHook.constructor` | frontend/components/tools/pinterestPotential/usePinterestPotentialDraft.ts:31-33 | the hook starts from the initial draft, with storage as it is and nothing loaded |
| `PotentialDraft.DraftHook.Load` | frontend/components/tools/pinterestPotential/usePinterestPotentialDraft.ts:35-53 | it runs once; no stored string or an empty one changes nothing; a stored draft of the right shape is merged over the draft; anything else is removed from storage and the draft kept |
| `PotentialDraft.DraftHook.Persist` | frontend/components/tools/pinterestPotential/usePinterestPotentialDraft.ts:56-60 | storage holds the serialised draft and the draft is unchanged |
| `PotentialDraft.DraftHook.Mount` | frontend/components/tools/pinterestPotential/usePinterestPotentialDraft.ts:35-60 | after mounting, storage holds exactly the draft the hook shows, which is the stored draft merged in when it had the right shape, else the initial one |
| `PotentialDraft.DraftHook.UpdateDraft` | frontend/components/tools/pinterestPotential/usePinterestPotentialDraft.ts:56-64 | the patch is spread over the draft and the new draft is stored |
| `PotentialDraft.DraftHook.ClearDraft` | frontend/components/tools/pinterestPotential/usePinterestPotentialDraft.ts:66-70 | storage is emptied and the in-memory draft stays |
| `ExperimentConfig.EqualSplit` | frontend/lib/experiments/config.ts:39-49 | the weight map has exactly the variants as keys; an empty list gives the empty map |
| `ExperimentConfig.EqualSplitWeights` | frontend/lib/experiments/config.ts:42-48 | the loop fills exactly the equal-split map, and every weight times the number of variants is 1 |
| `ExperimentConfig.WeightsOf` | frontend/lib/growthbook/experiments.ts:73 | one weight per variant, in order: the configured one, or 0 when absent |
| `ExperimentConfig.SumOfConstant` | frontend/lib/experiments/config.ts:43-47 | n equal weights add up to n times the weight |
| `ExperimentConfig.EqualSplitSumsToOne` | frontend/lib/experiments/config.ts:39-49 | the equal-split weights of a non-empty variant list, read back over that list, add up to exactly 1 |
| `ExperimentConfig.GetExperimentDefinitionByKey` | frontend/lib/experiments/config.ts:74-87 | a definition exactly for a registered key, carrying that key; otherwise the error "Unknown experiment key: key" |
| `ExperimentConfig.PinterestExperimentSpec` | frontend/lib/experiments/config.ts:55-76 | the Pinterest experiment is registered under its key with the page's two variants, the page's default among them, and weights adding up to 1 |
| `GrowthBookExperiments.ResolveBoolean` | frontend/lib/growthbook/experiments.ts:98-111 | anything that is not an object resolves to false |
| `GrowthBookExperiments.ResolveBooleanPrecedence` | frontend/lib/growthbook/experiments.ts:101-110 | the first boolean among `on`, `enabled` and `value` decides; otherwise the truthiness of `value` |
| `GrowthBookExperiments.ResolveBooleanArray` | frontend/lib/growthbook/experiments.ts:98-111 | an array passes the object test but has none of the three properties, so it resolves to false |
| `GrowthBookExperiments.GrowthBookDecision` | frontend/lib/growthbook/experiments.ts:37-62 | an answer from GrowthBook is a listed variant or the default, and one with source `growthbook` is always a listed variant |
| `GrowthBookExperiments.WeightedPick` | frontend/lib/growthbook/experiments.ts:80-92 | the loop picks the first variant whose running total reaches the point, else the last variant |
| `GrowthBookExperiments.RunServerExperiment` | frontend/lib/growthbook/experiments.ts:33-96 | GrowthBook's answer when it gives one, otherwise the local draw with source `fallback` |
| `GrowthBookExperiments.FallbackDraw` | frontend/lib/growthbook/experiments.ts:71-95 | the draw is uniform when the weights' total is not positive, else the cumulative pick over the weights |
| `GrowthBookExperiments.UniformChoice` | frontend/lib/growthbook/experiments.ts:78 | for a non-empty list the uniform draw is one of the variants |
| `GrowthBookExperiments.FirstReachingUnique` | frontend/lib/growthbook/experiments.ts:84-90 | the first index whose running total reaches the point is unique |
| `GrowthBookExperiments.PickIsChoice` | frontend/lib/growthbook/experiments.ts:80-92 | the loop's pick is the variant the cumulative rule names |
| `GrowthBookExperiments.NoClientKeyFallsBack` | frontend/lib/growthbook/experiments.ts:38 | without a client key, or with an empty one, GrowthBook is not asked |
| `GrowthBookExperiments.DisabledReturnsDefault` | frontend/lib/growthbook/experiments.ts:46-53 | an enable flag resolving to false gives the default variant with source `fallback` and no draw |
| `GrowthBookExperiments.GrowthBookValueWins` | frontend/lib/growthbook/experiments.ts:55-61 | with the experiment enabled, a string value naming a variant is returned with source `growthbook` |
| `GrowthBookExperiments.UnmatchedValueFallsThrough` | frontend/lib/growthbook/experiments.ts:56-62 | a value naming no variant, or the empty string even when listed, falls through to the local draw |
| `GrowthBookExperiments.FallbackIsVariant` | frontend/lib/growthbook/experiments.ts:71-95 | whenever there are variants, the fallback draw names one of them |
| `GrowthBookExperiments.NoWeightsIsUniform` | frontend/lib/growthbook/experiments.ts:73-78 | without weights every variant weighs 0, so the draw is uniform |
| `GrowthBookExperiments.RunningMonotone` | frontend/lib/growthbook/experiments.ts:84-86 | with weights that are not negative the running total never decreases |
| `GrowthBookExperiments.PickInterval` | frontend/lib/growthbook/experiments.ts:80-90 | with weights that are not negative, variant i is drawn exactly for points above the previous running total up to its own |
| `GrowthBookExperiments.PinterestFallbackHalves` | frontend/lib/growthbook/experiments.ts:71-95 | the Pinterest experiment's local draw gives `welcome` for draws up to one half and `no_welcome` above |
| `Strings.TrimIdempotent` | backend/utils.py:10 | stripping twice is stripping once |
| `Strings.TrimFixed` | backend/utils.py:10 | a text with no whitespace at either end is its own strip |
| `Strings.TrimEmptyIff` | backend/utils.py:53 | the stripped text is empty exactly when the input is all whitespace |
| `Strings.TrimPadded` | backend/utils.py:10 | whitespace padding around a text with no whitespace at its ends is exactly what stripping removes |
| `Strings.LowerIdempotent` | frontend/app/tools/pinterest-potential/page.tsx:40 | lower-casing twice is lower-casing once |
| `Strings.LowerTrim` | backend/scripts/db/manage_users.py:16 | lower-casing commutes with stripping |
| `Strings.RemoveAll` | backend/utils.py:53 | no comma remains, the result is no longer than the input, and a text without commas is unchanged |
| `Strings.JoinSplit` | backend/scripts/db/manage_users.py:16 | joining the pieces of a split with the separator gives the text back |
| `Strings.SplitJoin` | backend/scripts/db/manage_users.py:16 | splitting a join gives the pieces back when no piece holds the separator |
| `Strings.NatToStringRoundTrip` | frontend/components/ui/ProgressBar.tsx:30 | reading back a rendered number gives the number |

## Left out

- Password hashing (PBKDF2 through passlib) and JWT signing and verification (python-jose) are library code. They are parameters, and the lemmas that need them assume only the predicates `SoundHasher` (a password verifies against its own hash and no other) and `SoundCodec` (decoding a token signed with the same secret gives its claims back; any other secret is refused).
- `config.require_jwt_secret`, `JWT_ALGORITHM` and `JWT_ACCESS_TOKEN_EXPIRE_MINUTES` are not defined in backend/config.py. The secret check is modelled like the file's other required setting: unset or empty is a configuration error. The lifetime is a field of the configuration.
- `get_current_admin_user`, which backend/routers/stats.py imports, is not defined in backend/security.py. The upload is modelled from the point where the request is admitted.
- SQLAlchemy sessions, FastAPI routing and dependency injection, CORS and migrations are not modelled. Tables are sequences. A session is a committed sequence and a staged one. A database-side unique index is not modelled; uniqueness is what the code checks.
- `csv.DictReader` dialect parsing (quoting, delimiters) is not modelled. The records come from rows of cells: the first row is the header, blank rows are skipped, and short rows give `None` values.
- Printed messages and exit codes of the two user-management scripts are not modelled. The models return what happened; the table contents are stated exactly.
- `Stats.UploadCsv`: an exception other than `ValueError` or `KeyError` (a `None` cell) is modelled as an outcome that leaves the staged rows for the session to discard. FastAPI's 500 response is not modelled.
- JavaScript numbers are exact reals, or integers where the source only ever holds whole numbers. Floating-point rounding and infinities are not modelled. `NaN` appears only where an answer array of two or more ids is compared with a number (`AnswerSpec.AsJsNumber` gives no number, and both comparisons are false). `Math.round(x)` is `floor(x + 1/2)`.
- `GrowthBookExperiments.FallbackDraw`: the `!Number.isFinite(total)` test never fires, because reals are finite.
- `GrowthBookExperiments.GrowthBookDecision`: how `String(value)` renders numbers and objects is the `render` parameter.
- `Slider.BuildTicks` requires a positive step or an empty range. With any other step the source loop never ends, which `Slider.TickLoopNeverEnds` states; the component's callers are not part of this model, so whether one passes such a step is not decided here. The ticks are exact multiples of the step, without the rounding drift of repeated floating-point addition.
- `ProgressBar.SafeStep`: the step and total are integers, so fractional props are not modelled.
- `ProgressBar.Caption`: the text is stated for a missing override in `ProgressBar.CaptionSpec`.
- The ProgressBar's and Slider's markup and styling are not modelled. Neither is the wizard's rendering.
- `Wizard.Wizard.constructor`: the stored `stepIndex` is an integer, so a fractional stored step such as 2.5, which the range test would accept, is not modelled. Answers are strings.
- `Wizard.Wizard.GoNext` models one call on the state the call starts from. The auto-advance timer, its sequence guard, the hydration gate and the refs that mirror state between renders are not modelled.
- `shallowEqualAnswers`'s `a === b` shortcut is covered by the value comparison: identical objects compare equal either way.
- These wizard effects are not modelled: variant resolution from the cookie, the known-lead and lead-token lookups, and the optional email-results form. They are React effects or network calls.
- `Wizard.Wizard.ComputeAndShowResults`: `onPhaseChangeAction` (analytics) is left out.
- `PotentialDraft.DraftHook.UpdateDraft`: a patch is a map of present keys, so a patch that sets a key to an explicit `undefined` is not modelled.
- `PotentialDraft.DraftHook.Load`: failing `sessionStorage` calls (quota, privacy mode) are not modelled. `JSON.parse` throwing is the parse function returning `None`.
- `NicheUiAdapter.SearchPlaceholder` states the `Try: ` prefix and the empty case. The joined labels are the body's own expression.
- `NicheUiAdapter.AudiencePreviewFromRange`'s badge texts (`AUDIENCE_PREVIEW_META`) and `getSegmentHint` are display copy and are not modelled.
- The segment option lists (`getNicheOptions`, `getPrimaryGoalOptions`) and the lead-gating context used by the wizard and the niche adapter are parameters. The spec and leadMode files do not define them.
- `Strings.Lower` folds the ASCII capitals and the Kelvin sign (which lowers to `k`) only. Python's `str.lower` and JavaScript's `toLowerCase` also fold every other cased letter, and lower the dotted capital I to two characters; the model does not.
- `Utils.StrptimeIso` follows `strptime`'s leniency: one-digit and space-padded months and days are accepted. That branch therefore accepts more than strict `YYYY-MM-DD`.
- `Utils.StrptimeIso` accepts the ASCII digits `0`-`9` only. The `%Y`, `%m` and `%d` directives of `strptime` also match other Unicode decimal digits (Arabic-Indic, full-width), so such a date is a parse error in the model but not in the source.
- `Utils.RangeMatch` accepts ASCII digits only, where the pattern's `\d` also matches other Unicode decimal digits.
- `Utils.PyInt` reads ASCII digits only, where Python's `int()` also reads other Unicode decimal digits, such as `"١٢٣"`.
- `Utils.ParseIntField` therefore refuses a cell of non-ASCII decimal digits with the invalid-integer error, which the source accepts.
- `Utils.ParseCalendarMonth` therefore reports the unrecognised-format error for dates written in non-ASCII decimal digits, which the source accepts.
- `Stats.UploadCsv`: a file that is not valid UTF-8 makes `content.decode("utf-8-sig")` raise outside the `try`, which FastAPI turns into a 500. Decoding is not modelled; the rows are given already decoded, and the byte-order mark is assumed stripped.
- `ExperimentConfig.GetExperimentDefinitionByKey` models only the registry's own keys. The source indexes a plain object literal, so an inherited `Object.prototype` name such as `toString` or `constructor` is found, is truthy and is returned without the "Unknown experiment key" error; the model returns that error for it.
- `Utils.MakeDate` reports every year outside 1…9999 as `YearOutOfRange`. Python's `date()` raises `OverflowError`, not `ValueError`, for a year outside the C `int` range (such as 2^31).
- `Utils.ParseCalendarMonth` therefore turns a `default_calendar_year` of 2^31 or more (or -2^31 or less) into the year-out-of-range error. The source's `OverflowError` escapes the upload's `except (ValueError, KeyError)` and the request ends in a 500, not the 400 the model gives.
- `LoginRoute.Post` takes the backend as a function that always replies. A rejected `fetch` (network failure) throws in the route and Next.js answers 500; that path is not modelled.
- `LoginRoute.RedirectTarget` follows the code. A protocol-relative target such as `//host` is passed on; `LoginRoute.ProtocolRelativeTargetAccepted` records it.
- Rendering of the calculator's results (`compute.ts`, multipliers and average cart size) is floating-point arithmetic and is not part of this model.

## Findings

| source | as written | input that shows it | evidently intended | confidence | as-written member | corrected member |
|---|---|---|---|---|---|---|
| frontend/app/tools/pinterest-potential/page.tsx:15-30 | `VARIANT_COMPONENTS` is keyed `v1`/`v2`, but the resolver only returns `welcome` or `no_welcome`, so `VARIANT_COMPONENTS[variant]` is `undefined`; rendering `<VariantComponent />` with an undefined element type makes React throw ("Element type is invalid"), so the request ends in an error page | any request, e.g. no `?variant=` parameter (resolves to `welcome`) | the map keyed by the current variant names, `welcome` → V1 and `no_welcome` → V2, as the newer flow page under frontend/app/(flow)/ registers it | high, not executed | `VariantPage.NoComponentForResolvedVariant` | `VariantPage.IntendedPageComponent` |
