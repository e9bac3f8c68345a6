# Personal notepad hub: admin console model

This project models the admin console of the personal notepad hub in Dafny. The hub is a
site where users keep notes as pages. The console is made of three layers:

- **The PHP back end.** `api/includes/auth.php` issues and checks HS256 JSON Web Tokens.
  `api/auth.php` handles login and token checks. `api/users.php` lists and creates users
  behind an admin gate. `api/settings.php` handles the system settings. `api/project-settings.php`
  creates the tables, seeds the default settings and creates the first administrator.
- **The TypeScript services.** These wrap the endpoints. Each asks `FallbackService` whether the
  API answers and hands out demo data when it does not: users, pages, settings and dashboard.
- **The React layer.** The `useApi`/`useMutation` hooks, the two contexts (the session and the
  in-memory admin store), and the admin screens: sign-in, profile, notifications, role limits,
  limits and features, API keys, appearance, content and user lists, and communications.

How the code is shaped in the model:

- **Database tables** are sequences of rows held by the `Backend.Database` class. Each endpoint
  is a method over it, whose contract gives the HTTP status, the JSON bodies echoed and the new
  tables.
- **Text comparison in the tables** follows their `utf8mb4_unicode_ci` collation
  (`api/project-settings.php:76-128`). The `UNIQUE` email and setting key, and the email
  lookup, compare texts by `Backend.CollationKey`: case folded and trailing spaces dropped
  (`Backend.SameText`). A stored row keeps its own spelling.
- **Foreign primitives** are a record of functions, `TokenCodec.Primitives`. These are
  `hash_hmac`, `base64_encode`/`base64_decode` and `json_encode`/`json_decode`. The token
  theorems hold for every record that satisfies the laws in `TokenCodec.Lawful`.
- **JavaScript values** are the `Js.JsValue` datatype, with JavaScript truthiness, `||`,
  `parseInt`, `trim` and `toLowerCase`.
- **A promise** is an `Api.Outcome`: it resolves with a response or rejects.
- **Components** that keep `useState` cells become classes. The cells are fields, and the
  handlers are methods with `modifies this`. The toasts shown are a sequence field.
- **Pure derivations** become functions with lemmas. These are the filters, masks, badges and
  guards.

## Model

| member | source | states |
|---|---|---|
| TokenCodec.GeneratedTokenShape | api/includes/auth.php:5-22 | a generated token explodes on `.` into exactly three pieces, each in the base64url alphabet |
| TokenCodec.TokenCharacters | api/includes/auth.php:5-22 | every character of a generated token is a base64url character or a dot |
| TokenCodec.PayloadRoundTrip | api/includes/auth.php:41 | decoding the URL-safe payload segment gives back the claims that were encoded |
| TokenCodec.GenerateThenVerify | api/includes/auth.php:5-48 | a token issued at `iat` verifies exactly while `now <= iat + 86400`, and then yields the issued user id, email, role, `iat` and `exp` |
| TokenCodec.WrongPieceCountRejected | api/includes/auth.php:25-28 | a token without exactly two dots is refused |
| TokenCodec.ForgedRejectedBeforeDecoding | api/includes/auth.php:34-39 | a token whose signature does not match is refused at any time, whatever the JSON decoder does |
| TokenCodec.AcceptedIsSigned | api/includes/auth.php:24-48 | any accepted token has three pieces and a matching HMAC-SHA256 signature |
| TokenCodec.ExpiryBoundary | api/includes/auth.php:43-45 | a well-signed token is refused iff `exp < now`, so it is still accepted at `exp == now` |
| TokenCodec.BearerOfToken | api/includes/auth.php:54 | the pattern `/Bearer\s+(.*)$/i` applied to `Bearer <t>` captures `t` when `t` is one line and does not start with a space |
| TokenCodec.NoHeaderNoUser | api/includes/auth.php:50-59 | without an `Authorization` header there is no authenticated user |
| TokenCodec.BearerRoundTrip | api/includes/auth.php:50-59 | a request bearing a freshly generated token authenticates as that token's user exactly until it expires |
| Backend.Action | api/auth.php:11 | the action is the body's `action` member, else the query's, else the empty string |
| Backend.AdminGate | api/users.php:11-14 | the gate passes iff a verified token names role `admin`, and then yields that token's claims |
| Backend.FindByEmail | api/auth.php:24-26 | finds a row whose email collates equal to the given one (case and trailing spaces ignored) when one exists, and finds none iff no row's email collates equal |
| Backend.SameTextSpec | api/project-settings.php:78-86 | under the tables' `utf8mb4_unicode_ci` collation, a lower-cased text and a text with a trailing space compare equal to the original, and equal texts have equally long unpadded forms |
| Backend.DropTrailingSpacesLower | api/project-settings.php:78-86 | stripping the pad spaces and folding case commute, so the collation key does not depend on their order |
| Backend.FindByEmailCollation | api/auth.php:24-26 | two emails that collate equal find the same row |
| Backend.Touch | api/auth.php:37-38 | sets `last_active` on the rows with the given id and leaves every other row as it was |
| Backend.PagesOf | api/users.php:74-76 | the reference definition of the `COUNT(p.id)`, never more than the number of pages; what it counts is stated by `Backend.PagesOfOwned` |
| Backend.PagesOfOwned | api/users.php:74-76 | a user's count is 0 iff no page belongs to them |
| Backend.Listing | api/users.php:66-86 | the reference definition of the listing, one row per user; what each row holds is stated by `Backend.ListingPagesCount` |
| Backend.ListingPagesCount | api/users.php:66-86 | each listed row carries its user's id; its page count is 0 iff the user owns no page, and never exceeds the number of pages |
| Backend.SettingsMapDomain | api/settings.php:52-56 | the key-to-value map `get_all` builds has exactly the stored spellings of the keys present in the table |
| Backend.SettingsMapValue | api/settings.php:52-56 | with unique keys, each row's value is what the map holds for its key |
| Backend.FoldedMapDomain | api/project-settings.php:109-116 | the table read through the `UNIQUE` collation has exactly the collation keys of the stored keys |
| Backend.FoldedMapValue | api/project-settings.php:109-116 | with keys unique under the collation, each row's value is what the table holds under its key's collation key |
| Backend.SettingsMapFolded | api/settings.php:52-56 | with keys unique under the collation, `get_all`'s map and the collated view hold the same values: each stored key's value sits under its collation key, and each collation key comes from a stored key with that value |
| Backend.KeyIndex | api/settings.php:74-79 | locates the row whose key collates equal to the given one, or reports that no row's key does |
| Backend.StoredKey | api/settings.php:74-79 | the spelling a key is stored under collates equal to it, and is the key itself when no row holds it |
| Backend.UpsertMap | api/settings.php:74-79 | `ON DUPLICATE KEY UPDATE` keeps keys unique under the collation and sets the value at exactly that collation key. An existing row keeps its stored spelling and position; a new key is appended as sent |
| Backend.InsertIgnoreSpec | api/project-settings.php:132-144 | `INSERT IGNORE` keeps the old rows as a prefix and adds only defaults whose key was missing. Afterwards every default key is present and keys are unique |
| Backend.InsertIgnoreAllPresent | api/project-settings.php:132-144 | when every default key is already present, `INSERT IGNORE` changes nothing |
| Backend.InsertIgnoreIdempotent | api/project-settings.php:132-144 | seeding the defaults twice is the same as seeding them once |
| Backend.Database.TouchLastActive | api/auth.php:37-38 | the users table becomes `Touch` of the old one; the other tables are unchanged |
| Backend.Database.InsertUser | api/users.php:45-48 | an email that collates equal to a stored one (`UNIQUE`) inserts nothing. Otherwise one active row is appended with the next `AUTO_INCREMENT` id |
| Backend.Database.UpsertSetting | api/settings.php:74-79 | the collated settings map becomes the old one with that key set to the value; `get_all`'s map changes at the key's stored spelling, and the stored keys keep their spelling |
| Backend.Database.InsertSettingsIgnore | api/project-settings.php:132-144 | the settings table becomes `INSERT IGNORE` of the defaults into the old table |
| Backend.Database.AllSettings | api/settings.php:52-56 | returns the key-to-value map of the settings table |
| AuthApi.CheckLogin | api/auth.php:17-34 | an admitted user has an email that collates equal to the given one, is active, and has a password that verifies against the salted hash. Any refusal carries one of the three login messages |
| AuthApi.LoginIgnoresEmailCase | api/auth.php:24-34 | two non-empty emails that collate equal get the same login answer |
| AuthApi.EmptyCredentialsRefusedFirst | api/auth.php:20-22 | an empty email or password is refused with the required-fields message before the table is read |
| AuthApi.UnknownEmailLikeWrongPassword | api/auth.php:28-30 | an unknown email and a wrong password get the same message |
| AuthApi.InactiveCannotLogin | api/auth.php:32-34 | a user whose status is not `active` is never admitted. With the right password, they get the blocked message |
| AuthApi.ActiveUserAdmitted | api/auth.php:24-34 | an active user with a verifying password is admitted |
| AuthApi.Handle | api/auth.php:9-81 | login answers the check's refusal with 400, or a token and the row found under the collation while touching `last_active`. `verify_token` answers from the bearer token. Any other action gets 400 "unknown action". Exactly one JSON body is written |
| AuthApi.LoginThenVerifyToken | api/auth.php:40-70 | the token that login returns passes `verify_token` with the same user until it expires, and fails after |
| UsersApi.CheckCreate | api/users.php:23-41 | a create is permitted iff it is a POST with a non-empty email and password and no stored email collates equal to it; it then carries those fields and the role, `user` by default. Refusals come in order: not a POST, then a missing field, then an existing email |
| UsersApi.DuplicateEmailRefused | api/users.php:37-41 | an email that collates equal to a stored one (another case, trailing spaces) is refused with the duplicate message, whatever the role |
| UsersApi.Handle | api/users.php:9-95 | without an admin token it answers 400 "access denied" and changes nothing. With one, `create` appends exactly the new active row when no stored email collates equal, answering its id as the decimal text `lastInsertId()` returns; any other action lists the users with their page counts |
| UsersApi.CreatedUserCanLogIn | api/users.php:43-46 | a user created with a password can then log in with it |
| ProjectSettingsApi.AdminCountZero | api/project-settings.php:20-24 | the admin count is 0 iff no user has role `admin` |
| ProjectSettingsApi.CreateTables | api/project-settings.php:73-145 | creating the tables seeds the default settings with `INSERT IGNORE` and leaves users and pages alone |
| ProjectSettingsApi.CreateAdmin | api/project-settings.php:15-41 | the settings are seeded first; an existing admin refuses the call, an email already taken makes the insert fail, and otherwise exactly one admin row is appended with the next id and exactly one admin then exists |
| ProjectSettingsApi.Handle | api/project-settings.php:8-71 | `create_admin` seeds the settings, then refuses when an admin exists; otherwise it inserts one admin, and afterwards exactly one admin exists. `create_tables` and `test_connection` report success. Anything else gets 400 |
| ProjectSettingsApi.CreateAdminAtMostOnce | api/project-settings.php:20-33 | after the admin row is appended an admin exists, so a second `create_admin` is refused |
| SettingsApi.TestConnectionValidation | api/settings.php:18-36 | a config missing host, database or username is refused before any connection attempt. The password may be empty. A complete config succeeds iff the connection does |
| SettingsApi.FoldedPairsValue | api/settings.php:73-80 | a supplied pair whose key no later pair collates equal to leaves its value under its collation key |
| SettingsApi.UpdateSettings | api/settings.php:71-80 | the collated settings map becomes the old one overridden by every supplied pair, the last of collating keys winning; rows already stored keep their spelling and position |
| SettingsApi.CreateTablesAsWritten | api/settings.php:39-48 | as written, `create_tables` echoes two JSON bodies: the included script's and its own |
| SettingsApi.CreateTablesOnce | api/settings.php:39-48 | the corrected `create_tables` seeds the defaults and echoes one success body |
| SettingsApi.Handle | api/settings.php:9-97 | per action: the connection test; `create_tables` writes the included script's body and then its own; `get_all` returns the settings map; `update_settings` is refused without an admin token and otherwise merges the pairs under the collation; any other action gets 400. Users and pages never change |
| SettingsApi.GetAllAfterUpdate | api/settings.php:50-86 | after an update, `get_all` returns each supplied value under a key that collates equal to it, and every previously stored spelling of that key now maps to the new value |
| FallbackService.AvailabilityRule | src/services/fallbackService.ts:100-112 | the API counts as available iff the probe answers 200 or 400. A thrown fetch or any other status means unavailable |
| FallbackService.GetDemoUsers | src/services/fallbackService.ts:51-61 | a successful envelope whose total is the number of demo users, on page 1 of 20 |
| FallbackService.GetDemoPages | src/services/fallbackService.ts:63-73 | a successful envelope whose total is the number of demo pages, on page 1 of 20 |
| FallbackService.GetDemoStats | src/services/fallbackService.ts:38-49 | the demo statistics are consistent: public plus private pages make the total, and the user states do not exceed the total |
| FallbackService.GetDemoSettings | src/services/fallbackService.ts:82-97 | the demo settings use the page's origin as site URL, port 587 and a premium limit of `'0'` |
| FallbackService.EveryCallWarns | src/services/fallbackService.ts:115-117 | n calls append n demo warnings and keep the earlier console output |
| Api.GatedAwaited | src/services/userService.ts:50-122 | with `await` inside `try`, the result always resolves: a rejection becomes the catch's answer |
| Api.RejectionEscapesCatch | src/services/userService.ts:135-146 | an un-awaited rejected request escapes the `catch`, where an awaited one would have been recovered |
| Api.OfflineIgnoresRequest | src/services/userService.ts:128-133 | offline, the answer does not depend on the request |
| UserService.Normalize | src/services/userService.ts:80-91 | each member falls back to its default (`''`, `user`, `pending`, `0`, the clock) exactly when the raw one is falsy; `created_at`/`createdAt` and the other pairs agree |
| UserService.NormalizeAll | src/services/userService.ts:78-91 | the rows kept are exactly the records with a truthy id, in order, each normalised with its own clock reading |
| UserService.NormalizeKeepsOrder | src/services/userService.ts:78-79 | the kept rows are a subsequence of the reply, are exactly the records with a truthy id, and every normalised user has a truthy id |
| UserService.DemoUsersTotalLost | src/services/userService.ts:56-65 | as written, `users` is the whole demo envelope and `total` is `undefined` |
| UserService.DemoUsersIntendedTotal | src/services/userService.ts:56-65 | the corrected fallback lists the two demo users with `total` equal to their count |
| UserService.GetUsers | src/services/userService.ts:50-122 | offline or on a rejected request the answer is the demo fallback as written: the whole demo envelope as `users`, `total` undefined. A normalised reply carries page 1 of 10 and a total equal to the users listed. The answer is a failure, with the fixed message, iff the API answered and its reply is unsuccessful or carries falsy data |
| UserService.GetUsersOffline | src/services/userService.ts:54-66 | offline, the answer is the same whatever the request or the clock: the demo envelope with `total` undefined |
| UserService.GetUsersIntended | src/services/userService.ts:54-66 | the corrected service lists the demo users themselves where the written one returns the envelope, with the same page and limit, and otherwise answers as written; every listed total is the count of the users listed |
| UserService.NonArrayDataIsEmpty | src/services/userService.ts:75-76 | a successful reply whose data is truthy but not an array lists no users |
| UserService.ArrayReplyNormalised | src/services/userService.ts:75-101 | an array reply lists the normalised kept rows, and the total counts them |
| UserService.QueryParams | src/services/userService.ts:68-71 | a parameter is sent iff its filter is present and non-empty, carrying the filter's value; nothing else is sent |
| UserService.CreateUserBody | src/services/userService.ts:135-140 | the body has action `create`, the given email, the password or `defaultpassword123`, and the role or `user` |
| UserService.MutationsGated | src/services/userService.ts:124-190 | offline, each mutation fails with its own message; online, each is exactly its request |
| PageService.Normalize | src/services/pageService.ts:84-97 | each member falls back to its default exactly when the raw one is falsy; `is_public` is the raw value's truthiness; `userEmail` tries `userEmail`, then `user_email` |
| PageService.NormalizeAll | src/services/pageService.ts:84-97 | a `null` element makes the mapping throw; otherwise there is one normalised page per element, in order |
| PageService.GetPages | src/services/pageService.ts:43-127 | success carries page 1 of 10 and a total equal to the pages listed. Offline, the one demo page. A rejected request, awaited inside `try`, gives the `catch`'s empty success. The answer is a failure, with the fixed message, iff the API answered and its reply is unsuccessful or carries falsy data |
| PageService.ArrayReplyNormalised | src/services/pageService.ts:81-127 | an array with a `null` element ends in the catch's empty list; otherwise every page is normalised in order |
| PageService.GetPagesOffline | src/services/pageService.ts:47-73 | offline, the answer is the single demo page, whatever the request |
| PageService.QueryParams | src/services/pageService.ts:75-77 | `search` is sent iff non-empty; `user_id` iff non-zero, as text that parses back to the id |
| PageService.CreatePageGated | src/services/pageService.ts:129-150 | offline, `createPage` fails with its message; online, a rejection escapes, where an awaited one would have given the catch's message |
| SettingsService.OfflineAnswers | src/services/settingsService.ts:47-207 | offline, the three reads answer their demo records and the three writes fail with their own messages |
| SettingsService.RejectionsEscape | src/services/settingsService.ts:47-207 | online, a rejected request escapes every method. Awaited, the catch's message would have been returned |
| SettingsService.RequestFor | src/services/settingsService.ts:74-172 | the request each call sends names the action the call was for |
| SettingsService.UnhandledCalls | src/services/settingsService.ts:120-207 | `api/settings.php` handles a call's action iff the call is one of the three email and database calls |
| SettingsService.EmailPairsDistinct | src/services/settingsService.ts:74-95 | the email update sends six settings with distinct keys |
| DashboardService.ChartLength | src/services/dashboardService.ts:48-57 | the demo chart has `parseInt(period)` points when that is a positive number, and none otherwise |
| DashboardService.BuildDemoChart | src/services/dashboardService.ts:54-67 | the loop pushes exactly the points of `DemoChart`, oldest day first |
| DashboardService.DemoChartShape | src/services/dashboardService.ts:57-66 | the days run consecutively, ending today. Users are in 1..10, pages in 2..16 and views in 20..119 |
| DashboardService.DefaultPeriod | src/services/dashboardService.ts:48 | without a period the chart covers 30 days |
| DashboardService.UnparsablePeriod | src/services/dashboardService.ts:57 | a period that does not start with a digit, sign or space gives an empty chart |
| DashboardService.GetChartData | src/services/dashboardService.ts:48-103 | offline, the demo chart for the period; online, the request's outcome |
| DashboardService.DemoActivity | src/services/dashboardService.ts:106-130 | two entries, ids 1 and 2, now and one hour ago |
| DashboardService.DashboardGated | src/services/dashboardService.ts:28-160 | offline, the demo statistics and activity; online, a rejection escapes |
| UseApi.ResponseError | src/hooks/useApi.ts:32 | the reported message is the response's non-empty error, else the fixed fallback; never empty |
| UseApi.RejectionError | src/hooks/useApi.ts:42 | a thrown error's message, else the fixed fallback |
| UseApi.EffectOf | src/hooks/useApi.ts:25-49 | data is stored iff the call resolves successfully with truthy data. Every other resolved outcome reports a non-empty message |
| UseApi.FailuresAreReported | src/hooks/useApi.ts:28-40 | a failure, or a success without data, is reported with the response's error or the fallback |
| UseApi.Query.constructor | src/hooks/useApi.ts:17-19 | starts with `data` null, loading, and no error |
| UseApi.Query.Begin | src/hooks/useApi.ts:22-23 | sets loading and clears the error, keeping the data |
| UseApi.Query.Settle | src/hooks/useApi.ts:25-52 | stores the data and calls `onSuccess`, or keeps the old data, sets the error, calls `onError` and shows one error toast; loading ends either way |
| UseApi.Query.FetchData | src/hooks/useApi.ts:21-53 | after a fetch the data is truthy and new with no error, or unchanged with exactly one error toast |
| UseApi.MutateResult | src/hooks/useApi.ts:76-102 | the result is non-null only for a successful resolve with truthy data, and is that data |
| UseApi.Mutation.Mutate | src/hooks/useApi.ts:69-106 | returns `MutateResult`. A success toasts its message if it has one. A failure or rejection sets the error and shows one error toast |
| AuthContext.LoginDecision | src/contexts/AuthContext.tsx:118-189 | the provider's session wins when it admits. Otherwise a successful PHP reply with data logs in with its token. Otherwise the refusal carries the reply's error, or the fixed messages |
| AuthContext.ProviderTakesPrecedence | src/contexts/AuthContext.tsx:118-140 | when the provider admits, the PHP outcome is irrelevant |
| AuthContext.ProviderFailureFallsThrough | src/contexts/AuthContext.tsx:118-150 | every provider failure, thrown or answered, leads to the same PHP login |
| AuthContext.Session.constructor | src/contexts/AuthContext.tsx:34-35 | starts signed out and loading, with the stored token |
| AuthContext.Session.CheckSession | src/contexts/AuthContext.tsx:39-87 | the provider's user wins. Otherwise a stored token is verified: on success the user is set, on any failure the token is removed. Loading ends |
| AuthContext.Session.Login | src/contexts/AuthContext.tsx:118-189 | returns true iff the decision admits. It sets the user, stores the PHP token for a backend login, and shows one toast |
| AuthContext.Session.Logout | src/contexts/AuthContext.tsx:191-208 | unless sign-out throws, clears the user and the token and shows one toast |
| AuthContext.Session.OnAuthStateChange | src/contexts/AuthContext.tsx:92-111 | a sign-in with a profile row sets the user; a sign-out clears it; anything else keeps it |
| AuthContext.Session.Route | src/components/ProtectedRoute.tsx:10-26 | the protected page renders iff loading is over and a user is set; the loading screen shows iff loading |
| AdminContext.MergeProperties | src/contexts/AdminContext.tsx:98-100 | an empty patch changes nothing; a present member replaces the old one, an absent one keeps it |
| AdminContext.PatchWhere | src/contexts/AdminContext.tsx:98-100 | patches exactly the elements with the id, in place |
| AdminContext.RemoveWhere | src/contexts/AdminContext.tsx:102-104 | removing never lengthens the list |
| AdminContext.RemoveWhereSpec | src/contexts/AdminContext.tsx:102-104 | removal keeps the others in order, and keeps exactly the elements with another id |
| AdminContext.AbsentIdChangesNothing | src/contexts/AdminContext.tsx:98-143 | an id no element has leaves updates and deletions without effect |
| AdminContext.ResolveSpec | src/contexts/AdminContext.tsx:137-139 | resolving marks exactly the alerts with that id, changes nothing else, and is idempotent |
| AdminContext.DuplicateIdSharesFate | src/contexts/AdminContext.tsx:93-104 | adding does not check ids. When the new id is already taken, deleting by it removes both the old and the new entry, and updating by it patches both |
| AdminContext.AdminStore.constructor | src/contexts/AdminContext.tsx:88-91 | the store starts with the given lists |
| AdminContext.AdminStore.AddUser | src/contexts/AdminContext.tsx:93-96 | appends the user with id `Date.now()`; the other lists are unchanged |
| AdminContext.AdminStore.UpdateUser | src/contexts/AdminContext.tsx:98-100 | merges the patch into the users with that id; the other lists are unchanged |
| AdminContext.AdminStore.DeleteUser | src/contexts/AdminContext.tsx:102-104 | removes the users with that id; the other lists are unchanged |
| AdminContext.AdminStore.AddPage | src/contexts/AdminContext.tsx:106-109 | appends the page with id `Date.now()` |
| AdminContext.AdminStore.UpdatePage | src/contexts/AdminContext.tsx:111-113 | merges the patch into the pages with that id |
| AdminContext.AdminStore.DeletePage | src/contexts/AdminContext.tsx:115-117 | removes the pages with that id |
| AdminContext.AdminStore.AddAutomationRule | src/contexts/AdminContext.tsx:119-122 | appends the rule with id `Date.now()` |
| AdminContext.AdminStore.UpdateAutomationRule | src/contexts/AdminContext.tsx:124-126 | merges the patch into the rules with that id |
| AdminContext.AdminStore.DeleteAutomationRule | src/contexts/AdminContext.tsx:128-130 | removes the rules with that id |
| AdminContext.AdminStore.AddAlert | src/contexts/AdminContext.tsx:132-135 | puts the alert with id `Date.now()` first |
| AdminContext.AdminStore.ResolveAlert | src/contexts/AdminContext.tsx:137-139 | marks the alerts with that id resolved |
| AdminContext.AdminStore.DeleteAlert | src/contexts/AdminContext.tsx:141-143 | removes the alerts with that id |
| RoleSettings.SetField | src/components/settings/RoleSettings.tsx:39-43 | sets exactly the named field of the limit |
| RoleSettings.SavedLimitsSpec | src/components/settings/RoleSettings.tsx:58 | the saved limits are, in order, exactly those with a key and a value; filtering twice changes nothing |
| RoleSettings.BlankRowNotSaved | src/components/settings/RoleSettings.tsx:45-58 | a freshly added blank row is never sent |
| RoleSettings.SavedLimitsAppend | src/components/settings/RoleSettings.tsx:58 | appending a row adds it to the saved limits iff it is complete |
| RoleSettings.RoleSettingsForm.OnSuccess | src/components/settings/RoleSettings.tsx:20-33 | the loaded limits replace the form when the data is truthy, the five defaults otherwise |
| RoleSettings.DefaultsNeverInstalled | src/components/settings/RoleSettings.tsx:16-35 | whenever `useApi` calls `onSuccess`, the loaded rows are installed, so the defaults never are |
| RoleSettings.RoleSettingsForm.HandleLimitChange | src/components/settings/RoleSettings.tsx:39-43 | only the field at that index changes |
| RoleSettings.RoleSettingsForm.AddNewLimit | src/components/settings/RoleSettings.tsx:45-51 | appends one blank row |
| RoleSettings.RoleSettingsForm.RemoveLimit | src/components/settings/RoleSettings.tsx:53-55 | removes the row at that index, or nothing when out of range |
| RoleSettings.RoleSettingsForm.SaveRoleLimits | src/components/settings/RoleSettings.tsx:57-66 | sends the complete rows; the success toast shows iff the mutation returned truthy data |
| RoleSettings.FailedSaveIsSilent | src/components/settings/RoleSettings.tsx:59-65 | a failed or rejected save shows no success toast |
| LimitsAndFeatures.ContextMembersMissing | src/components/admin/LimitsAndFeatures.tsx:19 | none of the six members the panel reads is provided by the admin context |
| LimitsAndFeatures.ParseLimit | src/components/admin/LimitsAndFeatures.tsx:160 | `parseInt(value) \|\| 0`: the parsed number, or 0 when it is `NaN` |
| LimitsAndFeatures.ParseLimitSpec | src/components/admin/LimitsAndFeatures.tsx:158-290 | a typed number is stored as is; text without a digit, the empty field included, stores 0 |
| LimitsAndFeatures.EditLimit | src/components/admin/LimitsAndFeatures.tsx:158-290 | only the edited tier's field changes, to the parsed input |
| LimitsAndFeatures.Toggled | src/components/admin/LimitsAndFeatures.tsx:65-75 | the tier toggled becomes the negation of the shown value; everything else stays |
| LimitsAndFeatures.Find | src/components/admin/LimitsAndFeatures.tsx:66 | finds nothing iff no feature has the id; otherwise the first feature with that id, as `Array.prototype.find` returns |
| LimitsAndFeatures.Panel.OnLimitInput | src/components/admin/LimitsAndFeatures.tsx:158-290 | the editing limits become `EditLimit` of the old ones |
| LimitsAndFeatures.Panel.HandleSaveLimits | src/components/admin/LimitsAndFeatures.tsx:31-37 | passes the editing limits to the context and shows one toast |
| LimitsAndFeatures.Panel.HandleAddFeature | src/components/admin/LimitsAndFeatures.tsx:39-63 | an empty name is refused with an error toast. Otherwise the form goes to the context, is reset, and the dialog closes |
| LimitsAndFeatures.Panel.HandleToggleFeature | src/components/admin/LimitsAndFeatures.tsx:65-75 | a known feature is sent toggled and toasted; an unknown id does nothing |
| LimitsAndFeatures.Panel.HandleDeleteFeature | src/components/admin/LimitsAndFeatures.tsx:77-86 | a known feature is deleted through the context and toasted; an unknown id does nothing |
| ApiManagement.GenerateApiKey | src/components/admin/ApiManagement.tsx:57-59 | a key is `ck_` followed by the two random fragments joined by `_` |
| ApiManagement.MaskLongKey | src/components/admin/ApiManagement.tsx:111-113 | a key of 16 or more characters shows as its first 12 and last 4 around `...`, 19 characters in all |
| ApiManagement.MaskShortKeyRevealsAll | src/components/admin/ApiManagement.tsx:111-113 | a key of at most 12 characters is shown whole by its mask |
| ApiManagement.ToggleVisibility | src/components/admin/ApiManagement.tsx:99-101 | flips the visibility of that key only |
| ApiManagement.ToggleSpec | src/components/admin/ApiManagement.tsx:99-101 | the first toggle reveals a key, and two toggles restore what was shown |
| ApiManagement.KeysPanel.HandleCreateApiKey | src/components/admin/ApiManagement.tsx:61-89 | an empty name is refused with an error toast. Otherwise one active, unused key with the form's permissions is appended and the form is reset |
| ApiManagement.KeysPanel.HandleDeleteApiKey | src/components/admin/ApiManagement.tsx:91-97 | removes the keys with that id |
| ApiManagement.KeysPanel.HandleToggleKeyVisibility | src/components/admin/ApiManagement.tsx:99-101 | the visibility map becomes `ToggleVisibility` of the old one |
| ApiManagement.DeleteSpec | src/components/admin/ApiManagement.tsx:91-97 | deletion keeps the other keys in order, and exactly those |
| AppearanceSettings.PresetChangesOnlyColors | src/components/admin/AppearanceSettings.tsx:95-105 | a preset sets both colours and nothing else, and applying it twice is the same as once |
| AppearanceSettings.TypedNumbersStored | src/components/admin/AppearanceSettings.tsx:200-212 | any typed integer is stored as is in `fontSize`, `borderRadius` and `sidebarWidth`, beyond the inputs' min and max |
| AppearanceSettings.TextStoresNaN | src/components/admin/AppearanceSettings.tsx:200-212 | text with no decimal digit stores `NaN` in each of the three numeric members |
| AppearanceSettings.AppearancePanel.OnThemeInput | src/components/admin/AppearanceSettings.tsx:163-269 | that theme member takes the new value; the layout is untouched |
| AppearanceSettings.AppearancePanel.OnLayoutInput | src/components/admin/AppearanceSettings.tsx:306-371 | that layout member takes the new value; the theme is untouched |
| AppearanceSettings.AppearancePanel.HandleApplyPreset | src/components/admin/AppearanceSettings.tsx:95-105 | the theme takes the preset's colours; the layout is untouched |
| AppearanceSettings.AppearancePanel.HandleResetTheme | src/components/admin/AppearanceSettings.tsx:78-93 | the theme becomes the default whatever it was; the layout is untouched |
| AppearanceSettings.AppearancePanel.HandleExportTheme | src/components/admin/AppearanceSettings.tsx:107-124 | exports exactly the current theme and layout and changes neither |
| NotificationPopover.UnreadCountSpec | src/components/NotificationPopover.tsx:22 | the unread count is at most the list's length; it is 0 iff all are read, and the length iff none is |
| NotificationPopover.Destructured | src/components/NotificationPopover.tsx:15-18 | the `= []` default replaces an undefined `data` only; `null` stays `null` |
| NotificationPopover.NullDataThrows | src/components/NotificationPopover.tsx:15-22 | as written, the count throws on the hook's initial `null` |
| NotificationPopover.UnreadCountIntended | src/components/NotificationPopover.tsx:22 | the corrected count is the unread count of a loaded list and 0 otherwise |
| NotificationPopover.IntendedCountDefined | src/components/NotificationPopover.tsx:15-22 | the corrected count agrees with the written one wherever that does not throw |
| NotificationPopover.BadgeLabel | src/components/NotificationPopover.tsx:43-47 | no badge iff nothing is unread; `99+` iff above 99; otherwise the number |
| NotificationPopover.HeaderBadge | src/components/NotificationPopover.tsx:53-55 | the header badge shows under the bell badge's condition, as `N новых` |
| NotificationPopover.BodyOf | src/components/NotificationPopover.tsx:58-66 | loading text iff loading; the empty text iff loaded and empty; otherwise the list |
| Profile.PasswordProblem | src/pages/Profile.tsx:119-145 | no problem iff all three fields are filled, the two new ones match, and it has at least 6 characters. Each message holds iff the guards before it pass and its own fails |
| Profile.GuardOrder | src/pages/Profile.tsx:119-145 | the empty-field check comes before the match check, and that before the length check |
| Profile.EmailToSendSpec | src/pages/Profile.tsx:73-92 | an email of white space only is refused; otherwise the trimmed email, which is not empty, is sent |
| Profile.ReplyToast | src/pages/Profile.tsx:98-115 | a reply's toast is destructive iff it failed, with the reply's message or the fixed one |
| Profile.ProfilePage.LoadProfile | src/pages/Profile.tsx:35-70 | success with data sets the profile and the email field. Success without data throws and toasts the error. Failure or a throw keeps both and toasts one error. The flag ends off |
| Profile.ProfilePage.BeginLoadProfile | src/pages/Profile.tsx:35-47 | the part before the first `await`: the loading flag turns on and the profile request is sent; nothing else changes |
| Profile.ProfilePage.FinishLoadProfile | src/pages/Profile.tsx:49-69 | the settled reply: data sets the profile and email, a missing or failed reply toasts one error, and the flag turns off |
| Profile.ProfilePage.UpdateEmail | src/pages/Profile.tsx:72-116 | a blank email is refused before any request. Otherwise the trimmed email is sent and the reply toasted. A success starts a profile reload that is not awaited, so the profile request is sent and its loading flag is still on when the update ends |
| Profile.ProfilePage.ChangePasswordAction | src/pages/Profile.tsx:118-183 | a guard problem toasts it and sends nothing. Otherwise the change is sent, and a success clears the three fields |
| Profile.ProfilePage.SaveEmailDisabled | src/pages/Profile.tsx:282 | saving is disabled iff a request is running or the email equals the loaded one |
| AdminLogin.CredentialsAreExact | src/pages/AdminLogin.tsx:21-34 | only exactly `admin` / `admin123` match: neither case nor spaces are forgiven |
| AdminLogin.LoginForm.HandleLogin | src/pages/AdminLogin.tsx:26-51 | succeeds iff the credentials match. Success sets the `adminAuth` flag and navigates to `/`. Failure sets the error and keeps the flag |
| ContentManagement.FilteredPagesSpec | src/components/admin/ContentManagement.tsx:65-68 | the search keeps, in order, exactly the pages whose title or author contains the term ignoring case. The empty term keeps all; searching twice changes nothing |
| ContentManagement.SearchIgnoresTermCase | src/components/admin/ContentManagement.tsx:65-68 | the case of the typed term does not matter |
| UserManagement.FilteredUsersSpec | src/components/admin/UserManagement.tsx:70-72 | the search keeps, in order, exactly the users whose email contains the term ignoring case. The empty term keeps all; searching twice changes nothing |
| UserManagement.OnlyEmailDecides | src/components/admin/UserManagement.tsx:70-72 | two users with the same email are kept or dropped together |
| UserManagement.SearchIgnoresTermCase | src/components/admin/UserManagement.tsx:70-72 | the case of the typed term does not matter |
| Communications.BlankFieldsPass | src/components/admin/Communications.tsx:85-108 | for fields of white space only, trimming gives the empty text, yet each form counts as complete exactly when its fields are non-empty: the checks test emptiness, not blankness |
| Communications.CommunicationsPanel.SendNotification | src/components/admin/Communications.tsx:85-101 | sends iff title and message are non-empty. A refusal keeps the form; a send resets it to a form that would be refused. One toast either way |
| Communications.CommunicationsPanel.SendNewsletter | src/components/admin/Communications.tsx:103-119 | sends iff subject and content are non-empty. A refusal keeps the form; a send resets it to a form that would be refused. One toast either way |
| Js.ParseIntShowInt | src/components/admin/LimitsAndFeatures.tsx:160 | `parseInt` reads back any integer's decimal rendering |
| Js.ParseIntNoDigits | src/components/admin/AppearanceSettings.tsx:200 | `parseInt` of text with no digit is `NaN` |
| Js.TrimStartSpec | src/pages/Profile.tsx:73 | `trimStart` drops exactly the leading white space: the result is a suffix, all that was dropped is white space, and it does not start with white space |
| Js.TrimEndSpec | src/pages/Profile.tsx:73 | `trimEnd` drops exactly the trailing white space: the result is a prefix, all that was dropped is white space, and it does not end with white space |
| Js.TrimEmptyIffBlank | src/pages/Profile.tsx:73 | `trim()` is empty iff every character is white space |
| Js.ContainsIgnoringCaseSpec | src/components/admin/ContentManagement.tsx:65-68 | a lower-cased `includes` finds the empty term, and lower-casing the term first changes nothing |

## Left out

- The HTTP layer, `fetch`, `localStorage`, `console`, timers and React rendering are left out. What they carry is a parameter or a field: the probe's status, each request's outcome, the stored token and flags, and the toasts shown.
- UserService.GetUsers, PageService.GetPages, DashboardService.GetChartData and DashboardService.DashboardGated: their `console.warn` lines and their `showDemoNotification()` calls are not modelled; the services take and return no console. Only `FallbackService.ShowDemoNotification`, on its own, models the demo warning (`FallbackService.EveryCallWarns`).
- `apiService.ts` is not part of this model, so each request's outcome is a parameter, `Api.Outcome`.
- `config/database.php` is not part of this model. The tables are sequences of rows in `Backend.Database`. SQL errors other than a duplicate `UNIQUE` email are not modelled.
- `password_hash` and `password_verify` are a parameter. The salted hash stored for a new user is passed in, and so is the verification function.
- `hash_hmac`, `base64_encode`/`base64_decode` and `json_encode`/`json_decode` are the record `TokenCodec.Primitives`, constrained only by the laws in `TokenCodec.Lawful`.
- TokenCodec.GenerateJwt: both `time()` reads use one `now`, so a second boundary between them is not modelled.
- Backend.Listing: keeps the table's order and does not model `ORDER BY u.created_at DESC`.
- JavaScript numbers are unbounded integers. Floating point, and `Math.random()` beyond its range, are not modelled. Random draws are a function from the draw index to a real in [0, 1).
- `Date` values are integers (milliseconds or days); ISO formatting is not modelled.
- Js.Lower: covers ASCII and Cyrillic letters only. Other scripts are left unchanged.
- Backend.CollationKey: models `utf8mb4_unicode_ci` only as case folding (through `Js.Lower`) plus `PAD SPACE`. Accent equivalences (`e` = `é`), ignorable characters and the other Unicode Collation Algorithm weights are not modelled, so texts that differ only in those count as distinct.
- Backend.Database.InsertUser: the role is stored as sent. The `ENUM` columns `role` and `status` would store a case variant of a listed value as that value and refuse, or blank, any other; this is not modelled.
- `String.length` counts UTF-16 code units; the model counts characters. The two differ only outside the Basic Multilingual Plane.
- AdminLogin.LoginForm.HandleLogin: the one-second `setTimeout` before the check is not modelled.
- The order in which asynchronous handlers interleave is not modelled. Each handler runs to completion with the outcome it receives.
- Handlers that only show a toast or copy text are not modelled: the save buttons of the appearance and layout tabs, copying a key, marking notifications read and `refetch`.
- The email and database settings screens, the automation and system settings screens, `dashboard.php` and `authService.ts` are not part of this model.
- FallbackService: `isApiAvailable` and `showDemoNotification` are modelled per call. Neither caches nor deduplicates in the source, and the model does neither.

## Findings

| source | as written | input that shows it | evidently intended | confidence | as-written member | corrected member |
|---|---|---|---|---|---|---|
| src/services/userService.ts:56-65 | `FallbackService.getDemoUsers().data \|\| []` binds the whole envelope `{users, total, page, limit}`, so `users` is that object and `total` is `demoUsers.length`, which is `undefined` | the API probe fails, so the demo branch runs | the demo branch lists `getDemoUsers().data.users`, with `total` equal to their count (2) | high, not executed | UserService.DemoUsersTotalLost | UserService.GetUsersIntended |
| src/components/NotificationPopover.tsx:15-22 | `const { data: notifications = [] }` applies the default only to `undefined`. `useApi` starts `data` at `null` and keeps it there after every failed call, so `notifications.filter` throws | the first render, before the fetch settles | treat a missing list as empty (`notifications ?? []`), giving an unread count of 0 | high, not executed | NotificationPopover.NullDataThrows | NotificationPopover.IntendedCountDefined |
| api/settings.php:39-48 | `require_once 'project-settings.php'` also runs that file's top-level script, which sees the same action and echoes its own `create_tables` reply before `settings.php` echoes its success | `POST api/settings.php` with action `create_tables` | only the function `createTables` is wanted, so one success body is echoed | medium, not executed | SettingsApi.CreateTablesAsWritten | SettingsApi.CreateTablesOnce |

Other observations, stated by members of the model rather than corrected:

- **Rejections escape the `catch`.** `createUser`, `updateUser`, `deleteUser`, `createPage`, the six settings calls and the dashboard calls all `return` an un-awaited request from inside `try`. A rejected request therefore escapes the method's `catch` (`Api.RejectionEscapesCatch`, `SettingsService.RejectionsEscape`, `DashboardService.DashboardGated`). Whether `apiService` ever rejects lies outside this model.
- **Tokens are accepted at their expiry second.** `verifyJWT` refuses a token only when `exp < time()`. Section 4.1.4 of RFC 7519 requires the current time to be before `exp` (`TokenCodec.ExpiryBoundary`).
- **The limits panel reads members the context lacks.** `LimitsAndFeatures` reads six members from `useAdmin()` that `AdminContext` does not provide (`LimitsAndFeatures.ContextMembersMissing`). The model therefore records the calls the panel makes, without their effect.
- **Three settings actions have no handler.** `getRoleLimits`, `updateRoleLimits` and `getSystemStatus` name actions `api/settings.php` does not handle, so it answers 400 (`SettingsService.UnhandledCalls`).
- **The profile screen posts to the wrong endpoint.** It posts `get_profile`, `update_profile` and `change_password` to `api/users.php`, which knows only `create` and lists users for anything else. It also reads the token under `token`, while the session stores it under `auth_token`.
- **Notifications go to an endpoint that does not handle them.** The notification service posts `get_notifications` and `mark_notification_read` to `api/settings.php`, which answers 400 to both. The popover's `data` therefore stays `null` (see the second finding).
- **`ProtectedRoute` ignores the sign-in flag.** It looks only at the session user, never at the `adminAuth` flag `AdminLogin` sets.
- **The two premium limits disagree.** The demo settings give `premium_page_limit` as `'0'`, while the seeded default is `'100'`.
- **The role-limit defaults are never loaded.** The five default role limits are installed only when the fetch returns no data. `useApi` never calls `onSuccess` without data, so they are never installed (`RoleSettings.DefaultsNeverInstalled`).
