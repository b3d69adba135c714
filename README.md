# Login / Signup with OAuth — a Dafny model

This project models the account and authentication logic of a small full-stack app.

The **backend** is an Express server over a Prisma `user` table. It covers:

- registration with email, username and password;
- password login;
- bearer-token authentication and the profile route;
- the Google and GitHub OAuth strategy callbacks. These find an account by email or by (provider, provider id), backfill its provider slot, or create a password-less account.

The **frontend** is a React app. It covers:

- the password panel of the security settings: validation, the strength meter, and the field and visibility handlers;
- the profile editor: validation, the dirty flag, submission and initials;
- the dashboard's derived labels;
- the alert-preferences panel, with its critical lock and exclusive frequency radio group;
- the application shell: startup decision, login and logout, and route guards.

The files follow the program's structure:

| file | module | models |
|---|---|---|
| `wrappers.dfy` | `Wrappers` | `Option`, `Result`, JavaScript truthiness of an optional string |
| `jsstring.dfy` | `JsString` | `trim`, `split`, `join`, `startsWith`, `replace(/c/g, d)`, ASCII `toUpperCase`, `\s`, and the initials chain shared by two components |
| `accounts.dfy` | `Accounts` | account rows, symbolic bcrypt, the repository as a value `Db` and as the mutable `AccountStore` class |
| `tokens.dfy` | `Tokens` | JWT claims, signing and verification, the `authenticateToken` middleware |
| `localauth.dfy` | `LocalAuth` | the register, login and profile routes and their controller copies |
| `oauth.dfy` | `OAuth` | the Google and GitHub strategy callbacks and the callback redirect |
| `security.dfy` | `Security` | `Security.js` |
| `editprofile.dfy` | `EditProfile` | `EditProfile.js` |
| `dashboard.dfy` | `Dashboard` | `Dashboard.js` |
| `alerts.dfy` | `Alerts` | `Alerts.js` |
| `app.dfy` | `App` | `App.js` |

Operations that change state step by step are methods on classes:

- the repository's `create` and `update`;
- the register route and the OAuth callbacks, against the store;
- the editor's and the alert panel's handlers;
- the app shell's handlers.

Each method's `ensures` gives the new state in terms of the old one, mostly as a pure function of it. The source's promises are proved as lemmas about those functions. Examples:

- **Registration and login.** After a registration, login with the same credentials succeeds as the new account. A second registration reusing the email or the username is refused and changes nothing. The token issued at registration reads back the new account on the profile route for 24 hours.
- **OAuth idempotence.** Resolving the same OAuth profile twice changes nothing the second time. This holds with the lookup returning the first match in store order. If `findFirst` could return any match, a second login could backfill a different row.
- **Password strength.** Every new password the security form accepts rates strong, and typing a character never lowers the score.
- **Route guards.** They settle after at most one redirect, on the dashboard exactly when authenticated.

Bcrypt and JWT are symbolic. A digest records its cost and the first 72 characters of the password, which is all bcrypt reads. It therefore verifies against exactly the passwords that agree with the original on those characters. A token records its claims and signing key. The text in the `Authorization` header is turned back into a token by a `decode` parameter.

Time is passed in as `now` (and `hour` on the dashboard). So are the outcomes of calls into code that is not modelled: `onSave` succeeding, the profile request settling, `JSON.parse` throwing.

Some behaviours of the code as written are shown by concrete lemmas:

- **Duplicate identity after linking** (`OAuth.LinkCanDuplicateIdentity`). The OAuth lookup is an OR of "same email" and "same (provider, id)". The first match may be an email match without a provider id while an older account already holds the identity. The email match is then backfilled, and two accounts end up holding the same (provider, provider id).
- **Sentinel email** (`Dashboard.SentinelEmailCountsAsMissing`). The dashboard compares the email *label* with its fallback text. An account whose email is literally "Email not added" therefore counts as having none.
- **Lookahead spans one line** (`Security.MixedCaseNeedsOneLine`). The lookahead test `(?=.*[a-z])(?=.*[A-Z])(?=.*\d)` refuses "aaaaaaa\nA1", although all three classes occur in it, because `.` does not cross a line break. This belongs to `validatePassword` alone: the form's password inputs are single-line, and the browser strips line breaks from their values, so the form cannot submit such a password.

Two behaviours of the code worth noting:

- **No username retry.** An OAuth username that collides is not retried with another suffix. The create throws, and `done(error)` follows (`OAuthError.RepositoryRejected`).
- **One status for every token failure.** An expired token gets the same 403 "Invalid token" as a bad one.

## Model

| member | source | states |
|---|---|---|
| `Accounts.Hash` | backend/index.js:227 | the digest of a password verifies against exactly the passwords sharing its first 72 characters: itself always, and no other when it is shorter than 72 |
| `Accounts.KeyOf` | backend/index.js:227 | the part of a password bcrypt reads is its prefix of at most 72 characters |
| `Accounts.LongPasswordsCollide` | backend/index.js:285 | two different 73-character passwords that agree on their first 72 verify against each other's digest |
| `Accounts.FirstIndex` | backend/index.js:44-51 | the first account satisfying the filter; no earlier account satisfies it; `None` exactly when no account does |
| `Accounts.CreateRow` | backend/index.js:230-240 | create fails exactly when some account has the same email or username, and the store is then unchanged; otherwise exactly one row is appended, with the next id; the uniqueness constraints are preserved |
| `Accounts.Linked` | backend/index.js:56-63 | the backfill changes only provider, provider id and avatar; an absent avatar keeps the old one |
| `Accounts.LinkPreservesValid` | backend/index.js:56-63 | backfilling one row keeps email, username and id uniqueness |
| `Accounts.FindOwnId` | backend/index.js:333-345 | with unique ids, the lookup by a row's id finds that row |
| `Accounts.FindOwnEmail` | backend/index.js:274 | with unique emails, the lookup by a row's email finds that row |
| `Accounts.AccountStore.constructor` | backend/index.js:13 | an empty table whose ids start at 1, satisfying the constraints |
| `Accounts.AccountStore.Create` | backend/index.js:230-240 | the table and the result after `create` are those `CreateRow` gives for the table before, and the constraints still hold |
| `Accounts.AccountStore.Update` | backend/index.js:56-63 | the row with the given id is replaced by its backfilled version and nothing else changes |
| `Tokens.Verify` | backend/index.js:321-327 | a token verifies exactly when it decodes, was signed with the key and has not reached `exp`, returning its claims; an undecodable text and a foreign signature get their own errors |
| `Tokens.IssueVerifies` | backend/index.js:243 | a freshly issued token verifies with its own claims, and that `userId`, for 24 hours, and is expired from then on |
| `Tokens.BearerToken` | backend/index.js:314-315 | a token is found exactly when the header is present and its second space-separated piece is non-empty, and it is that piece, space-free |
| `Tokens.DefaultSecretTokens` | backend/index.js:15 | with `JWT_SECRET` unset, a token signed with the published fallback text verifies; with another secret configured it is refused for its signature |
| `Tokens.BearerTokenOf` | backend/index.js:315 | `"<scheme> <token>"` yields exactly the token |
| `Tokens.NoSpaceNoToken` | backend/index.js:315-319 | a header without a space yields no token |
| `Tokens.Authenticate` | backend/index.js:313-328 | 401 "Token required" exactly when there is no token; 403 "Invalid token" when verification fails; otherwise the verified claims |
| `Tokens.IssuedTokenAuthenticates` | backend/index.js:313-328 | an issued token sent as `Bearer <token>` authenticates as its account before expiry under the signing key; otherwise it gets 403 |
| `LocalAuth.PublicView` | backend/index.js:247-254 | the response user copies id, email, username, names and avatar, and carries no password |
| `LocalAuth.ProfileView` | backend/index.js:335-344 | the profile projection adds `createdAt` and `provider` and carries no password |
| `LocalAuth.RegisterOutcome` | backend/index.js:203-262 | a missing email, username or password gives 400 with the store unchanged; a clashing email or username gives "User already exists" with the store unchanged; success happens exactly otherwise, and then adds one `local` account whose digest verifies against the password, answers with its public view and a token for its id, and preserves uniqueness |
| `LocalAuth.Register` | backend/controllers/authController.js:8-67 | registration performed step by step against the store ends in the state and response `RegisterOutcome` describes |
| `LocalAuth.Login` | backend/controllers/authController.js:71-116 | the checks in source order (missing fields; unknown email; no digest, "Login with OAuth provider"; wrong password) with their responses; success only for a stored account with that email whose digest matches, answered with its public view |
| `LocalAuth.Profile` | backend/controllers/authController.js:118-143 | 404 "User not found" exactly when no account has the token's id; otherwise that account's profile projection |
| `LocalAuth.ProfileRoute` | backend/index.js:331-356 | middleware failures pass through unchanged; authenticated requests get the profile lookup for the token's claims |
| `LocalAuth.RegisterThenLogin` | backend/index.js:203-304 | after a successful registration, logging in with the same email and password succeeds as the new account |
| `LocalAuth.RegisterTwiceRefused` | backend/index.js:213-224 | a second registration reusing the email or the username is refused with "User already exists" and changes nothing |
| `LocalAuth.RegisterThenProfile` | backend/index.js:243-351 | the token a registration issues, presented within 24 hours, makes the profile route return the new account with provider `local` |
| `LocalAuth.UnknownEmailLikeWrongPassword` | backend/index.js:274-288 | an unknown email and a wrong password produce the same response |
| `OAuth.Resolve` | backend/index.js:42-83 | on a match: an account with a provider id is returned unchanged; one without is backfilled in place and nothing is created, unless reading the avatar throws; without a match: exactly one row is created under the next id and returned, and creation fails exactly when its email or username clashes; a failure leaves the store unchanged; the constraints are preserved |
| `OAuth.ResolveIdempotent` | backend/index.js:44-80 | with the lookup returning the first match in store order, resolving the same profile again returns the same account and changes nothing |
| `OAuth.ResolveLinksByEmail` | backend/index.js:53-65 | an email match without a provider id, with the identity held by no account, is linked in place, and nothing is created; when reading the avatar throws, the callback fails with the store unchanged |
| `OAuth.LinkCanDuplicateIdentity` | backend/index.js:44-65 | a valid store on which linking leaves two accounts with the same provider and provider id |
| `OAuth.LastChars` | backend/index.js:74 | for n > 0, `slice(-n)` is the suffix of length `min(n, |s|)` |
| `OAuth.GoogleUsername` | backend/index.js:74 | the synthesised username is the part of the email before its first `@` (all of it without one), `_`, and the last four characters of the profile id (all of a shorter id) |
| `OAuth.FirstPhoto` | backend/index.js:61 | `photos[0]?.value` is the first photo, and absent exactly when the list is empty |
| `OAuth.GoogleIdentity` | backend/index.js:44-78 | a profile without an email fails before the query; the backfill's avatar throws exactly without `photos`; building the row throws exactly without `name` or `photos`; otherwise Google queries by the first email and creates a password-less `google` row with the profile id, that email, the first photo, the synthesised username, and the given and family names |
| `OAuth.GoogleWithoutPhotos` | backend/index.js:53-80 | a Google profile without `photos` leaves the store unchanged and succeeds exactly when it finds an account that already has a provider id |
| `OAuth.GitHubFirstName` | backend/index.js:121 | the first word of the display name; the username when the display name is empty or starts with a space |
| `OAuth.GitHubLastName` | backend/index.js:122 | the last name is empty for a display name without a space; otherwise the display name is its first piece, a space, and the last name |
| `OAuth.GitHubNamesRejoin` | backend/index.js:121-122 | the first name and the last name, joined by a space, give back a display name that does not start with a space; a one-word name leaves the last name empty |
| `OAuth.GitHubIdentity` | backend/index.js:93-127 | GitHub queries by the optional email; building the row fails exactly when the display name is null; the row has the fallback email, the profile username, the first name with its username fallback, the rest of the display name as last name, no password, and the `github` identity |
| `OAuth.GitHubEmail` | backend/index.js:120 | the created email is the profile email when it is non-empty, else `<username>@github.local`; it is never empty |
| `OAuth.ResolveIdentity` | backend/index.js:53-80 | the look-up-then-update-or-create sequence against the store ends in the state and result `Resolve` describes |
| `OAuth.GoogleCallback` | backend/index.js:37-84 | a profile without an email fails with the store unchanged; otherwise the Google callback is `Resolve` on the Google identity |
| `OAuth.GitHubCallback` | backend/index.js:86-133 | the GitHub callback is `Resolve` on the GitHub identity |
| `OAuth.CallbackRedirect` | backend/index.js:170-183 | a refused login goes to the login page; the dashboard redirect happens exactly for a resolved account, with a 24-hour token for its id and its public view |
| `JsString.TrimTrims` | frontend/src/components/Dashboard.js:10 | `trim` cuts off exactly the leading whitespace and only whitespace at the end |
| `JsString.TrimIsInfix` | frontend/src/components/EditProfile.js:41 | `trim` keeps the infix of the string starting after the leading whitespace |
| `JsString.TrimDropsWhitespace` | frontend/src/components/EditProfile.js:41 | what `trim` drops at the end is whitespace |
| `JsString.TrimEmpty` | frontend/src/components/EditProfile.js:41 | `s.trim()` is empty exactly when every character of `s` is whitespace |
| `JsString.JoinSplit` | backend/index.js:121-122 | joining the pieces of a split on the same separator gives back the string |
| `JsString.SplitHead` | backend/index.js:74 | the first piece of a split is the text before the first separator |
| `JsString.ReplaceAll` | frontend/src/components/Dashboard.js:50 | same length; each separator character is replaced and every other character kept |
| `JsString.Words` | frontend/src/components/Dashboard.js:24-25 | the words are non-empty and contain no space |
| `JsString.Initials` | frontend/src/components/Dashboard.js:23-29 | one or two characters: the upper-cased first letters of the first two words, or `U` when there are no words |
| `JsString.TwoWordInitials` | frontend/src/components/EditProfile.js:90-97 | two words joined by a space trim to themselves and give their two upper-cased first letters |
| `JsString.InitialsFirstLetter` | frontend/src/components/Dashboard.js:23-29 | a text not starting with a space has its own first letter, upper-cased, as first initial |
| `Security.Set` | frontend/src/components/Security.js:50-53 | only the named password field changes |
| `Security.ValidatePassword` | frontend/src/components/Security.js:71-92 | an error for the current password exactly when it is empty; an error for the new password exactly when it fails length or the lookahead test, with the first failing message in source order; a mismatch error exactly when confirmation differs; `ok` exactly when there are no errors; the map is keyed like the panel's `errors` state and holds no submit or two-factor entry |
| `Security.Score` | frontend/src/components/Security.js:141-146 | the score counts at most five criteria |
| `Security.StrengthOf` | frontend/src/components/Security.js:148-150 | weak exactly for scores up to 2, medium exactly for 3, strong exactly from 4 |
| `Security.GetPasswordStrength` | frontend/src/components/Security.js:140-151 | the five conditional increments give the level of the password's score |
| `Security.ScoreMonotone` | frontend/src/components/Security.js:142-146 | appending a character never lowers the score |
| `Security.AcceptedIsStrong` | frontend/src/components/Security.js:78-150 | every new password validation accepts has score at least 4 and rates strong |
| `Security.MixedCaseOneLine` | frontend/src/components/Security.js:82 | on a single line the lookahead test holds exactly when a lower-case letter, an upper-case letter and a digit all occur |
| `Security.MixedCaseNeedsOneLine` | frontend/src/components/Security.js:82 | `validatePassword` refuses a long-enough password containing all three classes split by a line break |
| `Security.StrongPasswordStatus` | frontend/src/components/Security.js:159 | the checklist item is complete exactly when the field is empty or the score is at least 3 |
| `Security.HandlePasswordChange` | frontend/src/components/Security.js:48-62 | only the named field changes; only its message is blanked; the error keys stay the same |
| `Security.ToggleVisibility` | frontend/src/components/Security.js:64-69 | only the named visibility flag flips |
| `Security.ToggleTwice` | frontend/src/components/Security.js:64-69 | two clicks restore the visibility flags |
| `EditProfile.Set` | frontend/src/components/EditProfile.js:23-26 | only the named form field changes |
| `EditProfile.OrEmpty` | frontend/src/components/EditProfile.js:7-14 | a truthy user field is copied, anything else becomes empty |
| `EditProfile.EmailShapeExamples` | frontend/src/components/EditProfile.js:47 | `\S+@\S+\.\S+` accepts `a@b.c` and refuses `a@bc` and `a@ b.c` |
| `EditProfile.FormErrors` | frontend/src/components/EditProfile.js:38-61 | a key has an error exactly when its rule fails, and the message is that rule's |
| `EditProfile.UncheckedFieldsIrrelevant` | frontend/src/components/EditProfile.js:41-57 | the last name, bio, location and phone never affect the errors |
| `EditProfile.ErrorFreeForm` | frontend/src/components/EditProfile.js:41-60 | a form without errors has a non-blank first name, an address-shaped email, a username empty or at least three long, and a website empty or starting with `http` |
| `EditProfile.CollectErrors` | frontend/src/components/EditProfile.js:38-58 | the rule-by-rule accumulation yields exactly `FormErrors` |
| `EditProfile.EditorInitials` | frontend/src/components/EditProfile.js:89-97 | the editor avatar shows the initials (as `JsString.Initials` states them) of the trimmed `first last` line: one or two upper-cased first letters of its words, or `U` without words |
| `EditProfile.EditorInitialsOfNames` | frontend/src/components/EditProfile.js:90-97 | one-word first and last names give their two upper-cased first letters |
| `EditProfile.ProfileEditor.constructor` | frontend/src/components/EditProfile.js:6-19 | the form starts from the user's fields, without errors, clean and not loading |
| `EditProfile.ProfileEditor.HandleInputChange` | frontend/src/components/EditProfile.js:21-36 | only the named field changes; the form becomes dirty; only that field's message is blanked |
| `EditProfile.ProfileEditor.ValidateForm` | frontend/src/components/EditProfile.js:38-61 | stores `FormErrors` of the form and reports whether it is empty; nothing else changes |
| `EditProfile.ProfileEditor.HandleSubmit` | frontend/src/components/EditProfile.js:63-78 | an invalid form only stores its errors; a valid one clears the dirty flag on a successful save and stores the submit error on a failed one; the dirty flag is cleared only by a successful save; loading ends false |
| `Dashboard.FullName` | frontend/src/components/Dashboard.js:9-11 | empty without names; with a name, the `first last` line with its leading whitespace and some trailing whitespace cut off, and it neither begins nor ends with whitespace |
| `Dashboard.FullNameOfWords` | frontend/src/components/Dashboard.js:9-11 | one-word names read "First Last" |
| `Dashboard.FullNameFirstOnly` | frontend/src/components/Dashboard.js:9-11 | a first name alone reads as itself |
| `Dashboard.DisplayName` | frontend/src/components/Dashboard.js:12 | the full name, else the username, else "Valued Member"; never empty |
| `Dashboard.DashboardInitials` | frontend/src/components/Dashboard.js:23-29 | the dashboard avatar shows the initials (as `JsString.Initials` states them) of the display name: one or two upper-cased first letters of its words, or `U` without words |
| `Dashboard.InitialsStartWithName` | frontend/src/components/Dashboard.js:23-29 | a named user's first initial is the upper-cased first letter of the name |
| `Dashboard.AnonymousInitials` | frontend/src/components/Dashboard.js:12-29 | a user with no names and no username is "Valued Member", initials "VM" |
| `Dashboard.UsernameLabel` | frontend/src/components/Dashboard.js:13 | `@username`, else "Username not set" |
| `Dashboard.EmailLabel` | frontend/src/components/Dashboard.js:14 | the email, else "Email not added" |
| `Dashboard.EmailOnFile` | frontend/src/components/Dashboard.js:55-63 | complete exactly when there is an email other than the fallback text |
| `Dashboard.SecurityCardValue` | frontend/src/components/Dashboard.js:44 | "Email confirmed" exactly when the email item is complete, else "Complete setup" |
| `Dashboard.SentinelEmailCountsAsMissing` | frontend/src/components/Dashboard.js:44-62 | an email equal to the fallback text counts as missing |
| `Dashboard.Greeting` | frontend/src/components/Dashboard.js:31-32 | morning exactly before 12, afternoon exactly from 12 to before 18, evening exactly from 18 |
| `Dashboard.LoginMethod` | frontend/src/components/Dashboard.js:50 | the provider with every `_` turned into a space and everything else kept, else "Email & password" |
| `Dashboard.LoginMethodVerbatim` | frontend/src/components/Dashboard.js:50 | a provider name without underscores is shown unchanged |
| `Alerts.ListedRows` | frontend/src/components/Alerts.js:80-203 | a listed row is critical exactly when its key is one of the five critical keys, and no row is a delivery or frequency key |
| `Alerts.FindCategory` | frontend/src/components/Alerts.js:244 | `find` returns the first category with the id, and none exactly when no category has it |
| `Alerts.CategoryIdsDistinct` | frontend/src/components/Alerts.js:80-203 | the four category ids are distinct |
| `Alerts.CurrentCategoryUnique` | frontend/src/components/Alerts.js:244 | looking up a category's id finds that category |
| `Alerts.Flip` | frontend/src/components/Alerts.js:58-63 | the key flips and every other key keeps its value |
| `Alerts.FlipTwice` | frontend/src/components/Alerts.js:58-63 | flipping a key twice restores the preferences |
| `Alerts.ClickToggle` | frontend/src/components/Alerts.js:319-321 | a critical row that is on is disabled, so the click has no effect; otherwise it flips the preference |
| `Alerts.CriticalStaysOn` | frontend/src/components/Alerts.js:321 | a critical preference that is on stays on whichever row toggle is clicked |
| `Alerts.ChooseFrequency` | frontend/src/components/Alerts.js:390-398 | the chosen option is on, the other two are off, everything else is unchanged |
| `Alerts.InitialConsistent` | frontend/src/components/Alerts.js:19-56 | the initial state has every key, exactly one frequency option, and an existing category |
| `Alerts.AlertSettings.constructor` | frontend/src/components/Alerts.js:19-56 | the panel starts with the initial preferences on the security category, consistent |
| `Alerts.AlertSettings.CurrentCategory` | frontend/src/components/Alerts.js:244 | in a consistent panel the shown category exists and has the selected id |
| `Alerts.AlertSettings.ClickPreference` | frontend/src/components/Alerts.js:302-321 | a row toggle applies `ClickToggle` and keeps exactly one frequency option |
| `Alerts.AlertSettings.ClickDelivery` | frontend/src/components/Alerts.js:363 | a delivery toggle flips its key and keeps exactly one frequency option |
| `Alerts.AlertSettings.SelectFrequency` | frontend/src/components/Alerts.js:383-398 | the radio group applies `ChooseFrequency` and keeps the panel consistent |
| `Alerts.AlertSettings.SelectCategory` | frontend/src/components/Alerts.js:278 | the clicked category becomes the shown one; the preferences are unchanged |
| `App.Mounted` | frontend/src/App.js:9-11 | the first render is unauthenticated, without user, loading, with the stored token |
| `App.AfterStartup` | frontend/src/App.js:14-57 | loading always ends; a parsed OAuth redirect authenticates with its user and stores its token; otherwise a stored token authenticates with the user the profile returns, and is removed when none comes back; with no token nothing else changes; an authenticated result has a token stored |
| `App.OAuthSkipsFetch` | frontend/src/App.js:19-28 | with a parsed redirect the profile outcome is irrelevant, and the session is authenticated with the redirect's token |
| `App.StaleTokenRemoved` | frontend/src/App.js:35-56 | a stored token whose request fails or brings no user is removed and the session stays signed out |
| `App.StartupAuthenticates` | frontend/src/App.js:14-57 | after startup the session is authenticated exactly when the redirect parsed or the stored token brought a user back |
| `App.LoggedIn` | frontend/src/App.js:59-63 | login stores the token and the user and authenticates |
| `App.LoggedOut` | frontend/src/App.js:65-69 | logout removes the token and the user and de-authenticates |
| `App.LogoutAfterLogin` | frontend/src/App.js:59-69 | logging out after logging in forgets everything the login stored |
| `App.RouteElement` | frontend/src/App.js:84-113 | the login and signup forms render exactly when unauthenticated on their paths, the dashboard exactly when authenticated on its path; every redirect goes to `/dashboard` when authenticated and `/login` otherwise; unknown paths match nothing |
| `App.GuardsSettle` | frontend/src/App.js:84-113 | from every route one redirect at most reaches a page: the dashboard exactly when authenticated, else the login form unless the signup form was asked for |
| `App.Render` | frontend/src/App.js:71-78 | the spinner shows exactly while loading; otherwise the routed element |
| `App.LoginLogoutRoutes` | frontend/src/App.js:59-107 | after login the login page redirects to the dashboard; after logout the dashboard redirects to the login form |
| `App.AppState.constructor` | frontend/src/App.js:9-11 | the component starts in the `Mounted` session |
| `App.AppState.Startup` | frontend/src/App.js:14-57 | the mount effect ends in the `AfterStartup` session and not loading, with a token stored whenever authenticated |
| `App.AppState.HandleLogin` | frontend/src/App.js:59-63 | the state becomes `LoggedIn` of the old state |
| `App.AppState.HandleLogout` | frontend/src/App.js:65-69 | the state becomes `LoggedOut` of the old state |

## Left out

- Accounts.FirstIndex: Prisma's `findFirst` without `orderBy` promises only *some* matching row. The model returns the first match in insertion order, a deterministic refinement that the idempotence lemma relies on.
- OAuth.GitHubIdentity: an absent GitHub email is modelled as matching no account. The real filter is `{email: undefined}`, whose meaning depends on Prisma's treatment of `undefined`.
- Tokens.Verify: no signature or encoding is modelled. A token is its claims plus the signing key, and a `decode` parameter stands for parsing the header text.
- Tokens.Verify: `jwt.verify`'s other failure modes (`nbf`, algorithm mismatch, clock tolerance) are not modelled.
- Accounts.Hash: bcrypt's salt and cost are not modelled. The digest is symbolic and keeps the password's first 72 characters. bcryptjs truncates at 72 UTF-8 bytes, and the model counts characters, which agrees for ASCII passwords only.
- EditProfile.ProfileEditor.HandleSubmit: the awaited `onSave` is one atomic step. The inputs stay enabled while saving, so an edit typed during the save has its dirty flag cleared when the save resolves. The model cannot express that interleaving.
- LocalAuth.Register: the 500 "Registration failed" branch is dead when requests run one after another, since create follows the clash check. The check-then-create race between concurrent requests is concurrency and is not modelled.
- LocalAuth.Login: the 500 "Login failed" and "Profile failed" catch branches stand for repository failures, which the in-memory store does not have.
- App.AppState.Startup: requires the mount state (loading, not authenticated), because the effect runs once on the first render.
- App.RouteElement: paths match by exact string equality. React Router's case-insensitive and trailing-slash matching is not modelled.
- Dashboard.LoginMethod: the backend never sends `authProvider` (the profile exposes `provider`), so in practice the label is always "Email & password". The model follows the component as written.
- toUpperCase is modelled for ASCII letters only. Strings are sequences of characters, not UTF-16 code units.
- Passport and session plumbing is not modelled: `serializeUser`, `deserializeUser`, the session middleware, and building the redirect URL with `JSON.stringify` and `encodeURIComponent`. It is library code.
- The Prisma client, the database connection and `backend/db/index.js` are replaced by the in-memory `AccountStore`.
- The schema is not part of this model: it is taken that `email` and `username` are exactly the account table's unique columns and `providerId` is not one. `Accounts.CreateRow`'s refusal, the unreachable 500 branch of `LocalAuth.Register` and the duplicate provider id of `OAuth.LinkCanDuplicateIdentity` all rest on that.
- Accounts.Satisfies: emails and usernames compare by exact string equality, and so do the uniqueness constraints. MySQL's default collation compares them case-insensitively, so logging in as "ALICE@x.com" after registering "alice@x.com" reaches the password check in the source but is refused as unknown in the model. The model does no case folding.
- The route files `backend/routes/*.js` contain only wiring and are not modelled.
- `googleAuthController.js` repeats the callback redirect, which is modelled once as `OAuth.CallbackRedirect`.
- Login.js, Footer.js and Navbar.js are not modelled: they are rendering and `fetch` calls.
- The simulated API calls `handlePasswordUpdate`, `handleTwoFactorToggle` and `handleSavePreferences` are not modelled. Each only waits on a `setTimeout` and sets a message.
- EditProfile's `handleCancel` depends only on `window.confirm` and is not modelled.
- JSX rendering, CSS and locale date formatting are not modelled, including the dashboard's "Member since" card.
- The clock reading behind the greeting, `localStorage` as a browser API, and the `fetch` of the profile are not modelled. The model takes their values or outcomes as parameters instead.
- The regular expressions are modelled as character-class predicates. `\s` is the ECMAScript WhiteSpace and LineTerminator set, and `.` excludes the four line terminators.
