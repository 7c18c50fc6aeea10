# formly: token checks, request gate and form administration

formly is a SvelteKit application. Other PlaceNet applications embed it to
build forms and collect answers to them. A caller identifies itself with a
JWT that the PlaceNet platform issues. This project models the part of formly
that decides who may do what, and the operations that this decides:

- `getTokenPayload` (`src/lib/auth.js`) cleans up a raw token and hands it to
  the JWT verifier. The clean-up trims the token, strips one `Bearer ` prefix,
  keeps the last non-empty segment of a comma-separated list, and requires
  three dot-separated parts. The verifier is called with a 60-second clock
  tolerance. The result is the payload, `false`, or an exception.
- `handle` (`src/hooks.server.js`) is the request gate.
  - Paths on a fixed allow-list pass through untouched.
  - For every other path it takes a token from the `x-auth-token` header, or
    else from the `token` query parameter.
  - It strips one leading comma from the token and checks it.
  - If the check passes, it copies four claims (`domain_id`, `avatar_id`,
    `role`, `domain_tags`) into `event.locals`. It then runs the route.
- The embedded admin panel (`src/routes/.well-known/placenet/admin/+page.server.js`)
  has five operations:
  - `load` requires an admin token with a domain. It creates the domain row
    if missing and lists the domain's forms with their hashids and
    submission counts.
  - `createForm`, `deleteForm`, `duplicateForm` and `toggleActive` repeat the
    authorisation checks. Each touches only forms of the token's domain.
- The user page (`src/routes/user/+page.server.js`) accepts any verified
  token that has a domain. It lists the domain's active forms and the
  user's display names.

The model has six modules, one per file:

| module | file | contents |
|---|---|---|
| `JsString` | `js_string.dfy` | The JavaScript string built-ins used: `trim` over the full ECMAScript white-space set, `startsWith`, `split` on one character, `join`, and truthiness of an optional string. |
| `Auth` | `auth.dfy` | `getTokenPayload` as a function of the raw token and a verifier. The verifier is a function parameter. |
| `Hooks` | `hooks.dfy` | The gate as a pure decision `Gate`. `Event` is a class whose `locals` and `resolve` counter the method `Handle` updates in place. |
| `Store` | `store.dfy` | The `forms` and `domains` tables as a `Tables` value, and a `Database` class holding them as fields. Its methods are the Prisma calls used. |
| `AdminPage` | `admin_page.dfy` | The admin panel's operations in two forms. Each is a pure step function on `Tables` and on the token's payload (its specification). Each is also a method on a `Database` whose contract is that step. The method calls getTokenPayload through a function parameter, so the step functions and their lemmas hold for any answer getTokenPayload gives. |
| `UserPage` | `user_page.dfy` | The user page's `load`, which only reads. `Load` feeds `GetTokenPayload` into `UserLoad`. The lemmas are about `UserLoad`, for any payload. |

Behaviour worth knowing that the model makes explicit:

- A token made only of commas and white space leaves no segment. The source
  then calls `split` on `undefined`, outside its `try`, so `getTokenPayload`
  throws instead of returning `false`. The model has this as the `Thrown`
  outcome (`Auth.OnlyCommasThrows`).
- Every route maps that outcome to `Crashed`.
- `/user` is not on the allow-list in `hooks.server.js`, so it needs a token
  (`Hooks.NotPublic`).

## Model

| member | source | states |
|---|---|---|
| JsString.OrEmpty | src/routes/.well-known/placenet/admin/+page.server.js:77-78 | definition of `x \|\| ''` for an optional string. What it gives for the description is stated by `AdminPage.CreateAddsOneForm`, and for the domain name by `UserPage.DisplayNamesFallBack` |
| JsString.Truthy | src/lib/auth.js:29 | definition of JavaScript truthiness for an absent or string value: present and non-empty. Every `!token` test uses it |
| JsString.StartsWith | src/lib/auth.js:36 | definition of `startsWith`: the prefix equals the first characters. `Auth.BearerStrippedOnce` and `Auth.LowerCaseBearerKept` state its effect on the `Bearer ` test |
| JsString.LeadingWhitespace | src/lib/auth.js:35 | the count is the length of the maximal white-space prefix |
| JsString.TrailingWhitespace | src/lib/auth.js:35 | the count is the length of the maximal white-space suffix |
| JsString.Trim | src/lib/auth.js:35 | `trim` returns a string with no white space at either end, never longer, and empty exactly when the input is all white space |
| JsString.TrimParts | src/lib/auth.js:35 | the input is the trimmed string with white space before and after it |
| JsString.TrimOfPadded | src/lib/auth.js:35 | trimming a trimmed string padded with white space gives back that string |
| JsString.TrimOfTrimmed | src/lib/auth.js:35 | a string with no white space at either end is left unchanged by trimming |
| JsString.TrimIdempotent | src/lib/auth.js:35-37 | trimming twice is trimming once |
| JsString.TrimChars | src/lib/auth.js:42 | every character of the trimmed string occurs in the input |
| JsString.TrimKeeps | src/lib/auth.js:42 | a character that is not white space survives trimming |
| JsString.BetweenEnds | src/lib/auth.js:37 | a concatenation whose first and last characters are not white space is trimmed |
| JsString.TrimAfterPrefix | src/lib/auth.js:35-37 | trimming `p + t`, where `p` starts with a non-blank character, keeps `p` in front; trimming what follows `p` gives `t.trim()` |
| JsString.TrimOfPrefixed | src/lib/auth.js:35-37 | trimming `p + rest + post` removes exactly the white-space tail `post` |
| JsString.Split | src/lib/auth.js:42 | `split` yields at least one part and no part contains the separator |
| JsString.Join | src/lib/auth.js:42 | reference definition that `split` is checked against: `JsString.JoinSplit` and `JsString.SplitJoin` prove the two inverse to each other |
| JsString.SplitChars | src/lib/auth.js:42 | every character of a part occurs in the input |
| JsString.SplitWithoutSep | src/lib/auth.js:41-47 | a string without the separator splits into itself alone |
| JsString.JoinSplit | src/lib/auth.js:42 | joining the parts with the separator gives back the input |
| JsString.SplitPrefix | src/lib/auth.js:42 | a separator-free prefix is glued onto the first part |
| JsString.SplitCons | src/lib/auth.js:42 | a leading character other than the separator joins the first part |
| JsString.SplitJoin | src/lib/auth.js:42 | splitting a join of separator-free parts gives back the parts |
| JsString.SplitLength | src/lib/auth.js:47-48 | the number of parts is one more than the number of separators |
| JsString.JoinContainsSep | src/lib/auth.js:41 | a join contains the separator exactly when there are two or more parts |
| Auth.StripBearer | src/lib/auth.js:35-38 | the token after trimming and stripping the prefix has no white space at either end |
| Auth.KeepNonEmpty | src/lib/auth.js:42 | the filter keeps only non-empty elements of the input, all of them when none is empty, and none when all are empty. `Auth.KeepsEveryNonEmpty` and `Auth.LastKept` give that none is dropped and which one comes last |
| Auth.KeepsEveryNonEmpty | src/lib/auth.js:42 | the filter drops no non-empty element |
| Auth.LastKept | src/lib/auth.js:42-43 | the filter's last element is the input's last non-empty element, and only empty elements follow it |
| Auth.NothingKept | src/lib/auth.js:42 | the filter keeps nothing exactly when every element is empty |
| Auth.TrimEach | src/lib/auth.js:42 | definition of `.map((t) => t.trim())`, element by element. `Auth.SegmentsArePieces` and `Auth.LastSegmentIsLastNonBlank` state its effect |
| Auth.CommaSegments | src/lib/auth.js:42 | definition of the split, trim and filter pipeline on one token. `Auth.SegmentsArePieces` states what it keeps |
| Auth.AllTrimBlank | src/lib/auth.js:42 | every comma part trims to the empty string exactly when the pipeline keeps nothing |
| Auth.SegmentsArePieces | src/lib/auth.js:42 | every kept comma segment is non-empty, trimmed and comma-free |
| Auth.LastCommaSegment | src/lib/auth.js:41-44 | a token without a comma is kept. A token with one becomes its last non-empty trimmed segment. There is no result exactly when no such segment exists |
| Auth.LastSegmentIsLastNonBlank | src/lib/auth.js:41-43 | the kept token is the trimmed `j`-th comma part, where `j` is the last part that does not trim to the empty string |
| Auth.NoSegmentWhenAllBlank | src/lib/auth.js:41-43 | with a comma, there is no segment exactly when every comma part trims to the empty string |
| Auth.Shape | src/lib/auth.js:41-53 | definition of the comma branch followed by the three-part test. `Auth.CandidateShape` and `Auth.ThrowsOnlyWhenUndefined` state its outcomes |
| Auth.Sanitise | src/lib/auth.js:29-53 | definition of every step before the verifier. `Auth.MissingTokenRejected`, `Auth.TrimmedTokenSame`, `Auth.BearerPrefixIgnored` and `Auth.CandidateShape` state what it does |
| Auth.GetTokenPayload | src/lib/auth.js:28-99 | definition of `getTokenPayload` without its logging. `Auth.VerifierOutcome`, `Auth.VerifierOnlyForCandidate`, `Auth.OnlyToleranceSixtyMatters` and `Auth.ThrowsOnlyWhenUndefined` state how it settles |
| Auth.MissingTokenRejected | src/lib/auth.js:29-32 | an absent or empty token gives `false` whatever the verifier would say |
| Auth.VerifierOnlyForCandidate | src/lib/auth.js:29-53 | the verifier matters only for a token that passes the clean-up; otherwise the result is `false`, or an exception in the undefined-segment case |
| Auth.OnlyToleranceSixtyMatters | src/lib/auth.js:61-66 | two verifiers that agree at a 60-second clock tolerance give the same result |
| Auth.VerifierOutcome | src/lib/auth.js:55-98 | a verifier failure gives `false`; a verifier success gives exactly its payload |
| Auth.ThrowsOnlyWhenUndefined | src/lib/auth.js:41-47 | getTokenPayload throws if and only if the comma branch leaves no segment |
| Auth.TrimmedTokenSame | src/lib/auth.js:35 | trimming the argument beforehand never changes the result, because the token is trimmed first |
| Auth.BearerStrippedOnce | src/lib/auth.js:36-38 | `"Bearer " + t` cleans up to `t.trim()` when `t` has content |
| Auth.BearerPrefixIgnored | src/lib/auth.js:35-38 | `"Bearer " + t` and `t` get the same result unless `t` itself starts with `Bearer ` |
| Auth.BearerBeforeContent | src/lib/auth.js:35-38 | before a token with content that does not start with `Bearer `, the prefix is stripped and nothing else changes |
| Auth.BearerBeforeBlank | src/lib/auth.js:29-53 | `Bearer ` before a blank string is a one-part token, and the blank string alone is rejected as missing or one-part |
| Auth.BearerAlone | src/lib/auth.js:35-53 | `"Bearer "` followed only by white space is a one-part token |
| Auth.BearerThenBlank | src/lib/auth.js:35-38 | `Bearer ` followed only by white space cleans up to the bare word `Bearer` |
| Auth.WordHasOnePart | src/lib/auth.js:41-53 | the bare word has no comma and one dot-separated part |
| Auth.LowerCaseBearerKept | src/lib/auth.js:36 | the prefix test is case-sensitive |
| Auth.CandidateShape | src/lib/auth.js:35-53 | what reaches the verifier is trimmed, comma-free and has exactly two dots |
| Auth.CommaJoinedKeepsLast | src/lib/auth.js:41-44 | of a comma-joined list of clean tokens only the last is kept |
| Auth.OnlyCommasThrows | src/lib/auth.js:41-47 | a token of commas and white space makes getTokenPayload throw |
| Auth.CommasTrimmed | src/lib/auth.js:35-38 | cleanup of commas and white space leaves only commas and white space, with at least one comma |
| Auth.TrimOfCommas | src/lib/auth.js:35 | trimming commas and white space keeps a comma and adds nothing else |
| Auth.OnlyBlankSegments | src/lib/auth.js:42 | commas and white space alone leave no non-empty trimmed segment |
| Auth.EmptyPartsCount | src/lib/auth.js:47-48 | the three-part test counts empty parts: `a..b` reaches the verifier |
| Hooks.IsPublicPath | src/hooks.server.js:6-15 | definition of the allow-list. `Hooks.PublicPaths` and `Hooks.NotPublic` state which paths it admits |
| Hooks.SelectToken | src/hooks.server.js:19-24 | definition of the header-then-query choice. `Hooks.HeaderWins` and `Hooks.QueryFallback` state it |
| Hooks.StripLeadingComma | src/hooks.server.js:30-31 | definition of the leading-comma strip. `Hooks.StripOneComma`, `Hooks.OneCommaStripped` and `Hooks.LeadingCommaHarmless` state its effect |
| Hooks.Context | src/hooks.server.js:38-44 | definition of the object merged into `event.locals`. `Hooks.ContextFields` states its keys and fallbacks |
| Hooks.Gate | src/hooks.server.js:4-47 | definition of the gate's decision. `Hooks.PublicPathPasses`, `Hooks.NoTokenRejected`, `Hooks.RejectedTokenGets401` and `Hooks.Handle` state it |
| Hooks.Resolve | src/hooks.server.js:16 | resolving runs the route once and leaves `locals` alone |
| Hooks.Handle | src/hooks.server.js:4-47 | the method returns and updates `locals` as the decision `Gate` says. It resolves only on a pass or an accepted token. It changes no key of `locals` outside the four it copies |
| Hooks.PublicPaths | src/hooks.server.js:6-15 | the five exact paths and everything under the three prefixes are public |
| Hooks.NotPublic | src/hooks.server.js:6-15 | `/user`, `/form` and `/admin/forms` are not public |
| Hooks.PublicPathPasses | src/hooks.server.js:6-17 | a public path passes whatever token the request carries |
| Hooks.HeaderWins | src/hooks.server.js:20-24 | with a non-empty header the query parameter is never looked at |
| Hooks.QueryFallback | src/hooks.server.js:22-24 | an absent or empty header falls back to the query parameter |
| Hooks.NoTokenRejected | src/hooks.server.js:26-28 | without a token a protected path gets 401 `Not authenticated` |
| Hooks.LeadingCommaHarmless | src/hooks.server.js:30-33 | one leading comma makes no difference to the outcome |
| Hooks.StripOneComma | src/hooks.server.js:31 | `,` before a trimmed token is removed and nothing else changes |
| Hooks.OneCommaStripped | src/hooks.server.js:31 | only the first leading comma is removed |
| Hooks.RejectedTokenGets401 | src/hooks.server.js:33-36 | a token getTokenPayload rejects gets 401 `Invalid token` |
| Hooks.ContextFields | src/hooks.server.js:38-44 | the copied context has exactly the four keys, with `avatar_id` defaulting to `default` and `domain_tags` to `[]` |
| Store.FindFirst | src/routes/.well-known/placenet/admin/+page.server.js:159-164 | definition of the lookup by id and domain. `AdminPage.ForeignFormNotFound` and `AdminPage.DeleteRemovesOne` state its effect on the raw `forms` table |
| Store.Database.CreateDomain | src/routes/.well-known/placenet/admin/+page.server.js:37-41 | the domain is added and the forms are unchanged |
| Store.Database.CreateForm | src/routes/.well-known/placenet/admin/+page.server.js:111-118 | the row is stored under the next, unused id and nothing else changes |
| Store.Database.DeleteForm | src/routes/.well-known/placenet/admin/+page.server.js:171-173 | exactly that row is removed |
| Store.Database.SetActive | src/routes/.well-known/placenet/admin/+page.server.js:280-283 | only `is_active` of that row changes |
| AdminPage.AdminAccess | src/routes/.well-known/placenet/admin/+page.server.js:9-25 | definition of the 401 ladder. `AdminPage.AdminChecksInOrder` and `AdminPage.AccessChecksAgree` state it |
| AdminPage.ActionAccess | src/routes/.well-known/placenet/admin/+page.server.js:141-149 | definition of the combined check of the three form actions. `AdminPage.AccessChecksAgree` and `AdminPage.ActionsCheckAuthBeforeFormId` state it |
| AdminPage.DomainForms | src/routes/.well-known/placenet/admin/+page.server.js:45-60 | definition of the listing of one domain's forms. `AdminPage.LoadListsDomainForms` states it |
| AdminPage.LoadStep | src/routes/.well-known/placenet/admin/+page.server.js:6-70 | specification of `load` on the tables. `AdminPage.Load` is proved equal to it; `AdminPage.LoadListsDomainForms` and `AdminPage.RefusedLoadChangesNothing` state what it does |
| AdminPage.CreateFormStep | src/routes/.well-known/placenet/admin/+page.server.js:73-132 | specification of `createForm`. `AdminPage.CreateForm` is proved equal to it; `AdminPage.CreateAddsOneForm`, `AdminPage.CreateNeedsTitle` and `AdminPage.CreateStaysInDomain` state what it does |
| AdminPage.DeleteFormStep | src/routes/.well-known/placenet/admin/+page.server.js:134-180 | specification of `deleteForm`. `AdminPage.DeleteForm` is proved equal to it; `AdminPage.DeleteRemovesOne` and `AdminPage.ForeignFormNotFound` state what it does |
| AdminPage.Copy | src/routes/.well-known/placenet/admin/+page.server.js:219-227 | definition of the row `duplicateForm` inserts. `AdminPage.DuplicateAddsCopy` states its fields |
| AdminPage.DuplicateFormStep | src/routes/.well-known/placenet/admin/+page.server.js:182-240 | specification of `duplicateForm`. `AdminPage.DuplicateForm` is proved equal to it; `AdminPage.DuplicateAddsCopy` and `AdminPage.DuplicateStaysInDomain` state what it does |
| AdminPage.SubmittedActive | src/routes/.well-known/placenet/admin/+page.server.js:246 | definition of `isActive === 'true'`. `AdminPage.ToggleStoresNegatedSubmission` states its use |
| AdminPage.ToggleMessage | src/routes/.well-known/placenet/admin/+page.server.js:286 | definition of the success message. `AdminPage.ToggleMessageNamesState` states which message goes with which state |
| AdminPage.ToggleActiveStep | src/routes/.well-known/placenet/admin/+page.server.js:242-293 | specification of `toggleActive`. `AdminPage.ToggleActive` is proved equal to it; `AdminPage.ToggleStoresNegatedSubmission` states what it does |
| AdminPage.Load | src/routes/.well-known/placenet/admin/+page.server.js:6-70 | the database and the result follow `LoadStep` applied to what getTokenPayload returned for the token |
| AdminPage.CreateForm | src/routes/.well-known/placenet/admin/+page.server.js:73-132 | the database and the result follow `CreateFormStep` applied to what getTokenPayload returned for the token |
| AdminPage.DeleteForm | src/routes/.well-known/placenet/admin/+page.server.js:134-180 | the database and the result follow `DeleteFormStep` applied to what getTokenPayload returned for the token |
| AdminPage.DuplicateForm | src/routes/.well-known/placenet/admin/+page.server.js:182-240 | the database and the result follow `DuplicateFormStep` applied to what getTokenPayload returned for the token |
| AdminPage.ToggleActive | src/routes/.well-known/placenet/admin/+page.server.js:242-293 | the database and the result follow `ToggleActiveStep` applied to what getTokenPayload returned for the token |
| AdminPage.AdminChecksInOrder | src/routes/.well-known/placenet/admin/+page.server.js:9-25 | the first failing check decides, in the order token, payload, admin role, domain, each with its own 401 message |
| AdminPage.AccessChecksAgree | src/routes/.well-known/placenet/admin/+page.server.js:82-101 | `load`/`createForm` and the combined check of the other actions accept the same tokens for the same domain, and both only ever deny with 401 |
| AdminPage.LoadListsDomainForms | src/routes/.well-known/placenet/admin/+page.server.js:27-65 | after a load the domain exists, only the domain set may grow, the token is echoed, and exactly the domain's forms are listed with hashid and count |
| AdminPage.RefusedLoadChangesNothing | src/routes/.well-known/placenet/admin/+page.server.js:9-25 | a refused load gives no data and changes nothing |
| AdminPage.CreateChecksAuthBeforeTitle | src/routes/.well-known/placenet/admin/+page.server.js:82-107 | a token that is refused gets 401 (never the 400 for the title) and nothing changes |
| AdminPage.CreateNeedsTitle | src/routes/.well-known/placenet/admin/+page.server.js:105-107 | an absent or empty title is a 400 and inserts nothing |
| AdminPage.CreateAddsOneForm | src/routes/.well-known/placenet/admin/+page.server.js:109-124 | a create inserts exactly one new row in the token's domain, with fields `[]`, and returns the new id's hashid |
| AdminPage.ActionsCheckAuthBeforeFormId | src/routes/.well-known/placenet/admin/+page.server.js:139-153 | delete, duplicate and toggle refuse the same tokens identically, with 401, before looking at the form id, and change nothing |
| AdminPage.ActionsNeedFormId | src/routes/.well-known/placenet/admin/+page.server.js:151-153 | an authorised request without a form id is a 400 in all three actions and changes nothing |
| AdminPage.ForeignFormNotFound | src/routes/.well-known/placenet/admin/+page.server.js:157-168 | a form that is absent or belongs to another domain is a 404 in all three actions and changes nothing |
| AdminPage.CreateStaysInDomain | src/routes/.well-known/placenet/admin/+page.server.js:103-118 | a create changes no existing form and adds only a form of the token's domain |
| AdminPage.DeleteStaysInDomain | src/routes/.well-known/placenet/admin/+page.server.js:155-173 | a delete removes no form of another domain |
| AdminPage.DuplicateStaysInDomain | src/routes/.well-known/placenet/admin/+page.server.js:203-227 | a duplicate changes no existing form and adds only a form of the token's domain |
| AdminPage.ToggleStaysInDomain | src/routes/.well-known/placenet/admin/+page.server.js:264-283 | a toggle changes no form of another domain |
| AdminPage.LoadKeepsIdsFresh | src/routes/.well-known/placenet/admin/+page.server.js:29-42 | a load keeps the next id above every id in use |
| AdminPage.CreateKeepsIdsFresh | src/routes/.well-known/placenet/admin/+page.server.js:109-118 | a create keeps the next id above every id in use |
| AdminPage.DeleteKeepsIdsFresh | src/routes/.well-known/placenet/admin/+page.server.js:170-173 | a delete keeps the next id above every id in use |
| AdminPage.DuplicateKeepsIdsFresh | src/routes/.well-known/placenet/admin/+page.server.js:218-227 | a duplicate keeps the next id above every id in use |
| AdminPage.ToggleKeepsIdsFresh | src/routes/.well-known/placenet/admin/+page.server.js:279-283 | a toggle keeps the next id above every id in use |
| AdminPage.DeleteRemovesOne | src/routes/.well-known/placenet/admin/+page.server.js:166-175 | deleting a form of the domain removes exactly that row and reports success |
| AdminPage.DuplicateAddsCopy | src/routes/.well-known/placenet/admin/+page.server.js:205-231 | duplicating inserts one inactive copy titled `<title> (Copia)` with the same description and fields, under a new id, and leaves the original as it was |
| AdminPage.ToggleMessageNamesState | src/routes/.well-known/placenet/admin/+page.server.js:285-288 | the message says `activated` exactly when the form is now active, and `deactivated` exactly when it is not |
| AdminPage.ToggleStoresNegatedSubmission | src/routes/.well-known/placenet/admin/+page.server.js:246-288 | toggling sets `is_active` to the negation of the submitted flag, not of the stored one. It changes nothing else and reports the new state |
| UserPage.UserAccess | src/routes/user/+page.server.js:9-21 | definition of the user page's checks. `UserPage.UserChecksInOrder` states them |
| UserPage.ActiveForms | src/routes/user/+page.server.js:27-41 | definition of the listing of a domain's active forms. `UserPage.PageListsActiveDomainForms` and `UserPage.OtherFormsHidden` state it |
| UserPage.Or | src/routes/user/+page.server.js:45-48 | definition of `a \|\| b` for optional strings. `UserPage.DisplayNamesFallBack` states its use |
| UserPage.UserLoad | src/routes/user/+page.server.js:9-49 | definition of `load` given what getTokenPayload made of the token. The `UserPage` lemmas state what it returns |
| UserPage.Load | src/routes/user/+page.server.js:6-55 | definition of `load` with getTokenPayload applied to the `token` parameter |
| UserPage.UserChecksInOrder | src/routes/user/+page.server.js:9-21 | the first failing check decides, in the order token, payload, domain; the role is not read |
| UserPage.AdminMayUseUserPage | src/routes/user/+page.server.js:9-21 | every token the admin panel accepts opens the user page for the same domain |
| UserPage.NonAdminTokenAccepted | src/routes/user/+page.server.js:19-23 | a verified non-admin token with a domain opens the user page but not the admin panel |
| UserPage.PageListsActiveDomainForms | src/routes/user/+page.server.js:25-49 | the page echoes the token and lists exactly the active forms of the domain, with title, description and hashid |
| UserPage.OtherFormsHidden | src/routes/user/+page.server.js:27-33 | inactive forms and forms of other domains are never listed |
| UserPage.DisplayNamesFallBack | src/routes/user/+page.server.js:45-48 | `avatar_name` falls back to `avatar_id` and `domain_name` to `domain_id`, so the domain name is never empty |
| UserPage.RefusedGetsNoPage | src/routes/user/+page.server.js:9-21 | a refused request gets no page, only a 401 or the exception |

## Left out

- JWT verification itself is a function parameter: the JWKS client, its 10-minute cache and rate limit, `getKey`, signatures and expiry. It depends on the network, the clock and cryptography. The model fixes only what is handed to it: the cleaned token and `clockTolerance: 60`.
- Logging (`console.log`/`console.error`) and the diagnostic `jwt.decode` calls are left out. They change no result but one.
- Auth.GetTokenPayload: does not model the exception the expiry diagnostics can raise. That case is an expired token whose signature checks out and whose truthy `iat` or `exp` is not a valid time (for example `"x"`, `1e13` or `-1e13`). `new Date(...).toISOString()` then throws a RangeError inside the `catch` (src/lib/auth.js:89-90), so `getTokenPayload` rejects instead of returning `false`, and the gate answers with a 500 instead of the 401 `Invalid token`. The verifier here answers only with claims or a failure. That case depends on what the token issuer puts into `iat` and `exp`.
- The order of listed forms (`orderBy: { updated_at: 'desc' }`) is left out. Listings are maps from id to row, so they carry no order.
- `updated_at` and the other timestamps are left out.
- Cascade deletion of submissions is left out, because the submissions table is not modelled.
- The 500 responses from the `catch` blocks are left out, because database failures are not modelled.
- `encodeFormId` is a function parameter, because its hashid library is outside this model.
- Submission counts are a function parameter, because the submissions table is not modelled.
- Form ids: the actions see the form id as already parsed. An absent or empty `formId` is `None`. `parseInt` of a non-numeric string, and the database error it causes, are not modelled.
- Form data: `title`, `description` and `isActive` are optional strings. File uploads in form data are not modelled.
- The schema default of `is_active` is a constant of the `Database`, because the Prisma schema is not part of this model.
- Claims are strings, and `domain_tags` is a string list. Payloads in other shapes (numbers, objects, or a string payload from `jwt.verify`) are not modelled.
- Characters are Unicode scalar values, not UTF-16 code units. Every character that `trim` and the separators involve lies in the Basic Multilingual Plane, so the modelled results are the same.
- `test-jwt.js` is not part of this model.
- The public form routes (`forms/+server.js` and the views endpoints) are not part of this model.
