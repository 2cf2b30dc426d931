# Session and request core of the musings-blog client, in Dafny

This project models the authentication core of a React blog client and proves properties about it:

- the auth provider's session: the token, a placeholder user, and the `authToken` entry in browser storage;
- the provider's operations `login` and `logout`, and the effect that keeps storage and user in step with the token;
- the `ProtectedRoute` guard;
- the decision logic the pages repeat around their requests:
  - the login page's destination and toast;
  - the sign-up page's ordered checks;
  - the token guard, `Bearer` header and 401/403 interception of the create-post and profile pages;
  - the challenge check and hand-off of the validation page.

Browser effects are not performed. Each operation receives the server's answer as a value: a `FetchOutcome`, which is either a response (status plus a body that parsed or did not) or a rejected `fetch`. Each operation returns what it would do as values: the new state, and the effects in source order. The effects are `Send(request)`, `CallUnauthorized` and `Navigate(location, replace)`.

Modules:

- `Wrappers`, `Decimal`, `Pairs`, `Http`, `Router`, `Effects`: shared vocabulary.
  - `Decimal` renders a status number as `${status}` does and parses it back.
  - `Pairs` is the "first pair with this key" lookup behind `URLSearchParams.get` and header lookup.
  - `Http` holds the JavaScript `||` chains over possibly missing strings, where `""` is falsy.
- `Interceptor`: the 401/403 check shared by the create-post and profile pages.
- `AuthContext`, `ProtectedRoute`, `LoginPage`, `SignUpPage`, `CreatePostPage`, `ProfilePage`, `ValidateUserPage`: one module per source file.
- `Flows`: properties spanning several files.

In these respects the code behaves differently from what a reader might expect, and the model follows the code:

- `isAuthenticated` is `!!token`, so an empty stored token counts as logged out.
- `login` gives 401 and 403 no special treatment; they fail like any other non-ok status.
- A page with no token does not send an unauthenticated request. It shows an error and sends nothing.
- `handleUnauthorized` is never defined by the provider. It is modelled only as a callback that the pages invoke. The model gives it no clearing, no redirect, no "expired" flag and no idempotence (see Findings).
- The user object is a placeholder set from token presence. It is `User` at start-up and `AuthenticatedUser` once the token effect has run.

## Model

| member | source | states |
|---|---|---|
| Decimal.NatToString | src/context/AuthContext.jsx:51 | the status text is a non-empty numeral of digits with no leading zero |
| Decimal.ParseNatToString | src/context/AuthContext.jsx:51 | reading the rendered status back as a decimal gives the status |
| Decimal.NatToStringInjective | src/pages/SignUpPage.jsx:73 | different statuses render differently |
| Http.StatusMessage | src/pages/ProfilePage.jsx:47 | a fallback message starts with its fixed prefix, followed by the status as a numeral without leading zeros, from which the status can be recovered |
| Http.StatusMessageInjective | src/pages/CreatePostPage.jsx:75 | two statuses give the same fallback message only if they are equal |
| Http.DetailOrMessage | src/pages/CreatePostPage.jsx:78 | `detail` wins when truthy, then `message`, else the fallback; a result other than the fallback is a non-empty server string; a non-empty fallback gives a non-empty message |
| Http.Authorization | src/pages/CreatePostPage.jsx:58-61 | the header is named `Authorization` and its Bearer value carries back exactly the token it was built from |
| Pairs.FirstAt | src/pages/ValidateUserPage.jsx:13-14 | a query parameter's first occurrence is what `get` returns |
| Pairs.FirstAbsent | src/pages/ValidateUserPage.jsx:14-16 | `get` returns nothing exactly when no parameter has that key |
| Interceptor.Intercept | src/pages/CreatePostPage.jsx:69-72 | the callback is invoked exactly when the context provides it; the thrown message is the page's sentinel, or a TypeError when the callback is missing |
| Interceptor.Call | src/pages/ProfilePage.jsx:37-56 | 401/403 is intercepted whatever the body; other non-ok statuses throw the `detail`/`message`/status chain with no callback; only an ok status with a parsed body yields data; a parse or network failure rethrows its message |
| Interceptor.Shown | src/pages/CreatePostPage.jsx:89-93 | the error is suppressed exactly for the sentinel; otherwise it is the thrown message, or the fallback when that message is empty |
| Interceptor.UnauthorizedIsSilent | src/pages/ProfilePage.jsx:38-64 | with a provided callback, a 401/403 calls it once and shows no message, whatever the body |
| AuthContext.Init | src/context/AuthContext.jsx:10-17 | the initial token is the stored `authToken` value; a user exists exactly when that value is truthy; storage is untouched |
| AuthContext.Sync | src/context/AuthContext.jsx:21-31 | the token is kept; a truthy token is stored and a user set, otherwise the key is removed and the user cleared; other storage keys are unchanged |
| AuthContext.Mount | src/context/AuthContext.jsx:10-31 | after start-up the session is synced and authenticated exactly when storage held a truthy token, which becomes the token |
| AuthContext.SyncIdempotent | src/context/AuthContext.jsx:21-31 | running the token effect twice is the same as once |
| AuthContext.ReloadRestoresSession | src/context/AuthContext.jsx:10-31 | restarting from what a synced session stored gives back the same session when authenticated, and an unauthenticated one otherwise |
| AuthContext.ValueAsWritten | src/context/AuthContext.jsx:90-99 | the published value's `isAuthenticated` is the truthiness of the token; it carries token and user; it has no `handleUnauthorized` |
| AuthContext.Value | src/context/AuthContext.jsx:90-99 | the same value with the callback the pages expect, and nothing else changed |
| AuthContext.EmptyTokenIsUnauthenticated | src/context/AuthContext.jsx:94 | an empty token is not authenticated |
| AuthContext.LoginRequest | src/context/AuthContext.jsx:37-48 | the login request is a POST to `/api/token` with no extra headers and a form of exactly `username` then `password` |
| AuthContext.Classify | src/context/AuthContext.jsx:50-73 | a token is granted exactly for an ok, parsed answer with a truthy `access_token`; non-ok statuses, 401 and 403 included, refuse with `detail` or `Login failed with status: N`; an ok answer without a token refuses with the missing-token message; rejections rethrow their message |
| AuthContext.RefusalNamesStatus | src/context/AuthContext.jsx:50-59 | a non-ok refusal names either the server's `detail` or the status itself, which can be read back |
| AuthContext.Destination | src/context/AuthContext.jsx:69 | the post-login path is never empty, and is `from` when `from` is given |
| AuthContext.Login | src/context/AuthContext.jsx:34-80 | the request is always sent first; success sets only the token, returns `{username}` with the submitted name and navigates to `from`, or to `/` when `from` is empty, replacing history; any refusal leaves the session unchanged and does nothing more |
| AuthContext.Logout | src/context/AuthContext.jsx:83-87 | the token becomes null and the session unauthenticated; no request; one replacing navigation to `/`; user and storage wait for the effect |
| AuthContext.LoginLogoutStorage | src/context/AuthContext.jsx:21-87 | after a granted login and the effect, storage holds the issued token and a user exists; after a following logout and the effect, storage has no token and no user |
| ProtectedRoute.LoginRedirect | src/components/ProtectedRoute.jsx:24 | the redirect replaces history, goes to `/login` and carries the denied location as `from` |
| ProtectedRoute.Guard | src/components/ProtectedRoute.jsx:19-29 | allowed exactly when `isAuthenticated`; a denial is the login redirect; an allowed visit renders the given children unchanged, else the outlet |
| ProtectedRoute.GuardReadsOnlyAuthentication | src/components/ProtectedRoute.jsx:19 | two context values that agree on `isAuthenticated` get the same decision |
| ProtectedRoute.GuardAdmitsTruthyToken | src/components/ProtectedRoute.jsx:19 | over a session, the guard admits exactly the sessions with a non-empty token |
| LoginPage.From | src/pages/LoginPage.jsx:33 | the target is `state.from.pathname` when that is non-empty, otherwise `/` |
| LoginPage.ToastFor | src/pages/LoginPage.jsx:36-63 | `validationSuccess` wins over `signup=success` and is cleared by a replacing navigation to the same path; with neither flag no toast and no effect; any toast is a success |
| LoginPage.ValidationToastShownOnce | src/pages/LoginPage.jsx:44-48 | the location reached by the clearing navigation opens no toast |
| LoginPage.Submit | src/pages/LoginPage.jsx:67-81 | `login` gets the computed `from`; on failure the error is the thrown message or the fixed fallback, non-empty exactly when login was refused; loading ends false |
| SignUpPage.Utf16Length | src/pages/SignUpPage.jsx:38 | the JavaScript length lies between the number of characters and twice that; it equals the character count when all characters are in the Basic Multilingual Plane, and twice it when none are |
| SignUpPage.Utf16LengthConcat | src/pages/SignUpPage.jsx:38 | the length of a concatenation is the sum of the lengths, so each character contributes its own 1 or 2 code units |
| SignUpPage.AstralPasswordAccepted | src/pages/SignUpPage.jsx:38-41 | a password of three astral characters has length 6 and passes every check when both names are given |
| SignUpPage.SignUpRequest | src/pages/SignUpPage.jsx:52-70 | a POST to `/api/users/` with JSON content and accept headers, whose body is the payload |
| SignUpPage.Check | src/pages/SignUpPage.jsx:34-46 | the mismatch message exactly when the passwords differ; the length message exactly when they match but are short; the name message exactly when both pass and a name is empty; none otherwise |
| SignUpPage.PayloadFields | src/pages/SignUpPage.jsx:53-59 | the payload maps `givenName` to `given_name` and `familyName` to `family_name`, and carries username, email and password verbatim; the camel-case keys and the confirmation are absent |
| SignUpPage.FailureMessage | src/pages/SignUpPage.jsx:72-83 | non-empty; the `detail`/`message`/status chain for a parsed body; the status message plus the could-not-parse suffix otherwise |
| SignUpPage.Submit | src/pages/SignUpPage.jsx:29-100 | a failed check shows its message, sends nothing and leaves loading alone; otherwise the request goes first and loading ends false; success navigates to `/login?signup=success` with no error; the error is empty exactly on success |
| SignUpPage.SendsOnlyWhenValid | src/pages/SignUpPage.jsx:34-62 | a request is sent exactly when all three checks pass |
| CreatePostPage.Author | src/pages/CreatePostPage.jsx:49 | the author is the user's non-empty name, else `Unknown Author` |
| CreatePostPage.Fields | src/pages/CreatePostPage.jsx:44-53 | the text fields `title`, `snippet`, `content`, `date` with the form's values and `author`, in that order, then `image_file` exactly when a file was picked |
| CreatePostPage.SuccessMessage | src/pages/CreatePostPage.jsx:84 | the banner quotes the created post's title, and reads `undefined` when the answer has no title |
| CreatePostPage.PostRequest | src/pages/CreatePostPage.jsx:55-67 | a POST to `/api/posts/` whose Authorization header carries back the current token, with the form as body |
| CreatePostPage.Submit | src/pages/CreatePostPage.jsx:32-97 | no truthy token gives the login message and no request; otherwise the Bearer request goes first, then the interceptor's effects; success sets the banner and navigates to `/`; failures show the intercepted message rule; loading ends false |
| CreatePostPage.UnauthorizedIsSilent | src/pages/CreatePostPage.jsx:69-93 | with the callback provided, a 401/403 sends, calls the callback, and shows neither error nor banner |
| CreatePostPage.UnauthorizedAsWritten | src/pages/CreatePostPage.jsx:69-72 | with the context as written, a 401/403 calls nothing and shows the TypeError message |
| CreatePostPage.OtherStatusShown | src/pages/CreatePostPage.jsx:74-93 | any other failed status invokes no callback and shows its non-empty chained message, unless that message equals the sentinel |
| ProfilePage.ProfileRequest | src/pages/ProfilePage.jsx:29-35 | a GET of `/api/users/me/` with no body whose Authorization header carries back the token |
| ProfilePage.Fetch | src/pages/ProfilePage.jsx:14-68 | no truthy token gives `Not authenticated.` and no request; otherwise the Bearer GET goes first; success stores the parsed body as profile; failures keep the old profile and show the intercepted message rule; loading ends false |
| ProfilePage.UnauthorizedIsSilent | src/pages/ProfilePage.jsx:38-64 | with the callback provided, a 401/403 calls it after the request and shows no error |
| ProfilePage.UnauthorizedAsWritten | src/pages/ProfilePage.jsx:38-42 | with the context as written, a 401/403 calls nothing and shows the TypeError message |
| ProfilePage.OtherStatusShown | src/pages/ProfilePage.jsx:46-64 | any other failed status invokes no callback and shows its non-empty chained message, unless that message equals the sentinel |
| ValidateUserPage.ValidateRequest | src/pages/ValidateUserPage.jsx:28-35 | the JSON body has exactly one member, `challenge`, holding the parameter |
| ValidateUserPage.Run | src/pages/ValidateUserPage.jsx:12-59 | a missing or empty challenge shows its message, sends nothing and stops loading; success navigates to `/login` with `validationSuccess`; failures show the chained or rejection message; an error is shown exactly when loading stopped |
| Flows.DeniedVisitResumesAfterLogin | src/components/ProtectedRoute.jsx:19-24 | a denied visit, then a granted login on the redirect target, navigates back to the denied path and stores the token, and the guard then admits the visit |
| Flows.SignUpLandsOnSignUpToast | src/pages/SignUpPage.jsx:92 | the sign-up success navigation reaches a login location that opens the sign-up toast |
| Flows.ValidationLandsOnValidationToast | src/pages/ValidateUserPage.jsx:51 | the validation success navigation reaches a login location that opens the validation toast, with `/` as the post-login target |
| Flows.ReplayTracksCredential | src/context/AuthContext.jsx:21-87 | through any run of logins and logouts the session stays synced, and its token is the one the last logout or granted login decided; refused logins change nothing |
| Flows.AliceScenario | src/context/AuthContext.jsx:34-87 | alice, answered with `tok123`, is logged in, stored, sent to her intended path, and logging out clears storage |

## Findings

| source | as written | input that shows it | evidently intended | confidence | as-written member | corrected member |
|---|---|---|---|---|---|---|
| src/context/AuthContext.jsx:90-99 | The context value has no `handleUnauthorized`, yet the create-post page calls it on 401/403. The call throws a TypeError, whose message is shown; nothing is redirected. | a logged-in create-post submit answered with status 401 | the callback is provided and invoked; no inline error is shown | high, not executed | CreatePostPage.UnauthorizedAsWritten | CreatePostPage.UnauthorizedIsSilent |
| src/context/AuthContext.jsx:90-99 | The same missing member breaks the profile fetch. A 401/403 shows the TypeError message instead of being suppressed. | a logged-in profile fetch answered with status 403 | the callback is provided and invoked; no inline error is shown | high, not executed | ProfilePage.UnauthorizedAsWritten | ProfilePage.UnauthorizedIsSilent |

The TypeError text is V8's wording, `handleUnauthorized is not a function`. Other engines word it differently. Any non-empty wording other than the page's sentinel is shown the same way. The rest of the model uses the corrected `AuthContext.Value`.

## Left out

- `fetch`, `FormData`, JSON parsing and `URLSearchParams` parsing are abstract. A response is a status plus either parsed string members or a parse-failure message. A query is its decoded pairs.
- Non-string JSON members are not modelled. An example is a list-valued `detail` from a validation error, which `new Error(...)` would stringify.
- A parsed body of `null` is not modelled separately. In the `detail`/`message` error chains it makes the property read throw inside the inner `try`. On the login success path (src/context/AuthContext.jsx:63-65) and the create-post success path (src/pages/CreatePostPage.jsx:83-84) reading `access_token` or `title` throws. On those paths it behaves like an unparsable body.
- A success body that is JSON but not an object (`null`, an array, a string, a number) is not modelled. The profile page would store it as the profile and show no error.
- `localStorage` is a map from strings to strings. Storage exceptions, such as a full quota or disabled storage, are not modelled.
- React scheduling is flattened. The token effect is an explicit `Sync` step after each token change and at mount. Re-renders, memoisation and the window between `setToken` and the effect are not modelled. In that window the user is still the old value.
- `handleUnauthorized` has no behaviour beyond being invoked, because the code never defines one. Session clearing, an "expired" flag and idempotent redirects are absent from the code. So are concurrent-401 handling, request cancellation and stale-response discarding.
- The `useAuth` provider check is not modelled. It can never fire, because the default context is `null`, not `undefined`.
- Presentation is not modelled: JSX and MUI rendering, the Markdown preview, `console` logging, the toast auto-hide timer and `handleCloseToast`.
- The create-post date default from `new Date()` is a clock read. The date is taken as a form input.
- `handleImageChange` is not modelled. The picked file is an optional input.
- The commented-out loading branch of `ProtectedRoute` is not modelled.
- Only `SignUpRequest` states its `Accept` and `Content-Type` headers. The create-post and profile requests carry `Accept` and no `Content-Type`. The validation request carries both. Their contracts do not mention them.
- Routing is not modelled. The cross-page flows assume the login page is mounted at `/login` and the guard wraps the protected pages. The route table in src/App.jsx routes neither.
