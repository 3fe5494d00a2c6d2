# Login page client: a Dafny model

This project models the logic of a small browser client. A super-admin signs in on a login form. The client stores the session token it gets back in `localStorage`, then tries once to record the user's geolocation, then opens a dashboard that fetches and lists brands with that token. An error boundary wraps both pages, and the top-level component shows a no-internet screen when the browser is offline.

The model has six modules, one per source component plus one for the page they run in:

- `Validation` (src/Login.js, `validateEmail` and `validatePassword`). Each check is the language of its JavaScript regular expression, written as a predicate over characters. Lemmas restate each language in plain terms, in both directions, and check sample inputs. JavaScript's `\s`, `.` and `\d` are spelled out exactly: the ECMAScript whitespace set, "any character but a line terminator", and ASCII digits.
- `Browser`: `localStorage` as a `map<string, string>` with get, set and remove; the router's location; the HTTP requests issued. The `Host` class holds these as fields.
- `Login` (src/Login.js). `LoginForm` is a class with the component's state (`email`, `password`, `error`, `successMessage`). `HandleSubmit` updates it and the `Host` step by step, just as the handler does. The login response and the geolocation answer are inputs. Each step is recorded in a ghost `trace`. The method's postcondition ties that trace to the pure function `SubmitEffects`, and the new state to `Replay` of those effects on the old state. Ordering (validation before any request, messages cleared before the request, token stored before any geolocation step) is proved about `SubmitEffects`. End states (what is stored, where the page goes, which message shows) are proved about `Replay`.
- `Dashboard` (src/Dashboard.js). The `Dashboard` class holds `brands`, `error` and `loading`, with the same trace-and-replay scheme. It has `FetchBrands`, the effect on `isOnline`, `HandleRetry` and `HandleLogout`. The pure `SelectScreen` chooses what to render.
- `Boundary` (src/ErrorBoundary.js). The `ErrorBoundary` class has its `hasError` flag, the catch and retry transitions, and `Render`.
- `App` (src/App.js). The screen selection is a pure function of `isOnline` and the route path.

Some behaviours follow from the code as written:

- A login whose response has no `token` field still stores a value: the text `"undefined"` (`MissingTokenStoredAsUndefined`).
- Navigation to the dashboard happens inside a geolocation callback, or in the unsupported branch. If the browser never answers the position request (the `Pending` outcome), the token is stored but the page does not navigate (`NavigationIff`).
- `fetchBrands` never clears `error` on success. In src/Dashboard.js taken on its own, a successful fetch after a failed one brings in new brands while the old error stays on screen (`ReconnectKeepsStaleError`). In the assembled app this cannot happen on reconnect: while offline, src/App.js:13-15 renders the no-internet screen instead of the router, so the dashboard is unmounted and mounts afresh when the page is back online. `fetchBrands` also never sets `loading` back to true, so during a retry the old list is shown rather than "Loading..." (`RetryInFlightShowsList`).
- The dashboard's `if (error)` and `getItem('fullName') || 'User'` use JavaScript truthiness. An empty error message shows the list, and an empty stored name greets "User".

The code has no malformed-token error, writes no display name at login, leaves `fullName` in storage at logout, has no double-submit guard and no offline check before Retry, and the model has none either. For example, Retry fetches even from the offline screen (`RetryOutcome` has no connectivity argument), and logout leaves `fullName` in storage (`LogoutClearsSession`).

## Model

| member | source | states |
|---|---|---|
| Validation.ValidateEmail | src/Login.js:13-16 | the email pattern's language; an accepted address has at least 5 characters and holds an '@' and a '.' |
| Validation.EmailShapeIff | src/Login.js:13-16 | the email pattern accepts s iff s is a non-empty local part without '@' or whitespace, then '@', then a domain without '@' or whitespace holding a '.' that is neither its first nor its last character |
| Validation.EmailHasOneAt | src/Login.js:14 | an accepted address holds exactly one '@' |
| Validation.EmailHasNoWhitespace | src/Login.js:14 | an accepted address holds no JavaScript whitespace character anywhere |
| Validation.EmailExamples | src/Login.js:13-16 | "a@b.com" is accepted; "bad", "a@b", "a b@c.d" and "a@@b.c" are rejected |
| Validation.ValidatePassword | src/Login.js:19-22 | the password pattern's language; an accepted password has at least 8 characters and no whitespace |
| Validation.PasswordRuleIff | src/Login.js:19-22 | the password pattern accepts p iff p has at least 8 characters, all ASCII letters, digits or one of @$!%*?&, and contains a letter, a digit and one of those symbols (the lookaheads reduce to "contains" because the whitelist admits no line terminator) |
| Validation.ForeignCharRejects | src/Login.js:20 | one character outside the whitelist, anywhere, rejects the password |
| Validation.PasswordAccepted | src/Login.js:19-22 | "Passw0rd!" is accepted |
| Validation.PasswordRejected | src/Login.js:20 | "Passw0rd#" and "Pass w0rd!" (foreign character) and "Pa0!" (too short) are rejected |
| Validation.PasswordNeedsEveryClass | src/Login.js:20 | the whitelisted 9-character samples "Password!" (no digit) and "Passw0rdd" (no symbol) are rejected |
| Browser.GetItem | src/Dashboard.js:16 | getItem gives the stored string for a present key and nothing (null) for an absent one |
| Browser.WithItem | src/Login.js:64 | after setItem the key reads back the value, and every other key reads as before |
| Browser.WithoutItem | src/Dashboard.js:50-51 | after removeItem the key is absent, every other key reads as before, and removing an absent key changes nothing |
| Browser.Perform | src/Dashboard.js:50-54 | one page action changes only its own part of the page: a send appends exactly its request; a navigation moves the location to its path and nothing else does; setItem and removeItem change storage exactly as WithItem and WithoutItem (their key only) and nothing else touches storage |
| Browser.Host.Do | src/Login.js:64 | one page action (set, remove, send, ask for position, navigate) changes the host state exactly as Perform says |
| Login.LoginForm.constructor | src/Login.js:6-9 | the form starts with empty email, password, error and success message |
| Login.LoginForm.SetEmail | src/Login.js:115 | the email input's change handler sets `email` |
| Login.LoginForm.SetPassword | src/Login.js:126 | the password input's change handler sets `password` |
| Login.TokenText | src/Login.js:60-64 | `String(token)` as stored: a received token is stored as itself, an absent one as "undefined", so any stored text other than "undefined" is exactly the token received |
| Login.GeolocationEffects | src/Login.js:66-93 | the position is asked for, as the first effect, exactly when the API exists; the navigation to '/dashboard' is the last effect exactly when a callback ran or the API is missing, and there is no other navigation; no login request is issued |
| Login.ResponseEffects | src/Login.js:55-99 | after the request: no further request; a failure leaves exactly its message in `error`; a readable body, with or without a `token` field, stores the token text first and then runs the geolocation step |
| Login.SubmitEffects | src/Login.js:24-100 | the handler always starts by setting `error`; it issues a request iff both checks pass, and any request is the third effect and carries the email, the password and role 'super_admin' |
| Login.LoginForm.HandleSubmit | src/Login.js:24-100 | the handler performs exactly SubmitEffects(email, password, response, geo), in order, and the form and page end as those effects replayed on the old state; email and password are unchanged |
| Login.LoginForm.ReceiveResponse | src/Login.js:55-99 | after the request, the handler performs exactly the response's effects: one error message on failure, or the token write followed by the geolocation step |
| Login.LoginForm.LocateUser | src/Login.js:66-93 | the geolocation branch performs exactly the effects of the given answer (unsupported, success, error code, or no answer yet) |
| Login.LoginForm.OnPosition | src/Login.js:69-78 | the success callback stores the coordinates under 'geolocation', sets 'Login Successful!', then navigates to '/dashboard', in that order |
| Login.LoginForm.OnPositionError | src/Login.js:79-88 | the error callback sets the denied message for code 1 and the unavailable message otherwise, then navigates to '/dashboard' |
| Login.RejectedInputChangesOnlyError | src/Login.js:28-36 | when either check fails, only `error` changes: 'Invalid email format.' whenever the email fails (whatever the password), else the password message; no request is issued and storage, location and requests are unchanged |
| Login.AcceptedInputClearsThenSends | src/Login.js:38-53 | when both checks pass, `error` and then `successMessage` are cleared, then one request carrying the email, the password and role 'super_admin' is issued, and no further request follows |
| Login.ReplayAccepted | src/Login.js:38-99 | the exact end state of an accepted submission: both messages cleared, one login request recorded, then the response's outcome |
| Login.FailedLoginStoresNothing | src/Login.js:55-99 | a non-ok status, a rejected fetch or an unreadable body leaves the thrown message in `error`, writes no storage key and does not navigate |
| Login.TokenStoredBeforeGeolocation | src/Login.js:60-68 | with a readable body, with or without a `token` field, writing 'token' is the fourth effect and comes before every geolocation step |
| Login.TokenKeptAndAnsweredGeolocationNavigates | src/Login.js:64-93 | once a token arrives it stays stored whatever geolocation answers; every answered branch (success, error callback, unsupported) ends on '/dashboard', and an unanswered request leaves the location alone |
| Login.NavigationIff | src/Login.js:64-93 | the handler navigates iff both checks pass, the ok response's body is read and destructured (with or without a `token` field), and geolocation answers |
| Login.GeolocationKeyOnlyOnSuccess | src/Login.js:69-77 | the 'geolocation' key ends holding the coordinates iff the success callback ran; on every other path it is as before |
| Login.GeolocationMessages | src/Login.js:75-91 | error code 1 leaves 'Location access denied…', any other code 'Unable to retrieve your location…', unsupported 'Geolocation is not supported…'; only the success callback sets 'Login Successful!' |
| Login.MissingTokenStoredAsUndefined | src/Login.js:60-64 | a body without a token field stores the text "undefined" under 'token'; there is no malformed-token error |
| Login.SampleLogin | src/Login.js:24-93 | a@b.com / Passw0rd! answered with token tok123 stores tok123, and reaches '/dashboard' once geolocation answers |
| Dashboard.Dashboard.constructor | src/Dashboard.js:7-9 | the dashboard starts with no brands, no error and `loading` true |
| Dashboard.InitialStateShowsLoading | src/Dashboard.js:7-9 | the initial state renders Loading when online and the no-internet screen when offline |
| Dashboard.FetchEffects | src/Dashboard.js:14-34 | the only page action is the first one, the request with the stored token and window skip 1, limit 10; `brands` is set iff the body is fetched and decoded (then to its data), `error` is set iff it is not (non-ok status, rejected fetch or unreadable body); `loading` is only ever set to false, and last |
| Dashboard.ConnectivityEffects | src/Dashboard.js:37-41 | the effect does nothing iff offline; its only page action is the brand request with the stored token |
| Dashboard.RetryEffects | src/Dashboard.js:43-46 | Retry clears `error` first, then its one page action is the brand request; `loading` is never set to true and is set false last |
| Dashboard.LogoutEffects | src/Dashboard.js:48-55 | logout only acts on the page, issues no request and writes no key; it removes 'token' and 'geolocation' and ends by navigating to '/' |
| Dashboard.Dashboard.FetchBrands | src/Dashboard.js:14-34 | the fetch performs exactly FetchEffects for the stored token, in order, and the component and page end as those effects replayed |
| Dashboard.Dashboard.Fetch | src/Dashboard.js:16-33 | the request, the outcome and the `finally` step are performed in that order |
| Dashboard.FetchOutcome | src/Dashboard.js:14-34 | one fetch issues one request with the stored token as-is (absent included) and window skip 1, limit 10; it always ends with `loading` false; success replaces `brands` and keeps `error`; failure sets `error` to the message and keeps `brands`; storage and location are unchanged |
| Dashboard.Dashboard.OnConnectivity | src/Dashboard.js:37-41 | the effect on `isOnline` performs a fetch when online and nothing when offline |
| Dashboard.ConnectivityFetchesOnlyOnline | src/Dashboard.js:37-41 | offline, the effect leaves state and page exactly as they were; online, it issues one request and ends not loading |
| Dashboard.Dashboard.HandleRetry | src/Dashboard.js:43-46 | Retry performs exactly RetryEffects: clear the error, then a full fetch, with no connectivity check |
| Dashboard.RetryOutcome | src/Dashboard.js:43-46 | Retry clears `error` before the request goes out and always fetches; afterwards `error` is empty on success and holds the new message on failure |
| Dashboard.RetryInFlightShowsList | src/Dashboard.js:43-46 | `loading` is not set again, so while a retry is in flight the old list is rendered, not Loading |
| Dashboard.Dashboard.HandleLogout | src/Dashboard.js:48-55 | logout performs exactly: remove 'token', remove 'geolocation', navigate to '/' |
| Dashboard.LogoutClearsSession | src/Dashboard.js:48-55 | after logout 'token' and 'geolocation' are absent, every other key (including 'fullName') is unchanged, the location is '/', and no request is issued |
| Dashboard.Greeting | src/Dashboard.js:84 | the greeting is the stored 'fullName' when it is present and non-empty, and 'User' otherwise |
| Dashboard.SelectScreen | src/Dashboard.js:58-96 | exactly one screen, with priority offline > loading > non-empty error > brand list; the list screen carries the brands and the greeting |
| Dashboard.ReconnectKeepsStaleError | src/Dashboard.js:23-41 | for src/Dashboard.js on its own: after a failure, a successful fetch run by the `isOnline` effect replaces the brands but the old error still takes the screen |
| Boundary.DerivedStateFromError | src/ErrorBoundary.js:9-12 | the state derived from any error has `hasError` true |
| Boundary.DerivedStateIgnoresError | src/ErrorBoundary.js:9-12 | any two errors derive the same state |
| Boundary.Select | src/ErrorBoundary.js:24-35 | the fallback is rendered iff `hasError`; otherwise the children are returned unchanged |
| Boundary.ErrorBoundary.constructor | src/ErrorBoundary.js:4-7 | `hasError` starts false |
| Boundary.ErrorBoundary.Catch | src/ErrorBoundary.js:9-12 | catching any error sets `hasError`, whatever it was before, so catching again changes nothing |
| Boundary.ErrorBoundary.HandleRetry | src/ErrorBoundary.js:20-22 | retry sets `hasError` false, the initial state |
| Boundary.ErrorBoundary.Render | src/ErrorBoundary.js:24-35 | render yields the fallback iff `hasError`, else the children unchanged |
| Boundary.CatchTwiceThenRetry | src/ErrorBoundary.js:9-35 | catch, catch again, retry renders fallback, fallback, then the children |
| App.Route | src/App.js:20-23 | '/' selects Login, '/dashboard' selects Dashboard, any other path selects nothing |
| App.App | src/App.js:7-25 | offline gives the no-internet screen and nothing else; online gives the boundary around the route matched to the path |
| App.OfflineRendersNoPage | src/App.js:11-15 | offline, neither Login nor Dashboard is rendered, whatever the path or the boundary's state |
| App.OnlineRoutes | src/App.js:20-23 | online and with no caught error, Login shows iff the path is '/' and Dashboard shows iff it is '/dashboard' |
| App.BoundaryCoversBothRoutes | src/App.js:19-24 | both routes sit inside the boundary: online with a caught error, the fallback shows whatever the path |
| App.DashboardOfflineBranchUnreachable | src/App.js:11-15 | if Dashboard reads the same connectivity value as App, then whenever App shows Dashboard, Dashboard's own offline screen cannot be selected |

## Left out

- HTTP details: URLs, methods, headers as wire text, JSON encoding. Each response is an input. For example, an absent token in the `x-auth-token` header goes on the wire as the text "null"; the model records the stored value as it is.
- The geolocation API itself. Its answer is an input: unsupported, success with the coordinates already serialised as text, an error code, or no answer yet. Latitude and longitude are floating-point values and are not modelled.
- `useNetworkStatus` is not part of this model. `isOnline` is an input, and how it changes over time is not modelled.
- App.DashboardOfflineBranchUnreachable: App (src/App.js:10) and Dashboard (src/Dashboard.js:11) each call `useNetworkStatus()` separately; the lemma assumes both read the same value, which the code does not guarantee, since the hook is not modelled.
- React itself: JSX, hook scheduling and the batching of state updates. Each state setter is an immediate assignment, and an asynchronous continuation (after `await`, or a geolocation callback) runs straight after the step before it. Interleavings such as a double submit or a Retry racing an in-flight fetch are not modelled, because the code has no guard against them.
- `console.log`, `console.error` and `componentDidCatch`: logging only.
- The login form's markup, which shows `error` and `successMessage` when non-empty, and `e.preventDefault()`.
- The browser's own form validation. The email input has `type="email"` and both inputs are `required` (src/Login.js:112-127), so the browser blocks the submit event, before `handleSubmit` runs, for an empty field or an address outside HTML's email syntax: "bad" never reaches the 'Invalid email format.' branch, while "a@b" does. The model takes the handler as called; that gate comes first and is not modelled.
- Mounting and unmounting of components. Each component's state lives as long as the model's object. In the app, going offline unmounts the whole router tree (src/App.js:13-15), so the boundary and both pages start afresh on reconnect, and `navigate('/dashboard')` (src/Login.js:77, 87, 92) unmounts the login form right after the geolocation callback sets its message, so that message is never displayed. `ReconnectKeepsStaleError` and `GeolocationMessages` describe each component's own state, not what the assembled app shows.
- src/NoInternet.js: static markup with no logic.
- `localStorage` persistence across reloads, and a `setItem` that throws when storage is full.
- A brand response body that is not an array. The model takes the decoded body as a list of brands. Rendering anything else would throw and be caught by the boundary.
- App.Route: react-router's own matching is not modelled. It ignores case and trailing slashes by default; the model matches the two paths exactly.
- Characters are Unicode scalar values, not JavaScript's UTF-16 code units. The two patterns treat a surrogate pair the same way either way (as characters that are neither '@' nor whitespace, and outside the password whitelist), so acceptance does not change.
