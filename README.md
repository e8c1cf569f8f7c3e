# The Broom Fairy — a Dafny model of its decision logic

The Broom Fairy is a cleaning-services marketplace. It has two front ends and
a small backend:

- a vanilla-JavaScript prototype (`script.js`);
- a React single-page app, whose logic lives in three context reducers, a
  route guard and a few string helpers;
- an Express backend, which checks its environment at start-up.

This project models the parts of those that decide something. Each is proved
against its own contract and lemmas.

| Dafny file | models | form |
|---|---|---|
| `prototype.dfy` (module `Prototype`) | `script.js`: the 12-hour cancellation rule, the voice-recording cap and its `[Audio M:SS enviado]` label, the password/wallet/Google logins, the card/wallet toggle, the chat send | the global `state` record is a class whose handlers update its fields; the decisions are pure functions |
| `auth_context.dfy` (module `AuthContext`) | `src/context/AuthContext.tsx`: `authReducer`, `initialState`, and the dispatch sequences of `login`, `loginWithGoogle`, `register`, `logout`, `connectWallet` and the start-up `initAuth` | pure reducer; `AuthProvider` is a class holding the reducer state; each operation is proved to leave `RunActions(old(state), <its action list>)` |
| `app_context.dfy` (module `AppContext`) | `src/context/AppContext.tsx`: `appReducer` and its notification list | pure |
| `theme_context.dfy` (module `ThemeContext`) | `src/context/ThemeContext.tsx`: `calculateEffectiveTheme`, `themeReducer`, `initialState`, `setTheme`, `toggleTheme`, the system-scheme listener | pure reducer plus a `ThemeProvider` class |
| `helpers.dfy` (module `Helpers`) | `src/utils/helpers.ts`: `truncate`, `capitalize`, `isValidEmail` | pure |
| `protected_route.dfy` (module `ProtectedRoute`) | `src/components/common/ProtectedRoute.tsx`: spinner / redirect / children | pure |
| `validate_env.dfy` (module `ValidateEnv`) | `backend/src/utils/validateEnv.ts`: the loop over the required variables | a method with a loop, proved against a recursive specification |
| `js_text.dfy` (module `JsText`) | the JavaScript runtime the code relies on: `String.prototype.trim` and its whitespace set, `String(n)` for naturals, `padStart` | pure |
| `wrappers.dfy` (module `Wrappers`) | `Option`, `Result`, and `Outcome` (a call that either returns or throws) | datatypes |

What the environment supplies becomes a parameter:

- Clock readings (`Date.now()`) and elapsed milliseconds.
- Service-call results: a `Result` for a call that returns a value or throws, and an `Outcome` for one that returns nothing.
- The values read from `localStorage`.
- The operating system's colour scheme.
- The process environment, as a map.

JavaScript semantics are modelled explicitly where they matter:

- `Math.round` is `floor(x + 0.5)` over exact rationals.
- The `%` operator truncates toward zero.
- `trim` and the regular-expression class `\s` use the ECMAScript whitespace set.
- An empty string is falsy.

## Model

| member | source | states |
|---|---|---|
| Prototype.HoursToService | script.js:277-280 | the hours left to the service are below 12 exactly when fewer than 43,200,000 ms remain, and negative exactly when the service has started |
| Prototype.CancellationText | script.js:293-296 | the dialog shows one of the two texts; the full-charge text exactly when start − now < 12 h (a started service included), the free text exactly when 12 h or more remain |
| Prototype.DemoServiceCancelsFree | script.js:26 | the demo service starts 13 h after loading, so within the first hour cancelling is free |
| Prototype.RoundedSeconds | script.js:222 | `Math.round(ms/1000)` equals `(ms + 500) div 1000` |
| Prototype.ReportedSeconds | script.js:221-222 | the reported length never exceeds 120 s, is non-negative for a non-negative duration, is 120 exactly when ms ≥ 119,500, and otherwise is `(ms + 500) div 1000` |
| Prototype.StopLabel | script.js:223 | the label template `[Audio M:SS enviado]` with M = sec div 60 and SS = sec mod 60 (truncated) padded to two digits; specified by `StopLabelReadsBack`, `CapLabelIsAutoStopMessage` |
| Prototype.StopMessage | script.js:221-223 | the label for a manual stop after `ms` milliseconds, of the capped rounded length; specified by `ReportedSeconds`, `StopLabelReadsBack`, `ManualStopAtCapMatchesAutoStop` |
| Prototype.StopLabelReadsBack | script.js:223 | for 0..120 s the label is 20 characters `[Audio M:SS enviado]`, with one minute digit M ≤ 2 and two second digits, the tens digit ≤ 5, and 60·M + SS equal to the seconds |
| Prototype.AutoStopMessageShowsTwoMinutes | script.js:214 | the literal auto-stop message has the layout of a stop label for 2 minutes and 00 seconds |
| Prototype.CapLabelIsAutoStopMessage | script.js:214-223 | the label for the 120 s cap is exactly the auto-stop message |
| Prototype.ManualStopAtCapMatchesAutoStop | script.js:211-223 | a manual stop after 119,500 ms or more posts the same text as the timer's auto-stop |
| Prototype.ProviderName | script.js:243 | metamask ↦ Metamask, bybit ↦ BYBIT, binance ↦ Binance, each in both directions, and Bitcoin exactly for every other value |
| Prototype.PasswordAccepted | script.js:259-261 | the login form's test: trimmed address equal to the account's and a password of at least 4 characters; specified by `PaddedDemoEmailLogsIn`, `OtherEmailIsRejected`, `Prototype.PasswordLogin` |
| Prototype.PaddedDemoEmailLogsIn | script.js:259-261 | the demo address with any surrounding whitespace logs in exactly when the password has at least 4 characters |
| Prototype.OtherEmailIsRejected | script.js:259-264 | a typed address whose trimmed form is not the account's never logs in |
| Prototype.Toggled | script.js:310 | the change-wallet button always switches to the other payment type |
| Prototype.ToggledTwice | script.js:310 | switching the payment type twice restores it |
| Prototype.Prototype.constructor | script.js:6-53 | the initial record: demo address, logged out by password, card payment, Metamask, service 13 h ahead, no recording, no messages |
| Prototype.Prototype.WalletLogin | script.js:238-243 | logs in by wallet, switches payment to wallet and stores the provider name for the clicked wallet |
| Prototype.Prototype.GoogleLogin | script.js:249-253 | logs in by Google |
| Prototype.Prototype.PasswordLogin | script.js:257-268 | succeeds exactly when `PasswordAccepted` holds: the trimmed address is the account's and the password has ≥ 4 characters; success logs in by password, failure leaves the login state unchanged |
| Prototype.Prototype.ChangeWallet | script.js:308-311 | the payment type becomes `Toggled` of the old one, the other one |
| Prototype.Prototype.CancellationPrompt | script.js:292-297 | the prompt is `CancellationText` for the held service start: full charge exactly when under 12 h remain, free otherwise |
| Prototype.Prototype.SendChat | script.js:184-188 | posts the trimmed text, and nothing when it trims to empty |
| Prototype.Prototype.ToggleRecording | script.js:204-224 | starts a recording at `now`, or stops the running one and posts the label for its capped, rounded length |
| Prototype.Prototype.Tick | script.js:209-216 | a running recording that has lasted 120,000 ms or more stops and posts the two-minute message; otherwise nothing changes |
| JsText.Trim | script.js:259 | `trim`: never longer than its input, and the result neither starts nor ends with ECMAScript whitespace; with `TrimPadded`, exactly the surrounding whitespace is removed |
| JsText.TrimPadded | script.js:259 | `trim` removes exactly the whitespace around a text that neither starts nor ends with whitespace |
| JsText.PadStart | script.js:223 | `padStart` yields `max(|s|, n)` characters: copies of the pad character followed by `s` |
| JsText.NatToStringReadsBack | src/context/AppContext.tsx:59 | the decimal text of a natural number reads back as that number |
| AuthContext.InitialState | src/context/AuthContext.tsx:22-29 | the start state is loading, unauthenticated, userless, holds the stored token, and has no wallet |
| AuthContext.Reduce | src/context/AuthContext.tsx:31-72 | `authReducer`; specified action by action by the lemmas below, `OnlySessionActionsChangeAuthentication` and `ReducePreservesWalletConsistency` |
| AuthContext.OnlySessionActionsChangeAuthentication | src/context/AuthContext.tsx:31-72 | the result is authenticated exactly after `LOGIN_SUCCESS` or when already authenticated and the action is not `LOGOUT`; only those two change the token, and only they and `SET_LOADING` the loading flag |
| AuthContext.SetLoadingOnlyChangesLoading | src/context/AuthContext.tsx:33-34 | `SET_LOADING` sets the flag and changes nothing else |
| AuthContext.LoginSuccessInstallsSession | src/context/AuthContext.tsx:36-43 | `LOGIN_SUCCESS` installs the payload's user and token, authenticates, stops loading, and keeps the wallet fields |
| AuthContext.LogoutClearsSession | src/context/AuthContext.tsx:45-53 | `LOGOUT` clears user, token, authentication and wallet, keeps the loading flag, and is idempotent |
| AuthContext.ConnectWalletKeepsSession | src/context/AuthContext.tsx:55-60 | `CONNECT_WALLET` records the address and changes nothing else |
| AuthContext.DisconnectWalletOnlyClearsWallet | src/context/AuthContext.tsx:62-67 | `DISCONNECT_WALLET` clears both wallet fields and nothing else |
| AuthContext.OtherActionIsIgnored | src/context/AuthContext.tsx:69-70 | an unrecognised action returns the state unchanged |
| AuthContext.ReducePreservesWalletConsistency | src/context/AuthContext.tsx:31-72 | every action keeps "a disconnected wallet has no address" |
| AuthContext.RunActionsPreservesWalletConsistency | src/context/AuthContext.tsx:22-72 | so does any sequence of actions, from the initial state onwards |
| AuthContext.RunActionsAppend | src/context/AuthContext.tsx:79 | dispatching two action lists in turn is dispatching their concatenation |
| AuthContext.SessionRequestActions | src/context/AuthContext.tsx:99-115 | the dispatches of `login`: `SET_LOADING true`, `LOGIN_SUCCESS` only when the call returned, `SET_LOADING false` from the `finally` block; specified by `SessionRequestSteps`, `SessionRequestOutcome` |
| AuthContext.SessionRequestSteps | src/context/AuthContext.tsx:99-115 | processing those dispatches is loading-on, then the session if returned, then loading-off, in that order |
| AuthContext.SessionRequestOutcome | src/context/AuthContext.tsx:99-115 | a login or registration always ends not loading; a thrown call changes nothing but the loading flag; a returned session is installed with the wallet untouched |
| AuthContext.LogoutActions | src/context/AuthContext.tsx:147-156 | the dispatches of `logout`: `LOGOUT` when the service call returned, none when it threw; specified by `LogoutOutcome` |
| AuthContext.LogoutOutcome | src/context/AuthContext.tsx:147-156 | logout clears the session only when the service call returned, giving exactly `Reduce(s, LOGOUT)`: no user, no token, no wallet connection or address, the loading flag kept; when it threw, the state is unchanged. `authService.logout` (src/services/auth.ts:21-28) catches its own errors, so in the program the call always returns and the session is always cleared; the failing branch covers the `catch` of `logout` itself |
| AuthContext.ConnectWalletActions | src/context/AuthContext.tsx:135-145 | the dispatches of `connectWallet`: `CONNECT_WALLET` with the returned address, none when the call threw; specified by `ConnectWalletOutcome` |
| AuthContext.ConnectWalletOutcome | src/context/AuthContext.tsx:135-145 | a returned address is recorded with the session untouched; a thrown call changes nothing |
| AuthContext.Truthy | src/context/AuthContext.tsx:84 | the test `if (state.token)`: a token is present and not the empty string |
| AuthContext.InitAuthActions | src/context/AuthContext.tsx:82-94 | the dispatches of `initAuth`: one or two actions, always ending with `SET_LOADING false`, and two exactly when the held token is truthy; specified by `StartupOutcome` |
| AuthContext.StartupOutcome | src/context/AuthContext.tsx:81-97 | after start-up the context is not loading and is authenticated exactly when a non-empty token was stored and the service recognised it; a rejected token is dropped; an absent or empty token is kept as it was |
| AuthContext.EmptyStoredTokenStaysSignedOut | src/context/AuthContext.tsx:84 | the empty token a Google login stores (src/services/auth.ts:73-80) is never checked at start-up: the context ends signed out whatever the service would answer |
| AuthContext.AuthProvider.constructor | src/context/AuthContext.tsx:79 | the held state starts as the initial state, with no wallet address (`WalletConsistent`) |
| AuthContext.AuthProvider.Dispatch | src/context/AuthContext.tsx:79 | the held state becomes the reducer's next state; `WalletConsistent` is kept, as it is by every provider operation below |
| AuthContext.AuthProvider.RequestSession | src/context/AuthContext.tsx:99-115 | returns the service's response (or rethrows its error) and leaves the state of loading-on, session-if-returned, loading-off |
| AuthContext.AuthProvider.Login | src/context/AuthContext.tsx:99-115 | `login`, as `RequestSession` |
| AuthContext.AuthProvider.LoginWithGoogle | src/context/AuthContext.tsx:117-133 | `loginWithGoogle`, as `RequestSession` |
| AuthContext.AuthProvider.Register | src/context/AuthContext.tsx:158-174 | `register`, as `RequestSession` |
| AuthContext.AuthProvider.LogoutUser | src/context/AuthContext.tsx:147-156 | dispatches `LOGOUT` exactly when the service call returned, and never throws; since `authService.logout` swallows its own errors (src/services/auth.ts:21-28), in the program it always dispatches `LOGOUT` |
| AuthContext.AuthProvider.ConnectWalletRequest | src/context/AuthContext.tsx:135-145 | dispatches `CONNECT_WALLET` with the returned address, or rethrows |
| AuthContext.AuthProvider.InitAuth | src/context/AuthContext.tsx:82-94 | with a truthy held token: installs the current user's session or logs out when the call threw; with an absent or empty one, no call; then stops loading |
| AppContext.InitialState | src/context/AppContext.tsx:39-46 | not loading, no notifications, sidebar open, menu closed, online, stored language or Spanish |
| AppContext.Reduce | src/context/AppContext.tsx:48-96 | `appReducer`; specified action by action by the lemmas below |
| AppContext.NewNotification | src/context/AppContext.tsx:57-62 | the notification `ADD_NOTIFICATION` builds: the payload's fields, the decimal text of the `Date.now()` reading as id, the separate `new Date()` reading as timestamp, unread; specified by `AddNotificationPrepends`, `NotificationIdIsItsTime` |
| AppContext.MarkRead | src/context/AppContext.tsx:70-74 | same length and order; exactly the entries with the id become read, the others are identical |
| AppContext.AddNotificationPrepends | src/context/AppContext.tsx:53-65 | the new notification (id from the `Date.now()` reading, timestamp from the `new Date()` reading, unread) goes in front of the unchanged old list; the unread count grows by one; nothing else changes |
| AppContext.NotificationIdIsItsTime | src/context/AppContext.tsx:59-60 | a new notification's id is all digits and reads back as the `Date.now()` reading taken for it (the timestamp is a separate reading and may differ) |
| AppContext.SameMillisecondNotificationsShareId | src/context/AppContext.tsx:59-75 | two notifications whose `Date.now()` readings fall in the same millisecond share an id, whatever their timestamps, so marking one read marks both |
| AppContext.MarkReadNeverUnreads | src/context/AppContext.tsx:70-74 | marking never turns a read notification unread and never raises the unread count |
| AppContext.MarkReadIdempotent | src/context/AppContext.tsx:70-74 | marking the same id twice is marking it once |
| AppContext.MarkReadLeavesNoUnreadMatch | src/context/AppContext.tsx:70-74 | afterwards no notification with that id is unread |
| AppContext.MarkNotificationReadOnlyChangesList | src/context/AppContext.tsx:67-75 | `MARK_NOTIFICATION_READ` keeps the list's length, does not raise the unread count, and changes no other field |
| AppContext.ClearEmptiesList | src/context/AppContext.tsx:77-78 | `CLEAR_NOTIFICATIONS` empties the list and changes nothing else |
| AppContext.TogglesAreInvolutions | src/context/AppContext.tsx:80-84 | each toggle flips its own flag only; toggling twice is the identity |
| AppContext.SettersOnlySetTheirField | src/context/AppContext.tsx:48-94 | `SET_LOADING`, `SET_CONNECTION_STATUS` and `SET_LANGUAGE` set their own field only; an unknown action changes nothing |
| AppContext.ConnectionChanged | src/context/AppContext.tsx:158-175 | the `online`/`offline` listeners: `SET_CONNECTION_STATUS`, then `ADD_NOTIFICATION` with the announcement; specified by `ConnectionChangeIsAnnounced` |
| AppContext.ConnectionChangeIsAnnounced | src/context/AppContext.tsx:158-175 | a connection change sets the status and puts one unread announcement (a success when back online, a warning when offline, with its title and message, equal to `NewNotification` of the announcement) in front of the unchanged list, its id from the `Date.now()` reading and its timestamp from the `new Date()` reading; nothing else changes |
| ThemeContext.Opposite | src/context/ThemeContext.tsx:85 | the other scheme differs from the given one |
| ThemeContext.EffectiveTheme | src/context/ThemeContext.tsx:37-39 | the system scheme under `'system'`, the theme's own scheme otherwise |
| ThemeContext.InitialState | src/context/ThemeContext.tsx:41-45 | holds the stored theme and the system scheme, and its effective scheme is consistent with them |
| ThemeContext.Reduce | src/context/ThemeContext.tsx:47-70 | `themeReducer`; specified by `ReduceKeepsConsistent`, `SetThemeKeepsSystemTheme`, `SetSystemThemeKeepsTheme`, `OtherActionIsIgnored` |
| ThemeContext.ReduceKeepsConsistent | src/context/ThemeContext.tsx:47-70 | `SET_THEME` and `SET_SYSTEM_THEME` always leave `effectiveTheme == calculateEffectiveTheme(theme, systemTheme)`, and other actions keep it |
| ThemeContext.SetThemeKeepsSystemTheme | src/context/ThemeContext.tsx:49-57 | `SET_THEME` installs the theme and keeps the system scheme |
| ThemeContext.SetSystemThemeKeepsTheme | src/context/ThemeContext.tsx:58-66 | `SET_SYSTEM_THEME` keeps the theme; under a fixed theme the effective scheme stays, under `'system'` it follows |
| ThemeContext.OtherActionIsIgnored | src/context/ThemeContext.tsx:67-68 | an unknown action changes nothing |
| ThemeContext.ToggledTheme | src/context/ThemeContext.tsx:85 | the theme `toggleTheme` sets is never `'system'` |
| ThemeContext.ToggleFlipsEffectiveTheme | src/context/ThemeContext.tsx:84-87 | toggling flips the effective scheme, leaves a fixed theme and a consistent state; toggling twice restores the effective scheme |
| ThemeContext.ThemeProvider.constructor | src/context/ThemeContext.tsx:77 | the held state starts as the initial state, whose effective scheme is consistent with its theme |
| ThemeContext.ThemeProvider.SetThemeTo | src/context/ThemeContext.tsx:79-82 | the held state takes `SET_THEME`, and its effective scheme is consistent with its theme afterwards |
| ThemeContext.ThemeProvider.ToggleTheme | src/context/ThemeContext.tsx:84-87 | sets the fixed theme opposite to the effective one: the effective scheme flips, the theme is not `'system'`, and the state stays consistent |
| ThemeContext.ThemeProvider.SystemSchemeChanged | src/context/ThemeContext.tsx:93-98 | the held state takes `SET_SYSTEM_THEME` with the reported scheme, and its effective scheme is consistent with its theme afterwards |
| Helpers.Truncate | src/utils/helpers.ts:88-91 | a text that fits is returned unchanged; a longer one becomes its first `length` characters (none for a negative length) followed by "..." |
| Helpers.TruncateIdempotent | src/utils/helpers.ts:88-91 | truncating twice to the same length is truncating once |
| Helpers.ToUpperAscii | src/utils/helpers.ts:82 | a lower-case ASCII letter becomes its upper-case form, anything else is kept, and the result is never lower-case |
| Helpers.Capitalize | src/utils/helpers.ts:81-83 | same length, first character upper-cased, the rest unchanged; the empty string stays empty |
| Helpers.CapitalizeIdempotent | src/utils/helpers.ts:81-83 | capitalizing twice is capitalizing once |
| Helpers.MatchesEmailPattern | src/utils/helpers.ts:97 | the language of `^[^\s@]+@[^\s@]+\.[^\s@]+$`: a local part, '@', a part, '.', a part, all non-empty and free of whitespace and '@' |
| Helpers.IsValidEmail | src/utils/helpers.ts:96-98 | `isValidEmail`: an accepted address has at least 5 characters; equal to the regular expression's language by `IsValidEmailMatchesPattern` |
| Helpers.IsValidEmailMatchesPattern | src/utils/helpers.ts:96-98 | the check (no whitespace, exactly one '@', a non-empty local part, a '.' after the '@' with characters on both sides) accepts exactly the strings `^[^\s@]+@[^\s@]+\.[^\s@]+$` matches |
| Helpers.ValidEmailMatchesPattern | src/utils/helpers.ts:97 | every accepted string matches the regular expression |
| Helpers.PatternMatchIsValidEmail | src/utils/helpers.ts:97 | every string the regular expression matches is accepted |
| Helpers.WhitespaceIsRejected | src/utils/helpers.ts:97 | a string holding whitespace is rejected |
| Helpers.SecondAtIsRejected | src/utils/helpers.ts:97 | a string holding two '@' is rejected |
| ProtectedRoute.Fallback | src/components/common/ProtectedRoute.tsx:15 | the fallback path defaults to `/login` |
| ProtectedRoute.Decide | src/components/common/ProtectedRoute.tsx:12-55 | the spinner exactly while loading; the children exactly when not loading, authenticated and the required role (if any) is the user's; otherwise the fallback path when unauthenticated, `/unauthorized` on a role mismatch, a missing user included |
| ProtectedRoute.LoggedOutNeverSeesChildren | src/components/common/ProtectedRoute.tsx:33-41 | after `LOGOUT` the guard never shows the children, and redirects to the fallback once not loading |
| ProtectedRoute.LoginSuccessOpensMatchingRoutes | src/components/common/ProtectedRoute.tsx:44-54 | after `LOGIN_SUCCESS` the children show exactly when no role is required or the session's user has it, and `/unauthorized` otherwise |
| ProtectedRoute.DroppingTheRoleOnlyWidens | src/components/common/ProtectedRoute.tsx:44-54 | a route that admits a user with a role requirement admits them without it |
| ProtectedRoute.StartupRouting | src/components/common/ProtectedRoute.tsx:21-54 | after start-up a role-free route shows its children exactly when a stored token was recognised, and otherwise redirects to the fallback |
| ValidateEnv.MissingMessage | backend/src/utils/validateEnv.ts:8 | the error message ends with the missing variable's name |
| ValidateEnv.FirstUnset | backend/src/utils/validateEnv.ts:6-10 | no key is reported exactly when every key is set; a reported key is one of the keys and is unset |
| ValidateEnv.FirstUnsetIsFirst | backend/src/utils/validateEnv.ts:4-8 | the reported key is the first unset one in list order |
| ValidateEnv.Validate | backend/src/utils/validateEnv.ts:4-10 | passes exactly when MONGODB_URI, JWT_SECRET and PORT are all non-empty; otherwise fails with the message for the first that is not |
| ValidateEnv.OtherVariablesDoNotMatter | backend/src/utils/validateEnv.ts:4-10 | a variable outside the required list never changes the verdict |
| ValidateEnv.FirstUnsetDependsOnlyOnKeys | backend/src/utils/validateEnv.ts:7 | the verdict depends only on which required keys are set |
| ValidateEnv.EmptyValueIsMissing | backend/src/utils/validateEnv.ts:7 | for every variable, setting it to the empty string gives the same verdict as removing it from the environment |

## Left out

- Rendering, styling and DOM work (`innerHTML`, class toggles, dialogs, `alert`, focus, scrolling), the service-worker registration and the splash timer: they decide nothing.
- The chat's simulated reply, posted 600 ms after a message by `setTimeout`: timer scheduling is not modelled.
- Prototype.Prototype.Tick: models one firing of the 300 ms interval; the scheduling of the interval is not modelled, nor are several intervals left running when a recording is stopped and restarted between two firings.
- Prototype.HoursToService: the division `ms / 36e5` is taken over exact rationals. For integer milliseconds the quotient is never closer to 12 than 1/3,600,000, far above double-precision rounding, so the comparison with 12 is the same.
- The service calls of `AuthProvider` (`authService.*`), local storage and toasts: each call's outcome is a parameter. The value `connectWallet` returns is reduced to the address the reducer reads.
- AuthContext.AuthProvider: each async operation's dispatches are modelled as one uninterrupted run. Interleavings of concurrent operations across `await` are not modelled: for example, a `login` that reaches `LOGIN_SUCCESS` while the start-up `getCurrentUser` call is pending is signed out again when that call then fails and `initAuth`'s `catch` dispatches `LOGOUT`.
- AuthContext.AuthProvider.InitAuth: models one run of the start-up effect. React re-runs the effect whenever the token changes, and that scheduling is not modelled.
- AppContext.InitialState: the stored language is taken as already one of `'es'`/`'en'` or absent. The source casts any stored string without checking it, and that case is not modelled.
- ThemeContext.InitialState: the stored theme is taken as a valid theme or absent (then `'system'`). An arbitrary stored string is not modelled.
- AppContext's toasts: `addNotification` also shows a toast, which is not modelled. The `online`/`offline` listeners are modelled as their two dispatches (`ConnectionChanged`); registering and removing them is not.
- Helpers.Capitalize: only ASCII letters are upper-cased. JavaScript's `toUpperCase` applies full Unicode case mapping, which can also change the length (for example ß becomes SS).
- Helpers.Truncate: the length is an integer. A fractional or NaN length is not modelled.
- Strings are sequences of Unicode scalar values, not UTF-16 code units: lengths differ for characters outside the Basic Multilingual Plane.
- `formatCurrency`, `formatDate` (Intl), `formatFileSize` (floating-point logarithms), `debounce`, `throttle` (timer closures), `cn` (library wrapper) and `generateId` (randomness) are not part of this model.
- The backend's `.env` loading (`dotenv.config()`) is not modelled: the environment is a parameter. Nothing in the code defines a booking status transition, a fee amount or a refund computation, so none is modelled.
