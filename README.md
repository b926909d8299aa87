# ROI investment Mini App client, modelled in Dafny

This project models the browser client of a Telegram Mini App for an
investment service. The client:

- signs the user in with the init string the Telegram host hands it;
- keeps a bearer token and a user snapshot in `localStorage`;
- sends every backend call through one HTTP client with two interceptors;
- serves four protected pages: dashboard, deposit, withdraw and referrals.

The model keeps the client's own form:

- Pure helpers are functions: the platform bridge, the route table, the
  deposit tiers, the colour rules and the referral tree layout.
- Things that mutate are classes:
  - the credential store, whose `items` map is `localStorage`;
  - the HTTP client, which logs the requests it sends and holds the browser
    path;
  - the session, whose fields are the auth provider's React state;
  - each page, whose fields are that page's React state.

Each state-changing method states its new state through a pure function of
the old one. The main one is `Api.AfterCall`, the client state after one
call. It is `Api.Sent`, the request half, followed by `Api.Received`, the
response half; a page that starts two calls together sends both before
either reply is handled. Assigning `window.location.href` starts a page load
but leaves `location.pathname` as it was, so the client's path never changes
and each redirect is recorded in the navigation log. Lemmas state what those
functions promise.

The backend is not part of the model. Each operation that makes a request
takes the transport's outcome as a parameter (`Api.Transport`): the
delivered reply data, or the failure the transport reports. The host
environment the bridge inspects is also a value (`Telegram.Env`). It holds:

- the URL query;
- the `window.Telegram.WebApp` binding;
- the SDK's `WebApp` binding;
- whether reading any of them throws.

Amounts are exact reals. `parseFloat` results are `Option<real>`, where
`None` stands for `NaN`. `toFixed(2)` read back by `parseFloat` is
`Js.Round2`: round to the nearest cent, with halves rounded away from zero.

Two behaviours of the code follow from its text and are proved here as they
are:

- **The Max button can overshoot the balance.** On the withdraw page, "Max"
  fills in `balance.toFixed(2)`. For a balance with more than two decimals
  this can round up past the balance, and the submit handler's own check
  (`Withdraw.CheckWithdrawAmount`) would then answer "Insufficient balance"
  (`Withdraw.MaxCanExceedBalance`). On the page the input's `max` attribute
  already refuses such a value, so the browser stops the submission before
  the handler runs. For a balance in
  whole cents it fills in the balance itself (`Withdraw.MaxAcceptedForWholeCents`).
- **A blank `tgWebAppData` hides `initData`.** `getInitData` reads the URL
  as `tgWebAppData || initData` before it checks for blankness. So a
  `tgWebAppData` parameter made only of whitespace hides an `initData`
  parameter (`Telegram.BlankTgWebAppDataShadowsInitData`). Apart from that
  one case, the result is the first non-blank of the four probes
  (`Telegram.FirstOfFourProbes`).

Two further properties of the code shape the model:

- **One look for the init string.** Auto-login calls `getInitData` once and
  does not retry (src/context/AuthContext.jsx:30).
- **A success reply is trusted.** `telegramLogin` stores whatever `token` and
  `user` a reply with `success` carries (src/services/auth.js:11-21).

## Model

| member | source | states |
|---|---|---|
| Js.OrElse | src/pages/Referrals.jsx:25 | `a \|\| 'literal'`: the value when truthy, the literal otherwise |
| Js.TrimNonEmptyIff | src/utils/telegram.js:86 | `s.trim().length > 0` holds exactly when `s` has a code point outside the ECMAScript whitespace set |
| Js.TrimStartKeepsContent | src/utils/telegram.js:86 | trimming the front leaves a suffix of the input and removes only whitespace; what remains has content exactly when the input does, and starts with a non-whitespace code point unless empty |
| Js.TrimEndKeepsContent | src/utils/telegram.js:86 | trimming the end leaves a prefix of the input and removes only whitespace; what remains has content exactly when the input does |
| Js.TrimEndNonEmpty | src/utils/telegram.js:86 | a non-empty end-trimmed string ends in a non-whitespace code point |
| Js.Round2Error | src/pages/Withdraw.jsx:61 | `toFixed(2)` read back differs from the value by at most half a cent |
| Js.Round2NonNegative | src/pages/Withdraw.jsx:61 | `toFixed(2)` of a non-negative value is non-negative |
| Js.Round2Cents | src/pages/Withdraw.jsx:139 | a whole number of cents is printed and read back unchanged |
| TokenStore.Cleared | src/utils/token.js:49-52 | after `clearAuth` neither key is present, and every other key and value is as before |
| TokenStore.CredentialStore.SetToken | src/utils/token.js:6-8 | the token key now holds the token text; nothing else changes |
| TokenStore.CredentialStore.GetToken | src/utils/token.js:13-15 | returns the stored token text, `null` exactly when the key is absent |
| TokenStore.CredentialStore.RemoveToken | src/utils/token.js:20-22 | the token key is gone; nothing else changes |
| TokenStore.CredentialStore.SetUser | src/utils/token.js:27-29 | the user key now holds the serialized user; nothing else changes |
| TokenStore.CredentialStore.GetUser | src/utils/token.js:34-37 | returns the stored user, `null` exactly when the key is absent |
| TokenStore.CredentialStore.RemoveUser | src/utils/token.js:42-44 | the user key is gone; nothing else changes |
| TokenStore.CredentialStore.ClearAuth | src/utils/token.js:49-52 | the two removals in turn leave the storage `Cleared` |
| TokenStore.SetTokenThenGet | src/utils/token.js:6-15 | after `setToken(t)`, `getToken()` is `t` and `getUser()` is unchanged |
| TokenStore.RemoveTokenThenGet | src/utils/token.js:13-22 | after `removeToken()`, `getToken()` is `null` and `getUser()` is unchanged |
| TokenStore.SetUserThenGet | src/utils/token.js:27-37 | after `setUser(u)`, `getUser()` is `u` and `getToken()` is unchanged |
| TokenStore.RemoveUserThenGet | src/utils/token.js:34-44 | after `removeUser()`, `getUser()` is `null` and `getToken()` is unchanged |
| TokenStore.ClearAuthIdempotent | src/utils/token.js:49-52 | `clearAuth` leaves both getters `null`, and running it twice equals running it once |
| Api.BearerRoundTrip | src/services/api.js:14-25 | with a truthy token, the `Authorization` header reads back as exactly that token; without one, the headers are untouched; other headers are never changed |
| Api.Classify | src/services/api.js:33-61 | the rejection shape: a server error keeps its status and data, and its message is the server's `error` when truthy, else the error's message; no response gives the fixed network message and status 0; anything else gives its own message or the generic one, with status 0 |
| Api.RedirectOn | src/services/api.js:35-41 | the page moves to `/` exactly on a 401 when the path is not already `/` |
| Api.Sent | src/services/api.js:14-25 | the request half of a call appends the outgoing request, built from the stored token, and changes nothing else |
| Api.RedirectsOf | src/services/api.js:35-41 | one navigation to `/` exactly for a 401 failure while the path is not `/`, none otherwise |
| Api.Received | src/services/api.js:28-63 | the response half of a call sends nothing and keeps the path; a 401 failure clears both credentials; the navigations grow by `RedirectsOf` |
| Api.AfterCall | src/services/api.js:14-63 | a call appends exactly the outgoing request to the log; a delivered reply changes nothing else; at most one navigation, to `/`, is added |
| Api.CallEffects | src/services/api.js:14-63 | a call sends exactly one request, to its path, carrying the stored token; storage changes only on a 401, which removes both credentials and keeps every other key; the path is unchanged; a navigation to `/` is added exactly on a 401 away from `/` |
| Api.RequestConfig.constructor | src/services/api.js:6-11 | every request starts with the JSON content-type header |
| Api.Client.InterceptRequest | src/services/api.js:14-25 | the config's headers gain the bearer header exactly when a truthy token is stored |
| Api.Client.InterceptError | src/services/api.js:32-62 | rejects with `Classify(e)`; a 401 clears the credentials and records a navigation to `/` as `RedirectOn` says; nothing else changes |
| Api.Client.Send | src/services/api.js:14-25 | the client state becomes `Sent` of the old state |
| Api.Client.Receive | src/services/api.js:28-63 | the client state becomes `Received` of the old state, and the call settles with the reply data unchanged or with the classified rejection |
| Api.Client.Call | src/services/api.js:14-63 | the client state becomes `AfterCall` of the old state, and the call settles with the reply data unchanged or with the classified rejection |
| AuthService.LoginStep | src/services/auth.js:7-27 | one POST of the init string to `/auth/telegram`; it resolves exactly when the reply says `success`, and then the returned token and user are the stored ones |
| AuthService.LoginStepProperties | src/services/auth.js:7-27 | one POST to `/auth/telegram`; it resolves exactly when the reply says `success`, and then the returned token and user are the stored ones while every other key is kept and nothing navigates; a refusal throws "Authentication failed" and stores nothing; a transport failure is rethrown as the client rejected it |
| AuthService.TelegramLogin | src/services/auth.js:7-27 | the client state and the result are those of `LoginStep` |
| UserService.DepositBody | src/services/user.js:14-20 | the body carries the amount, and carries `referrer_code` exactly when the code is truthy |
| UserService.TransactionQuery | src/services/user.js:59-66 | the query always carries `limit` (default 50), and carries `type` and `status` exactly when they are truthy |
| UserService.TransactionParams | src/services/user.js:60-62 | the query built key by key equals `TransactionQuery` |
| UserService.GetProfile | src/services/user.js:6-9 | one GET of `/user/profile`; the reply data is returned unchanged |
| UserService.CreateDeposit | src/services/user.js:14-20 | one POST of `DepositBody` to `/user/deposit`; the reply data is returned unchanged |
| UserService.GetDeposits | src/services/user.js:25-28 | one GET of `/user/deposits`; the reply data is returned unchanged |
| UserService.CreateWithdraw | src/services/user.js:33-38 | one POST of the amount to `/user/withdraw`; the reply data is returned unchanged |
| UserService.GetWithdrawals | src/services/user.js:43-46 | one GET of `/withdrawals`; the reply data is returned unchanged |
| UserService.GetReferrals | src/services/user.js:51-54 | one GET of `/user/referrals`; the reply data is returned unchanged |
| UserService.GetTransactions | src/services/user.js:59-66 | one GET of `/user/transactions` with `TransactionQuery` as its params; the reply data is returned unchanged |
| Telegram.IsTelegramWebApp | src/utils/telegram.js:6-34 | true exactly when nothing throws and one holds: the window binding has a version, the SDK platform is set and not `unknown`, or the SDK has a version |
| Telegram.InitTelegramWebApp | src/utils/telegram.js:39-63 | the window binding is taken whenever it exists, else the SDK when detection succeeds; whichever is taken receives ready, expand and enableClosingConfirmation in that order; otherwise no binding and no calls |
| Telegram.GetTelegramWebApp | src/utils/telegram.js:68-74 | the SDK binding exactly when detection succeeds |
| Telegram.GetTelegramUser | src/utils/telegram.js:135-144 | `null` unless detection succeeds; once it succeeds, exactly the SDK's `initDataUnsafe.user` |
| Telegram.GetInitData | src/utils/telegram.js:80-130 | `null` when reading the environment throws; a returned string is non-blank and is the URL value, the window binding's or the SDK's init string |
| Telegram.FirstNonBlankIsFirst | src/utils/telegram.js:80-130 | the fallback returns the earliest non-blank candidate, and `null` exactly when every candidate is blank |
| Telegram.GetInitDataIsFallback | src/utils/telegram.js:80-130 | `getInitData` is the first non-blank of the URL value, the window binding and the SDK, in that order |
| Telegram.InitDataHasContent | src/utils/telegram.js:80-130 | a returned init string has a non-whitespace code point |
| Telegram.FirstOfFourProbes | src/utils/telegram.js:85-107 | unless `tgWebAppData` is present, non-empty and all whitespace, the result is the first non-blank of the four probes in source order |
| Telegram.BlankTgWebAppDataShadowsInitData | src/utils/telegram.js:85-89 | with `tgWebAppData=" "` and `initData="q=1"`, the function returns `null` although a non-blank probe exists |
| AuthContext.AutoLoginBranch | src/context/AuthContext.jsx:19-43 | a stored session is adopted exactly when both token and user are there; otherwise login is attempted exactly when the init string is non-blank |
| AuthContext.Session.IsAuthenticated | src/context/AuthContext.jsx:91 | authenticated only with a non-empty token and a user; never without either |
| AuthContext.Session.constructor | src/context/AuthContext.jsx:9-12 | the provider starts with no user, no token, no error, and loading |
| AuthContext.Session.AutoLogin | src/context/AuthContext.jsx:16-51 | adopting sends no request and leaves the session authenticated; a missing init string sets the fixed message without a request; a login sends the one request (with its 401 redirect, if any), adopts the returned credentials, or records the failure's message ("Authentication failed" when empty) and clears storage; loading always ends |
| AuthContext.Session.Login | src/context/AuthContext.jsx:56-70 | the client state and result are those of `LoginStep`; success sets token and user and clears the error; failure records its message ("Login failed" when empty) and leaves token and user; loading ends |
| AuthContext.Session.Logout | src/context/AuthContext.jsx:72-76 | storage is `Cleared`, token and user are null, and the session is no longer authenticated |
| AuthContext.Session.UpdateUser | src/context/AuthContext.jsx:78-81 | the same user goes to storage and to the state; nothing else changes |
| Routing.Guard | src/components/ProtectedRoute.jsx:5-17 | while loading, the "Authenticating..." loader; when not authenticated, a replacing redirect to `/`; the page exactly when loaded and authenticated |
| Routing.PageAt | src/App.jsx:28-67 | each of the four paths mounts its own page, and no other path mounts one |
| Routing.AppRoutes | src/App.jsx:13-71 | while loading, "Initializing..."; `/` redirects to the dashboard when authenticated and shows "Authenticating..." otherwise; the four pages sit behind the guard; every other path redirects to the dashboard |
| Routing.EveryPathSettles | src/App.jsx:13-71 | within two redirects every path settles: on its own page, or the dashboard, when authenticated; on the `/` loader otherwise |
| Display.TxSign | src/pages/Dashboard.jsx:137-139 | '+' exactly for deposit, roi and referral transactions, '-' otherwise |
| Display.AmountColour | src/pages/Dashboard.jsx:131-135 | green exactly for deposit, roi and referral transactions, red otherwise |
| Display.SignAgreesWithColour | src/pages/Dashboard.jsx:131-139 | a '+' amount is always green and a '-' amount always red |
| Display.StatusColour | src/pages/Dashboard.jsx:143-149 | green exactly for approved or completed, yellow exactly for pending, red for every other status |
| Dashboard.TransactionLook | src/pages/Dashboard.jsx:130-149 | a row's sign is '+' exactly when its amount is green, which is exactly when the type is a credit |
| Dashboard.FetchSendsBoth | src/pages/Dashboard.jsx:25-28 | `loadData` sends the profile request and the transactions request (`limit` 5, no filter) both built from the storage before either reply, so both carry the same token; each reply is then handled on its own: a 401 on either clears the credentials, and each 401 away from `/` adds its own navigation to `/` |
| Dashboard.DashboardView.constructor | src/pages/Dashboard.jsx:11-14 | no profile, no transactions, no error, loading |
| Dashboard.DashboardView.LoadData | src/pages/Dashboard.jsx:20-42 | both requests leave before either reply is handled, and the client ends as `AfterFetch` says (plus the refreshed stored user); when both replies arrive, the profile and transactions are shown (a missing list is empty), and a returned user replaces the session's user and the stored user; when either fails, the page shows that failure's message ("Failed to load data" when empty) and keeps its data; loading ends |
| Deposit.PackageType | src/pages/Deposit.jsx:16-22 | a package is one of the three tiers, and exists only for a number within the accepted range |
| Deposit.PackageRanges | src/pages/Deposit.jsx:16-22 | tier 1 (0.5%) is exactly $35-$499, tier 2 (1%) exactly $500-$4,999, tier 3 (2%) exactly $5,000-$100,000, and any other amount has no tier |
| Deposit.PercentIncreasesWithTier | src/pages/Deposit.jsx:16-22 | a higher tier pays a strictly higher daily percentage |
| Deposit.CheckDepositAmount | src/pages/Deposit.jsx:33-41 | accepted exactly when the amount is a number in [35, 100000]; NaN or below 35 gives the minimum message, above 100000 the maximum message |
| Deposit.WholeAmountsHaveTier | src/pages/Deposit.jsx:16-41 | every accepted whole-dollar amount shows a package |
| Deposit.AcceptedWithoutTier | src/pages/Deposit.jsx:16-41 | an accepted amount shows no package exactly when it lies strictly between 499 and 500 or between 4999 and 5000 |
| Deposit.ReferrerArgument | src/pages/Deposit.jsx:47 | `referrerCode \|\| undefined`: the code is passed exactly when non-empty |
| Deposit.DepositForm.PackageInfo | src/pages/Deposit.jsx:24 | a package is shown only for an amount the submit check accepts |
| Deposit.DepositForm.constructor | src/pages/Deposit.jsx:10-14 | an empty form: no amount, empty code, not loading, no error, no success |
| Deposit.DepositForm.HandleSubmit | src/pages/Deposit.jsx:26-61 | a refused amount sets its message and sends nothing; an accepted one is posted with the referrer argument, success follows the reply's `success` and schedules the dashboard, and a failure shows its message ("Failed to create deposit request" when empty) |
| Withdraw.BalanceOf | src/pages/Withdraw.jsx:46 | the user's balance, or 0 when there is no user or no balance |
| Withdraw.SubmitDisabled | src/pages/Withdraw.jsx:150 | the button is enabled only when idle, not yet successful and the balance is at least 10; a balance under 10 always disables it |
| Withdraw.CheckWithdrawAmount | src/pages/Withdraw.jsx:41-50 | accepted exactly when the amount is a number in [10, balance]; NaN or below 10 gives the minimum message, above the balance "Insufficient balance" |
| Withdraw.AcceptableAmountIffEnabled | src/pages/Withdraw.jsx:41-50 | some amount passes the check exactly when the idle form's submit button is enabled (balance at least 10, line 150) |
| Withdraw.WithBalance | src/pages/Withdraw.jsx:59-62 | `{...user, balance}` replaces the balance and keeps every other field |
| Withdraw.BalanceAfterNonNegative | src/pages/Withdraw.jsx:61 | the balance written back after an accepted amount is never negative and is within half a cent of the exact difference |
| Withdraw.QuickAmount | src/pages/Withdraw.jsx:123-139 | the 25%, 50% and Max buttons fill in that share of the balance to within half a cent |
| Withdraw.MaxAcceptedForWholeCents | src/pages/Withdraw.jsx:139 | for a whole-cent balance of at least $10, Max fills in the balance and the check accepts it |
| Withdraw.MaxCanExceedBalance | src/pages/Withdraw.jsx:139 | for balance 10.006, Max fills in 10.01 and the check answers "Insufficient balance" |
| Withdraw.WithdrawalColour | src/pages/Withdraw.jsx:184-188 | green exactly for approved or completed withdrawals, yellow exactly for pending ones |
| Withdraw.WithdrawForm.constructor | src/pages/Withdraw.jsx:11-16 | empty form, history loading, no withdrawals |
| Withdraw.WithdrawForm.PressQuickAmount | src/pages/Withdraw.jsx:123-139 | the amount becomes `QuickAmount` of the current balance; nothing else changes |
| Withdraw.WithdrawForm.LoadWithdrawals | src/pages/Withdraw.jsx:22-32 | one GET of `/withdrawals`; a reply replaces the list (missing reads as empty); a failure keeps it; history loading ends |
| Withdraw.WithdrawForm.HandleSubmit | src/pages/Withdraw.jsx:34-74 | a refused amount sets its message and sends nothing; an accepted one is posted; on success the session user gets the rounded new balance in state and storage, the history is reloaded (ending its loading state) and the dashboard is scheduled; a failure shows its message ("Failed to create withdrawal request" when empty) |
| Referrals.CommissionRate | src/pages/Referrals.jsx:101-117 | the label of each of the 15 levels is positive |
| Referrals.RatesNonIncreasing | src/pages/Referrals.jsx:101-117 | a deeper level never shows a higher commission rate |
| Referrals.Toggled | src/pages/Referrals.jsx:31-39 | the toggled level's membership flips and every other level's membership is kept |
| Referrals.ToggleFlipsOnlyThatLevel | src/pages/Referrals.jsx:31-39 | toggling flips whether that level is expanded and no other level |
| Referrals.ToggleTwiceRestores | src/pages/Referrals.jsx:31-39 | toggling a level twice restores the set |
| Referrals.DisplayName | src/pages/Referrals.jsx:154 | first name when truthy, else username when truthy, else "User"; never empty |
| Referrals.HandleOf | src/pages/Referrals.jsx:157 | username when truthy, else "N/A" |
| Referrals.ReferralCode | src/pages/Referrals.jsx:184 | Telegram id when truthy, else username when truthy, else "N/A"; never empty |
| Referrals.Rows | src/pages/Referrals.jsx:147-169 | one row per referral, in order |
| Referrals.LevelOf | src/pages/Referrals.jsx:99-171 | a level block shows its level and count; its rows appear exactly when it is expanded and has referrals, and are then those referrals' rows |
| Referrals.ListedFrom | src/pages/Referrals.jsx:98-121 | the listed levels lie in range |
| Referrals.ListedFromExactly | src/pages/Referrals.jsx:98-121 | a level is listed exactly when it is in range and not an empty level among 1-5 |
| Referrals.ListedFromIncreasing | src/pages/Referrals.jsx:98 | listed levels appear in strictly increasing order |
| Referrals.RenderTree | src/pages/Referrals.jsx:92-176 | the "no referrals yet" message shows exactly when the tree has no levels |
| Referrals.TreeRendering | src/pages/Referrals.jsx:92-176 | an empty tree shows "no referrals yet"; otherwise levels 6-15 always appear and levels 1-5 exactly when non-empty, once each, in order, each block built by `LevelOf` |
| Referrals.ReferralsView.constructor | src/pages/Referrals.jsx:9-12 | no data, loading, no error, levels 1-3 expanded |
| Referrals.ReferralsView.Render | src/pages/Referrals.jsx:41-50 | the loader while loading, then the error when truthy; otherwise the tree as `RenderTree` lays it out and the referral code |
| Referrals.ReferralsView.LoadReferrals | src/pages/Referrals.jsx:18-29 | one GET of `/user/referrals`; a reply is stored and the error cleared; a failure shows its message ("Failed to load referrals" when empty); loading ends; the expanded set is untouched |
| Referrals.ReferralsView.ToggleLevel | src/pages/Referrals.jsx:31-39 | the expanded set becomes `Toggled` of the old one; nothing else changes |

## Left out

- **Host UI helpers.** `showAlert`, `showConfirm`, `setHeaderColor` and `setBackgroundColor` (src/utils/telegram.js:149-202) are not modelled. They only forward to host UI calls or to `alert`/`confirm`.
- **Logging.** Console logging is not modelled anywhere. It has no effect on state.
- **Presentational components.** `Layout`, `Loading` and `ErrorMessage` are not part of this model. A screen appears only as the message or target it would show.
- **Transport and base URL.** Axios itself, the base URL from configuration and the serialization of requests and replies are not modelled. A request is its verb, path, headers, body and params, and a reply is its parsed data.
- **Navigation timers.** The two-second `setTimeout` before the pages navigate to the dashboard is recorded as `scheduledNavigation`. The timer firing is not modelled.
- **Concurrency and unmounting.** Interleaving of asynchronous callbacks and component unmounting are not modelled. Every handler runs to completion before the next event, except that the dashboard's two requests both leave before either reply is handled; the profile reply is then handled first. The response interceptor's effects on the client state do not depend on that order.
- Dashboard.DashboardView.LoadData: when both requests fail, the model reports the profile's failure; which one `Promise.all` reports depends on timing.
- Withdraw.WithdrawForm.HandleSubmit: the browser's own validation of the amount input (`min`, `max`, `step`, `required`, src/pages/Withdraw.jsx:107-110), which can refuse a submission before the handler runs, is not modelled; neither is the `disabled` state of the submit button (`loading || success || balance < 10`), so the handler is modelled in every state.
- Deposit.DepositForm.HandleSubmit: the browser's own validation of the amount input (`min`, `max`, `step`, `required`, src/pages/Deposit.jsx:91-94) and the submit button's `disabled` state are not modelled, so the handler is modelled for every amount and in every state.
- Withdraw.WithdrawForm.PressQuickAmount: the buttons' `disabled={loading || success}` is not modelled, so a press is modelled in every state.
- Js.Round2: works on exact reals, not IEEE doubles, so binary representation error in `toFixed` is not captured.
- **Serialized user.** `JSON.stringify`/`JSON.parse` of the stored user are taken to be inverse. A user key holding something other than a serialized user is not modelled.
- Withdraw.BalanceOf: a stored balance that `parseFloat` reads as NaN is not modelled. The balance is a number or absent (absent reads as 0).
- AuthService.TelegramLogin: a success reply that lacks `token` or `user` is not modelled. The reply type always carries both.
- Telegram.InitTelegramWebApp: an exception thrown part-way through the host calls is not modelled. `Env.faulty` makes the whole function return null with no calls.
- Routing.PageAt: matches paths exactly. Case-insensitive or trailing-slash matching by the router library is not modelled.
- **Display-only data.** The referral statistics, the profile's wallet and investment figures, and transaction dates are not modelled. They are only displayed.
