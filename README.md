# 10bis credit automation — a verified Dafny model

This project models the core of a small automation that keeps a 10bis
(Israeli meal-card) account topped up. The automation comes in two
flavours that share one design:

- **Cron scripts** under `10bis-automation/`. `refresh-token.js` renews the
  session tokens stored in `config.json`. `load-credit.js` charges the
  configured amount to the configured money card on weekdays.
- **GitHub Actions scripts** at the top level. `github-refresh-token.js` and
  `github-load-credit.js` do the same work with configuration from
  environment variables. They mask secrets and report their outcome as
  workflow outputs.

Both flavours rely on a utility object. `utils.js` provides the
`config.json` store. `github-actions-utils.js` provides environment
configuration, workflow outputs and masks. Both provide the same retrying
HTTP client, field validation and weekend test. Two Teams notifiers
report a credit load: an incoming-webhook MessageCard and a Microsoft
Graph direct chat message.

Modules, one per source unit:

| module | models |
|---|---|
| `Js` | the JavaScript notions the scripts rely on: truthy strings, `trim()`, number-to-string |
| `Http` | `makeHttpRequest`: up to `retries` attempts with exponential back-off |
| `Axios` | a single `axios.post` with axios's default status check, as the notifiers use it |
| `Config` | `validateConfig`, the `{...a, ...b}` merge, `isWeekend` |
| `Utils` | the `config.json` store of `utils.js` as a class with a backup copy |
| `GitHubActionsUtils` | `getConfig`, `updateConfig`, `setOutput`, `maskValue` as a class that records workflow commands |
| `Requests` | the refresh and credit-load requests built from a configuration |
| `TokenExtraction` | where new tokens come from: Set-Cookie, `authorization`, `x-access-token`, `x-refresh-token`, body |
| `GitHubRefresh` | `extractTokensFromHeaders` and `refreshTokens` of `github-refresh-token.js` |
| `LocalRefresh` | `refreshTokens` of `10bis-automation/refresh-token.js` |
| `CreditLoad` | classification of the credit-load answer, shared by both credit scripts |
| `GitHubLoadCredit` | `loadCredit` and `testConfiguration` of `github-load-credit.js` |
| `LocalLoadCredit` | `loadCredit` and `testConfiguration` of `10bis-automation/load-credit.js` |
| `TeamsWebhook` | `formatWebhookMessage` and `sendNotification` of `teams-webhook-notifier.js` |
| `TeamsGraph` | `getAccessToken`, `formatMessage` and `sendNotification` of `github-teams-notifier.js` |

How the outside world is modelled:

- **Network.** Every network call is a parameter: one `Attempt` per try,
  either an answer (status, status text, headers, optional body) or a
  transport error with its message. An empty body is an absent one, and
  every property read from it is `undefined`. A script run takes a scripted sequence
  of at least three attempts for its retrying request.
- **Environment and day.** The process environment is a `map`. The day of
  the week (0 = Sunday) is an integer parameter.
- **Workflow commands.** The `::add-mask::` and `::set-output::` lines are
  the `Command` values `Mask(value)` and `Output(name, value)`, appended to
  `ActionsUtils.commands`.
- **Configuration.** A configuration is a `map<string, string>`. A field
  that is `undefined` in JavaScript is an absent key. A JavaScript truthy
  string is a non-empty one.
- **Script runs.** Each script run is a method over those parameters. It is
  proved equal to a specification function, such as `GitHubRefreshRun` or
  `GitHubCreditRun`, that states the whole run: how it ends, the request it
  sends, the commands it emits and the configuration it leaves. The
  lemmas state the properties of those functions.

The retry loop retries 4xx answers. The comment on its axios call at
`10bis-automation/utils.js:103` says "Don't throw on 4xx errors", and
`validateStatus` does accept every status below 500. But lines 106-108
then throw for any status of 400 or more inside the same `try`. That
error is caught like any other and counts as a failed attempt, so a 4xx
answer is retried. The model follows the code: see
`Http.ClientErrorIsRetried`. A status of 500 or more is rejected by axios
itself, and the loop sees axios's `Request failed with status code N`
message instead of its own `HTTP N: text` (`Http.ServerErrorIsRejected`).

`github-refresh-token.js:182` reads `config.AccessToken.substring(...)`
whenever the response supplies an access token. When the configuration
has none, the read throws. This happens on the first run in Actions with
only `REFRESH_TOKEN` set. The TypeError is caught at lines 210-223: the
new tokens are never stored or output, and the run exits with status 1.
The model keeps this path. `GitHubRefresh.AccessTokenHazard` and
`GitHubRefresh.FirstRunHazardExample` state it.

## Model

| member | source | states |
|---|---|---|
| Js.NatToString | github-load-credit.js:78 | `status.toString()` of a natural number is a non-empty string of decimal digits with no leading zero |
| Js.NatToStringRoundTrip | github-load-credit.js:78 | reading the printed digits back gives the original status number |
| Http.Backoff | 10bis-automation/utils.js:120-123 | the wait after failed attempt k is `2^k * 1000` ms, one wait per retry |
| Http.BackoffDoubles | 10bis-automation/utils.js:120-123 | the first wait is 2000 ms and each later wait doubles the previous one |
| Http.RetrySpec | 10bis-automation/github-actions-utils.js:107-138 | at most `retries` attempts. It returns the first answer below 400, with every earlier attempt failed, and waits only between attempts. Otherwise it throws `All N attempts failed. Last error: …` carrying the last attempt's error. With `retries <= 0` it returns `undefined` |
| Http.MakeHttpRequest | 10bis-automation/utils.js:95-126 | the loop's result, attempt count and waits equal `RetrySpec` for every script of replies |
| Http.FirstSuccessIsFirst | 10bis-automation/utils.js:96-111 | the loop stops at the first attempt that succeeds |
| Http.FirstSuccessNone | 10bis-automation/utils.js:96-118 | when no attempt succeeds, all attempts are made |
| Http.ClientErrorIsRetried | 10bis-automation/utils.js:103-124 | a 4xx first answer is retried: after one 2000 ms wait, the second attempt's answer is returned |
| Http.FirstAttemptSucceeds | 10bis-automation/utils.js:106-111 | a first answer below 400 is returned at once, with no wait |
| Http.AttemptError | 10bis-automation/utils.js:106-117 | the message the loop quotes for a failed attempt: a thrown error's own message, axios's `Request failed with status code N` for 500 or more, and `HTTP ` followed by the status digits for 4xx |
| Http.ServerErrorIsRejected | 10bis-automation/utils.js:100-118 | a last answer of 500 or more makes the loop throw with axios's `Request failed with status code N`, not with the status text |
| Http.AllAttemptsFail | 10bis-automation/utils.js:112-124 | when every attempt fails, the result is the exhaustion error with the last attempt's message, after `retries - 1` waits |
| Axios.Post | teams-webhook-notifier.js:27-32 | a post resolves iff the answer is 2xx, with that answer. A transport error rejects with its message, another status with `Request failed with status code N` |
| Axios.StatusFailureReadsBack | teams-webhook-notifier.js:27-32 | axios's `Request failed with status code N` message ends in the decimal status, which reads back as N |
| Config.MissingFields | 10bis-automation/utils.js:162-163 | the filter keeps only required fields that are absent, empty or blank |
| Config.MissingFieldsMembers | 10bis-automation/utils.js:162-163 | a field is reported missing iff it is required and absent or blank |
| Config.MissingFieldsAppend | 10bis-automation/utils.js:162-163 | the missing fields of `a + b` are those of `a` followed by those of `b` (the report keeps the required order) |
| Config.ValidateConfig | 10bis-automation/utils.js:162-167 | passes iff no required field is absent, empty or blank. Otherwise it fails with `Missing required configuration fields: ` and the missing fields joined by `, ` |
| Config.PresentIsTruthy | 10bis-automation/github-actions-utils.js:174-179 | a field that passed validation is truthy |
| Config.CreditFieldsCheck | github-load-credit.js:30 | the credit check passes iff AccessToken, RefreshToken, Amount and MoneycardId are all present and non-blank |
| Config.WeekendDays | 10bis-automation/utils.js:138-142 | of the days 0 to 6, exactly 5 (Friday) and 6 (Saturday) are the weekend |
| Config.Merge | 10bis-automation/utils.js:83 | `{...current, ...updates}`: the keys of both, the update's value wins, other values kept |
| Utils.ConfigStore.constructor | 10bis-automation/utils.js:6-10 | a store over a given `config.json` and backup file |
| Utils.ConfigStore.ReadConfig | 10bis-automation/utils.js:43-56 | returns the stored configuration, or fails with `Config file does not exist` when there is none |
| Utils.ConfigStore.WriteConfig | 10bis-automation/utils.js:61-75 | copies the current file to the backup, then writes. A failed copy is reported, leaves `config.json` as it was, and leaves whatever the interrupted copy left as the backup. A failed write is reported, leaves whatever the truncating write left behind, and the backup already holds the previous file. Whenever the file changes, the backup holds the previous version |
| Utils.ConfigStore.UpdateConfig | 10bis-automation/utils.js:80-90 | reads, merges the updates over the current configuration and writes through `writeConfig`. A missing file leaves both files unchanged. A failed copy leaves the file unchanged and the copy's remains as the backup. A failed write leaves the write's remains, with the previous file in the backup |
| Utils.WriteReadUpdate | 10bis-automation/test.js:128-148 | write then read returns what was written; `updateConfig({Amount: '200'})` sets Amount to `200`, keeps every other field, and backs up the written version |
| GitHubActionsUtils.EnvConfig | 10bis-automation/github-actions-utils.js:46-53 | the four fields come from ACCESS_TOKEN, REFRESH_TOKEN, AMOUNT and MONEYCARD_ID; a field is present iff its variable is set |
| GitHubActionsUtils.GetConfig | 10bis-automation/github-actions-utils.js:44-66 | with ACCESS_TOKEN or GITHUB_ACTIONS set, the environment configuration. Otherwise the config file, or the `No configuration found…` error when there is none |
| GitHubActionsUtils.EnvModeCases | 10bis-automation/github-actions-utils.js:46 | in Actions the environment is always read; outside it only a non-empty ACCESS_TOKEN selects the environment |
| GitHubActionsUtils.EmitWholeOrNothing | 10bis-automation/github-actions-utils.js:184-197 | workflow commands are printed whole or not at all, unchanged exactly when GITHUB_ACTIONS is set |
| GitHubActionsUtils.CurrentTokenMasks | github-refresh-token.js:86-87 | only masks: one per truthy token, the access token's first and the refresh token's last |
| GitHubActionsUtils.TokenOutputs | 10bis-automation/github-actions-utils.js:73-84 | a mask and an output for each truthy new token, access token first; no other outputs |
| GitHubActionsUtils.ActionsUtils.constructor | 10bis-automation/github-actions-utils.js:6-9 | an environment, a config file and an empty command log |
| GitHubActionsUtils.ActionsUtils.SetOutput | 10bis-automation/github-actions-utils.js:184-188 | appends the output command only when GITHUB_ACTIONS is set |
| GitHubActionsUtils.ActionsUtils.MaskValue | 10bis-automation/github-actions-utils.js:193-197 | appends a mask only when GITHUB_ACTIONS is set and the value is truthy |
| GitHubActionsUtils.ActionsUtils.UpdateConfig | 10bis-automation/github-actions-utils.js:71-102 | in Actions, masks and outputs the new tokens and leaves the file alone. Otherwise it merges the updates over the file, or over `{}` when there is none |
| GitHubActionsUtils.MaskCurrentTokens | github-refresh-token.js:86-87 | masks the configured access token, then the refresh token, each only if truthy |
| GitHubActionsUtils.EnvConfigExample | 10bis-automation/test-github-actions.js:130-160 | the mock environment yields the four mock values |
| Requests.RefreshRequest | github-refresh-token.js:90-108 | a POST to the refresh URL with `refreshToken` in the body. It carries the session Cookie iff both tokens are truthy, and never an Authorization header |
| Requests.CreditRequest | github-load-credit.js:37-54 | a PATCH to the credit URL with `Bearer <AccessToken>`, the tracking and session cookies, and `amount`/`moneycardIdToCharge` from the configuration |
| TokenExtraction.FirstMatchFrom | github-refresh-token.js:22 | finds the first position at or after `from` where `Key=` is followed by a non-`;` character, and no earlier one |
| TokenExtraction.TakeUntilSemicolon | github-refresh-token.js:22 | the longest `;`-free prefix (`[^;]+`) |
| TokenExtraction.CookieCapture | github-refresh-token.js:22-30 | a capture is a non-empty run of non-`;` characters |
| TokenExtraction.CookieCaptureNone | github-refresh-token.js:22-30 | the regex fails iff `Key=` followed by a non-`;` occurs nowhere in the cookie |
| TokenExtraction.CookieTokens | github-refresh-token.js:18-36 | the Set-Cookie loop sets only AccessToken and RefreshToken |
| TokenExtraction.CookieStepField | github-refresh-token.js:20-35 | one cookie sets a token iff it matches, and it overwrites an earlier value; otherwise the earlier value stays |
| TokenExtraction.CookieTokensDomain | github-refresh-token.js:20-35 | the loop yields a token iff some cookie carries it |
| TokenExtraction.CookieTokensLastWins | github-refresh-token.js:20-35 | when several cookies carry a token, the last one's value wins |
| TokenExtraction.DropLeadingSpace | github-refresh-token.js:40 | `\s+` after `Bearer` removes the whole leading whitespace run and nothing else |
| TokenExtraction.StripBearer | github-refresh-token.js:40 | a value starting with `Bearer` (any case) followed by whitespace loses that prefix and the whitespace; any other value is kept as is |
| TokenExtraction.HeaderTokens | github-refresh-token.js:13-63 | header extraction yields only AccessToken and RefreshToken |
| TokenExtraction.AccessHeaderSteps | github-refresh-token.js:39-50 | `x-access-token` beats `authorization`, which beats any earlier value |
| TokenExtraction.RefreshHeaderStep | github-refresh-token.js:52-56 | `x-refresh-token` beats any earlier value |
| TokenExtraction.AccessTokenPrecedence | github-refresh-token.js:13-63 | access token: `x-access-token` first, else `authorization` without `Bearer`, else the last Set-Cookie `Authorization=` capture, else none |
| TokenExtraction.RefreshTokenPrecedence | github-refresh-token.js:13-63 | refresh token: `x-refresh-token` first, else the last Set-Cookie `RefreshToken=` capture, else none |
| TokenExtraction.BodyTokens | github-refresh-token.js:131-150 | a body token is taken iff the body has it truthy, with the body's value |
| TokenExtraction.WithAmount | github-refresh-token.js:156-159 | Amount is set from the body whenever the body defines it, and no other key changes |
| TokenExtraction.BodyUpdates | 10bis-automation/refresh-token.js:57-73 | the cron updates are the truthy tokens and a defined Amount from the body |
| TokenExtraction.RefreshUpdates | github-refresh-token.js:131-159 | the updates hold at most the two tokens and Amount |
| TokenExtraction.HeaderBeatsBody | github-refresh-token.js:152-159 | header tokens override body tokens. Body tokens fill the gaps. Amount comes only from the body. Nothing else enters |
| TokenExtraction.RefreshUpdatesExtendBodyUpdates | github-refresh-token.js:152-159 | the Actions updates are the cron updates overridden by the header tokens |
| TokenExtraction.CookieBeatsBodyExample | github-refresh-token.js:152-153 | a Set-Cookie `Authorization=H1` beats a body `AccessToken` of `B1` |
| GitHubRefresh.SetToken | github-refresh-token.js:24-26 | sets the token and masks its value |
| GitHubRefresh.CookieTurn | github-refresh-token.js:20-35 | one loop turn gives the next token state and masks exactly the captured values |
| GitHubRefresh.ExtractTokensFromHeaders | github-refresh-token.js:13-63 | the loop and the three header checks yield `HeaderTokens` and emit exactly the masks of the values taken, in order |
| GitHubRefresh.SingleHeaderTurns | github-refresh-token.js:39-56 | the three header checks give the precedence result and mask each value taken |
| GitHubRefresh.CollectBodyTokens | github-refresh-token.js:133-150 | collects `BodyTokens` and masks each one taken |
| GitHubRefresh.ReportTokens | github-refresh-token.js:198-206 | outputs `access_token`, `refresh_token` for the truthy new tokens, then `tokens_updated=true` |
| GitHubRefresh.ApplyUpdates | github-refresh-token.js:161-206 | no updates ends the run quietly. An access-token update with none configured crashes (line 182). Otherwise it stores, outputs and reports success |
| GitHubRefresh.HandleResponse | github-refresh-token.js:127-206 | extraction, merging and conclusion for one answered request, as `AfterResponse` states |
| GitHubRefresh.HandleResult | github-refresh-token.js:114-119 | a thrown request fails with its message; `undefined` fails with "No response from refresh token API" |
| GitHubRefresh.RequestAndApply | github-refresh-token.js:86-206 | masks the current tokens, sends the refresh request with retries and handles the result |
| GitHubRefresh.TryRefresh | github-refresh-token.js:69-207 | the try block: get the configuration, require RefreshToken, then request and apply |
| GitHubRefresh.GitHubRefreshRun | github-refresh-token.js:68-224 | a run that sends no request fails and leaves the file alone |
| GitHubRefresh.RefreshTokens | github-refresh-token.js:68-224 | the whole run: the try block, then the catch block's failure outputs; the file, end, request and command log equal `GitHubRefreshRun` |
| GitHubRefresh.ReportFailure | github-refresh-token.js:215-219 | outputs `tokens_updated=false` and the error message |
| GitHubRefresh.CookieMasksAreMasks | github-refresh-token.js:20-35 | the cookie loop prints only masks |
| GitHubRefresh.TokenHeaderMasksAreMasks | github-refresh-token.js:39-56 | the header checks print only masks |
| GitHubRefresh.BodyMasksAreMasks | github-refresh-token.js:136-146 | body extraction prints only masks |
| GitHubRefresh.CurrentTokenMasksAreMasks | github-refresh-token.js:86-87 | masking the current tokens prints only masks |
| GitHubRefresh.ExtractionPrintsMasks | github-refresh-token.js:86-150 | everything printed before the conclusion is a mask |
| GitHubRefresh.MaskedAfterMasks | github-refresh-token.js:86-206 | a run of masks followed by a masked log is masked |
| GitHubRefresh.SuccessTailMasked | 10bis-automation/github-actions-utils.js:73-84 | each token output of a success is preceded by a mask of the same value |
| GitHubRefresh.ValidatedRun | github-refresh-token.js:73-83 | with a configuration holding RefreshToken, the try block is the request-and-apply stage |
| GitHubRefresh.AnsweredRun | github-refresh-token.js:114-206 | an answered request runs extraction, then the conclusion for the merged updates |
| GitHubRefresh.AccessTokenHazard | github-refresh-token.js:178-184 | with no configured AccessToken and a new one in the response, the run fails with the TypeError, keeps the file, exits 1, and emits only the masks and failure outputs |
| GitHubRefresh.CrashConclusion | github-refresh-token.js:178-184 | the crash happens before any store or output |
| GitHubRefresh.FirstRunHazardExample | github-refresh-token.js:178-184 | with only REFRESH_TOKEN set, a response carrying `x-access-token` produces exactly `mask r0, mask a1, tokens_updated=false, error=<TypeError>` |
| GitHubRefresh.ConclusionFacts | github-refresh-token.js:161-206 | no updates: ends quietly, file unchanged. Hazard: fails. Otherwise it reports exactly the updates, applies them, and ends with the success outputs. Every token output is masked |
| GitHubRefresh.WithConfigRequest | github-refresh-token.js:90-119 | the request is always sent. A failed or missing result ends the run with that error and leaves the file alone |
| GitHubRefresh.WithConfigQuiet | github-refresh-token.js:161-170 | a run that did not refresh prints only masks and leaves the file alone; outside Actions nothing is printed |
| GitHubRefresh.WithConfigRefreshed | github-refresh-token.js:152-206 | a refresh needs an answered request and non-empty merged updates. It stores exactly those updates and ends with `tokens_updated=true` in Actions |
| GitHubRefresh.RefreshedConclusion | github-refresh-token.js:195-206 | a successful conclusion stores the updates and emits their outputs |
| GitHubRefresh.WithConfigMasked | github-refresh-token.js:86-206 | in the request-and-apply stage every token output is preceded by its mask |
| GitHubRefresh.FailureTailMasked | github-refresh-token.js:216-219 | the failure outputs contain no token output |
| GitHubRefresh.FailureIsReported | github-refresh-token.js:210-223 | a failed run exits 1 and keeps the file. In Actions its last two commands are `tokens_updated=false` and the error, and everything before them is a mask |
| GitHubRefresh.SilentOutsideActions | github-refresh-token.js:68-224 | without GITHUB_ACTIONS no workflow command is printed |
| GitHubRefresh.SuccessAppliesUpdates | github-refresh-token.js:152-206 | a refreshed run stores exactly the merged header-over-body updates and exits 0. In Actions the file is untouched and the last output is `tokens_updated=true`; locally the file is merged |
| GitHubRefresh.NoUpdatesLeavesFile | github-refresh-token.js:161-170 | an answer with nothing to update leaves the file alone, prints only masks and exits 0 |
| GitHubRefresh.TokensMaskedBeforeOutput | github-refresh-token.js:68-224 | in every run, each `access_token`/`refresh_token` output is preceded by a mask of its value |
| GitHubRefresh.MissingRefreshTokenStops | github-refresh-token.js:83 | without RefreshToken nothing is sent. The run fails with the missing-field message and prints only the failure outputs |
| GitHubRefresh.RequestSentIffValid | github-refresh-token.js:73-114 | the request is sent iff a configuration was found with RefreshToken, and it is built from that configuration |
| GitHubRefresh.AllAttemptsFailReported | github-refresh-token.js:114-222 | three failed attempts end the run with the exhaustion message naming the third error, and the file is kept |
| LocalRefresh.CollectUpdates | 10bis-automation/refresh-token.js:57-73 | collects the truthy body tokens and a defined Amount |
| LocalRefresh.ApplyResponse | 10bis-automation/refresh-token.js:50-81 | an empty body fails, no updates ends quietly, otherwise the updates go through `updateConfig`; the store ends as `LocalAfterResponse` says, a failed copy or write included |
| LocalRefresh.RefreshTokens | 10bis-automation/refresh-token.js:13-93 | the whole cron run; its end, request and store (file and backup) equal `LocalRefreshRun` |
| LocalRefresh.LocalRefreshRun | 10bis-automation/refresh-token.js:13-93 | a run that sends no request fails and leaves the file and the backup alone |
| LocalRefresh.LocalFailureKeepsPrevious | 10bis-automation/refresh-token.js:85-92 | a run that did not refresh keeps `config.json`, except after a failed write. Then the file holds what the write left, the backup holds the previous file, and the run fails with the write's error. The backup is untouched or the previous file, except after a failed copy: then `config.json` is intact, the backup is what the copy left, and the run fails with the copy's error. It exits 1 exactly when it failed |
| LocalRefresh.LocalSuccessMerges | 10bis-automation/refresh-token.js:47-81 | a refresh merges exactly the body updates into the stored file, keeps the previous file as backup, and needs an answered request with a body |
| LocalRefresh.LocalEmptyBody | 10bis-automation/refresh-token.js:50-78 | no body: `Empty response from refresh token API`; a body with nothing to update: the store is untouched |
| LocalRefresh.LocalNoRequestWithoutRefreshToken | 10bis-automation/refresh-token.js:18-47 | no file or no RefreshToken: nothing sent and the matching error; otherwise the refresh request is sent |
| LocalRefresh.ScriptsAgreeWithoutHeaderTokens | github-refresh-token.js:152-159 | when the headers carry no token, both refresh scripts compute the same updates |
| CreditLoad.ResponseEnd | github-load-credit.js:64-86 | a body with 200/201 is a load, a body with another status is `unexpected_status` with that status, and no body is `no_response_data` |
| CreditLoad.RequestEnd | github-load-credit.js:59-86 | a returned response is classified by `ResponseEnd`. A thrown error fails the run with its message, a missing result with the TypeError |
| CreditLoad.AuthErrorSurvivesWrapping | github-load-credit.js:100 | a message flagged as an authentication error stays flagged once text is put around it |
| CreditLoad.UnexpectedStatusRange | 10bis-automation/utils.js:103-108 | an unexpected status that reaches the script is below 400 and not 200 or 201 |
| CreditLoad.Unauthorized401IsAuthError | github-load-credit.js:99-105 | three failed attempts ending in a 401 answer throw a message that the authentication check recognises |
| GitHubLoadCredit.ReportResponse | github-load-credit.js:64-86 | the outputs for each answer class: `success` and `amount_loaded`; `unexpected_status` and the status; `no_response_data` |
| GitHubLoadCredit.LoadWithConfig | github-load-credit.js:33-86 | masks the tokens, sends the credit request with retries and reports the answer |
| GitHubLoadCredit.TryLoadCredit | github-load-credit.js:14-87 | the try block: weekend skip, configuration, validation, then the request |
| GitHubLoadCredit.GitHubCreditRun | github-load-credit.js:13-110 | the run is skipped iff the day is Friday or Saturday; a run that sends nothing was skipped or failed |
| GitHubLoadCredit.LoadCredit | github-load-credit.js:13-110 | the whole run, catch block included; end, request and commands equal `GitHubCreditRun` |
| GitHubLoadCredit.ReportFailure | github-load-credit.js:94-105 | `credit_loaded=failed`, the error, and `auth_error=true` iff the message mentions 401 or Unauthorized |
| GitHubLoadCredit.ConfigTest | github-load-credit.js:134-135 | passes iff `getConfig` finds a configuration with all four fields; a `getConfig` error is the failure |
| GitHubLoadCredit.TestConfiguration | github-load-credit.js:130-156 | returns true iff a configuration was found with all four fields, and reports `config_test` accordingly |
| GitHubLoadCredit.WeekendSkips | github-load-credit.js:18-24 | on Friday or Saturday only `credit_loaded=skipped_weekend` is output; nothing is sent, and the exit status is 0 |
| GitHubLoadCredit.RequestIffConfigTestPasses | github-load-credit.js:27-59 | on a weekday the request is sent iff `testConfiguration` would pass. The request is built from that configuration; otherwise the run fails with the test's error |
| GitHubLoadCredit.ValidatedCreditRun | github-load-credit.js:27-59 | with a valid configuration the try block is the request stage |
| GitHubLoadCredit.TokensMaskedFirst | github-load-credit.js:33-34 | in Actions with a valid configuration, the first two commands mask the access and refresh tokens |
| GitHubLoadCredit.LoadedWithConfig | github-load-credit.js:64-73 | a load needs a 200/201 answer with a body, and ends with `amount_loaded` set to the configured amount |
| GitHubLoadCredit.LoadedReportsAmount | github-load-credit.js:59-73 | a loaded run sent its request, got 200/201 with a body, and its last output is the configured amount |
| GitHubLoadCredit.UnexpectedWithConfig | github-load-credit.js:74-79 | an unexpected status is below 400 and not 200/201, and its output reads back as that status |
| GitHubLoadCredit.UnexpectedStatusReported | github-load-credit.js:74-79 | the same for the whole run |
| GitHubLoadCredit.FailureReported | github-load-credit.js:88-108 | a failed run exits 1 and outputs `credit_loaded=failed` and the error. It outputs `auth_error=true` iff the message mentions 401 or Unauthorized |
| GitHubLoadCredit.FailureOutputsFollowMasks | github-load-credit.js:94-105 | masks followed by the failure outputs contain those outputs and the auth flag exactly when due |
| GitHubLoadCredit.TriedFailurePrintsMasks | github-load-credit.js:14-87 | a try block that throws has printed only masks |
| GitHubLoadCredit.Unauthorized401Flagged | github-load-credit.js:100-104 | three failed attempts ending in 401 set `auth_error=true` |
| GitHubLoadCredit.CreditSilentOutsideActions | github-load-credit.js:13-110 | without GITHUB_ACTIONS no workflow command is printed |
| GitHubLoadCredit.ConfigTestExample | github-load-credit.js:130-147 | the mock Actions environment of the test suite (ACCESS_TOKEN, REFRESH_TOKEN, AMOUNT, MONEYCARD_ID set) passes the configuration test |
| LocalLoadCredit.LoadCredit | 10bis-automation/load-credit.js:13-83 | the cron run over the store; end, request and authentication hint equal `LocalCreditRunOf` |
| LocalLoadCredit.LocalCreditRunOf | 10bis-automation/load-credit.js:13-83 | skipped iff the day is Friday or Saturday; nothing sent means skipped or failed; the authentication hint only comes with exit status 1 |
| LocalLoadCredit.LocalConfigTest | 10bis-automation/load-credit.js:107-108 | passes iff `config.json` exists with all four fields; no file fails with `Config file does not exist` |
| LocalLoadCredit.TestConfiguration | 10bis-automation/load-credit.js:103-121 | true iff `config.json` exists and has all four fields |
| LocalLoadCredit.LocalWeekendSkips | 10bis-automation/load-credit.js:18-21 | on Friday or Saturday nothing is read or sent and the exit status is 0 |
| LocalLoadCredit.LocalRequestIffConfigTestPasses | 10bis-automation/load-credit.js:24-52 | on a weekday the request is sent iff the configuration test passes. It carries the stored values; otherwise the run fails with the test's error |
| LocalLoadCredit.IncompleteConfigFails | 10bis-automation/load-credit.js:24-27 | no file or any missing field: the test fails, nothing is sent, and the exit status is 1 |
| LocalLoadCredit.EmptyConfigFailsTest | 10bis-automation/test.js:240-255 | an empty configuration fails the test, naming all four fields; no file fails with `Config file does not exist` |
| LocalLoadCredit.AuthHintOn401 | 10bis-automation/load-credit.js:76-78 | three failed attempts ending in 401 log the token-refresh hint and exit 1 |
| LocalLoadCredit.ScriptsAgreeOnFile | 10bis-automation/load-credit.js:13-83 | reading `config.json`, the cron and Actions credit scripts send the same request and end alike. Only the missing-file message differs |
| TeamsWebhook.FormatWebhookMessage | teams-webhook-notifier.js:60-116 | a MessageCard with amount, time and status facts. The error fact appears iff the load failed and an error was given. Colour, title mark, summary and subtitle all follow `status === 'success'` |
| TeamsWebhook.CardFacts | teams-webhook-notifier.js:67-87 | amount, time and status facts, the status `Success` or `Failed`, and an Error fact iff the error is shown |
| TeamsWebhook.WebhookDelivery | teams-webhook-notifier.js:16-55 | skipped iff the URL is missing or blank, delivered iff the post answered 200, never a bare rejection; a transport error keeps its message |
| TeamsWebhook.TeamsWebhookNotifier.constructor | teams-webhook-notifier.js:4-7 | keeps the URL and the utility object |
| TeamsWebhook.TeamsWebhookNotifier.SendNotification | teams-webhook-notifier.js:16-55 | a missing or blank URL posts nothing. Otherwise it posts the card once; 200 outputs `sent_webhook`, and anything else outputs `failed` with the error. It never throws |
| TeamsWebhook.WebhookSkipsIffNoUrl | teams-webhook-notifier.js:17-20 | the notification is skipped iff the URL is missing or blank, and then nothing is output |
| TeamsWebhook.WebhookDeliveredIff200 | teams-webhook-notifier.js:34-51 | delivered iff the webhook answered 200; with a URL every other outcome is reported as an error |
| TeamsWebhook.WebhookErrorNamesStatus | teams-webhook-notifier.js:34-50 | another 2xx reports `Webhook returned status N`; a non-2xx reports axios's status message |
| TeamsWebhook.UnexpectedStatusReadsBack | teams-webhook-notifier.js:41 | the status reads back from `Webhook returned status N` |
| TeamsWebhook.SuccessCardHasNoError | teams-webhook-notifier.js:82-87 | a success card never carries an error fact |
| TeamsGraph.TokenStep | github-teams-notifier.js:16-44 | a cached truthy token is reused with no post. Otherwise one unauthenticated post to the tenant's token URL; the lookup resolves iff it answered 2xx, and then caches what it read |
| TeamsGraph.ChatStage | github-teams-notifier.js:74-118 | first the chat post with `Bearer <token>` and the user bound, then, iff it answered 2xx, the message post; the cache is kept |
| TeamsGraph.GraphSend | github-teams-notifier.js:53-130 | skipped iff a setting is missing, and then nothing is posted; at most three posts |
| TeamsGraph.GitHubTeamsNotifier.constructor | github-teams-notifier.js:4-11 | keeps the four settings and starts with no cached token |
| TeamsGraph.GitHubTeamsNotifier.GetAccessToken | github-teams-notifier.js:16-44 | a cached token is returned without a post. Otherwise it posts the client-credentials form to the tenant's token URL and caches `access_token`, which is `undefined` for an empty body; a failed post is rethrown |
| TeamsGraph.GitHubTeamsNotifier.SendNotification | github-teams-notifier.js:53-130 | skips when a setting is missing. Otherwise: token, create the one-on-one chat, post the message; 201 outputs `sent`, another answer `failed`, an error `error` with `teams_error`. It never throws |
| TeamsGraph.GitHubTeamsNotifier.CreateChatAndPost | github-teams-notifier.js:74-103 | creates the chat with the user bound, then posts the message to that chat's URL. For an empty chat body that is the chat `undefined` |
| TeamsGraph.GitHubTeamsNotifier.ReportDelivery | github-teams-notifier.js:105-126 | outputs the delivery as `teams_notification` (and `teams_error` on error) in Actions |
| TeamsGraph.GraphSkipsIffIncomplete | github-teams-notifier.js:54-57 | skipped iff tenant, client, secret or user is missing; then nothing is posted and the cache is kept |
| TeamsGraph.CachedTokenReused | github-teams-notifier.js:17-19 | with a cached token no token request is made and every post is authorised with it |
| TeamsGraph.TokenFetchedOnce | github-teams-notifier.js:16-38 | once a token is cached, the next notification posts no token request and keeps the cache |
| TeamsGraph.GraphDeliveredIff201 | github-teams-notifier.js:53-118 | delivered iff the settings are complete, the token lookup does not throw, the chat post answers 2xx, and the message post answers 201. An empty body does not stop the run. A non-201 success is a rejection carrying that status |
| TeamsGraph.MessageGoesToCreatedChat | github-teams-notifier.js:77-103 | the message post follows a 2xx chat creation, with the same authorisation, to the messages URL of the chat's `id` (`undefined` when absent or the body is empty) |
| TeamsGraph.EmptyBodiesReadUndefined | github-teams-notifier.js:36-103 | with empty token and chat bodies, the token `undefined` is cached, both posts carry `Bearer undefined`, the message goes to `chats/undefined/messages`, and a 201 there counts as sent |
| TeamsGraph.TokenStepPosts | github-teams-notifier.js:16-38 | at most one token post, to the tenant's token URL, made iff no token is cached |
| TeamsGraph.StageMessageGoesToChat | github-teams-notifier.js:77-103 | the chat stage posts the message to the chat it created |
| TeamsGraph.MessageItems | github-teams-notifier.js:135-165 | the HTML lists the amount, time and status items, and the error item when it is shown |
| TeamsGraph.MessageErrorItem | github-teams-notifier.js:153-155 | without a shown error the HTML is the error-free HTML. With one it is the error-free HTML with the error item added last in the list |
| TeamsGraph.MessageOpensWithHead | github-teams-notifier.js:139-142 | the HTML opens with the border, followed by its colour |
| TeamsGraph.MessageColour | github-teams-notifier.js:139-142 | the border colour is `#00FF00` exactly for a success and `#FF0000` otherwise, and the HTML ends by closing the list |
| TeamsGraph.HtmlListsCardFacts | github-teams-notifier.js:135-165 | the HTML lists every fact the webhook card carries, so both notifiers report the same facts |

## Left out

- Network, timers and clocks: every HTTP exchange is a scripted reply; `sleep` is reduced to the list of waits; the day of the week and the Israel time stamp are parameters.
- Log files: the `log` helper, the `logs/` directory and every log line are not modelled. Only decisions that depend on them are kept, such as the authentication hint of `load-credit.js`.
- JSON: reading and writing `config.json` is reduced to a stored `map<string, string>`. Non-string configuration values (an `Amount` stored as a number) are not represented.
- GitHubActionsUtils.ActionsUtils.UpdateConfig: disk failures of `readJsonSync`/`writeJsonSync` in the local branch are not modelled (the disk failures of `utils.js` are, as an injected `DiskFault`).
- Utils.ConfigStore.ReadConfig: a `config.json` that exists but is not valid JSON is not represented; the store holds either a configuration or nothing.
- Utils.ConfigStore.WriteConfig: what a failed `writeJson` leaves behind is an injected configuration or nothing. A truncated file that no longer parses, and the parser message a later read would report, are not represented.
- Utils.ConfigStore.WriteConfig: what a failed `fs.copy` leaves as `config.json.backup` (the old backup, nothing, or a partial copy) is likewise an injected configuration or nothing.
- LocalRefresh.LocalFailureKeepsPrevious: after a failed write it promises only that the backup holds the previous file, not that `config.json` is intact; after a failed copy it promises nothing about the backup beyond what the copy left.
- TeamsGraph.TokenStep: a body that is JSON `null` makes `response.data.access_token` throw a TypeError naming `null`; the model has a single empty body, read as `undefined`, and does not produce that error. The same holds for the chat body in TeamsGraph.ChatStage.
- `GitHubActionsUtils.GetConfig`: an unreadable `config.json` (the swallowed `readJsonSync` error) is treated as an absent file, which it falls through to.
- The literal `::set-output name=…::` and `::add-mask::` text: commands are the values `Output(name, value)` and `Mask(value)`.
- `process.exit` and the `run()` wrappers: exit statuses are the functions `ExitStatus` and `CreditExitStatus`; the start and end log banners are not modelled.
- `GitHubRefresh.ExtractTokensFromHeaders`: the `catch` inside `extractTokensFromHeaders` is unreachable for string headers and is left out.
- `Http.MakeHttpRequest`: axios timeouts and redirects are folded into a `Raised` attempt; the request itself is not inspected.
- `LocalLoadCredit.EmptyConfigFailsTest`: states the failure message as the prefix followed by the four field names joined by `, `, not as one literal string.
- The notifiers' `sendSuccessNotification`, `sendFailureNotification` and `testConnection` wrappers only fix arguments or read the clock; they are not modelled.
- `update-github-secrets.js`, `debug-token-refresh.js` and the test scripts beyond the cases cited above are not part of this model.
