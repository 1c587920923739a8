# Decision Lag: a Dafny model of the server routes and forms

Decision Lag is a Next.js application. It lets a user log in to Salesforce
with OAuth 2.0 and PKCE (RFC 6749, RFC 7636). It then keeps
`Decision_Insight__c` and `Decision_View_Event__c` records in the user's org
through a few proxy routes, and hands out a Tableau frontdoor URL. This
project models these parts:

- the session module (`lib/session.ts`);
- the three authentication routes (login, the Salesforce callback, logout);
- the Salesforce proxy routes (create insight, list insights, record a view,
  create a view event);
- the frontdoor route;
- the health and sObject-listing diagnostics;
- the domain filter of the insights table;
- the two insight forms.

Conventions of the model:

- **JavaScript values.** A request body, an upstream JSON reply or a response
  body is a `Js.JsValue`. A response body is the value handed to
  `NextResponse.json`, before serialisation. `Js` spells out the evaluation
  rules the handlers rely on:
  - truthiness, `||` and `??`;
  - property reads that throw on `null` and `undefined`;
  - optional chaining;
  - the string form of a value inside a template literal.
- **Upstream fetches are inputs.** A route receives the reply Salesforce would
  give, as an `Http.Upstream`: either an answer with a status, the body text
  and the result of parsing it as JSON, or the message of a rejected fetch.
  The route returns the response together with the `Http.Call` it would have
  sent, if any. So the model shows what is sent, and when nothing is sent.
- **Exceptions are values.** A `throw` inside a handler's `try` is a
  `Js.Throw`, and the `catch` turns it into the handler's 500 reply. Where a
  handler has no `catch` (`/api/debug/sobjects`), the framework's own 500 is
  `Http.Crash`.
- **The session is an object.** `SessionConfig.Session` holds what the
  session cookie holds after `save()`. The login, callback and logout routes
  change it in place, and the read-only routes are given a snapshot of it
  (`SessionData`).
- **The forms are objects.** The component state of each form is a `Form`
  object, and `Submit` is its `handleSubmit`.
- **Records are objects.** The Salesforce record that the view-count PATCH
  writes is an `UpdateView.Record` object.
- **Numbers are reals.** JavaScript numbers are modelled as `real`, and the
  integer-valued form fields as `int`.

## Model

| member | source | states |
|---|---|---|
| `Js.Prop` | app/api/salesforce/insights/create/route.ts:15 | Reading a property throws exactly on `null` and `undefined`. On an object it gives the stored value, or `undefined` for a missing key. On any other value it gives `undefined`. |
| `Js.Utf16Length` | lib/session.ts:6 | A string's `length` counts UTF-16 code units. It lies between the number of characters and twice that, and it equals the number of characters when none of them is above U+FFFF. |
| `Strings.TrimTrailingSlashes` | app/api/auth/login/route.ts:29 | `replace(/\/+$/, "")` gives a prefix of the input that does not end in `/`, and every character removed is a `/`. |
| `Strings.TrimIdempotent` | app/api/auth/login/route.ts:28-30 | Trimming trailing slashes twice is the same as trimming once. |
| `Strings.TrimKeepsUnslashed` | app/api/auth/callback/salesforce/route.ts:27-29 | A URL that does not end in `/` passes through the trim unchanged. |
| `Strings.TrimRemovesOnlySlashes` | app/api/auth/login/route.ts:29 | The input is the trimmed text followed by nothing but slashes. |
| `Strings.TrimKeepsChars` | app/api/auth/login/route.ts:29 | The trimmed text has no character that the input lacks. |
| `Strings.AfterLast` | app/api/auth/login/route.ts:24-26 | `split('=').pop()` is the suffix of the input after its last `=`: it has no `=`, it is preceded by `=` when shorter than the input, and it is the whole input when there is no `=`. |
| `Strings.LowerAscii` | app/api/tableau/frontdoor/route.ts:70 | `toLowerCase()` keeps the length and lowers each ASCII letter in place. |
| `Strings.ReplaceChar` | app/api/auth/login/route.ts:16-17 | `replace(/x/g, y)` keeps the length and changes exactly the positions holding `x`. |
| `Strings.RemoveChar` | app/api/auth/login/route.ts:18 | `replace(/=/g, '')` leaves no `=` and keeps every other character. |
| `SessionConfig.Load` | lib/session.ts:4-18 | The module aborts with the critical error message exactly when the password is missing or its `length` (UTF-16 code units) is below 32. Otherwise the options carry that password, the cookie name `decision-debt-studio-session`, and `secure` exactly in production. |
| `SessionConfig.LoadAbortsUnlessAccepted` | lib/session.ts:6-10 | The startup succeeds exactly when the password is accepted: present, with a `length` of at least 32 UTF-16 code units. |
| `SessionConfig.AstralSecretAccepted` | lib/session.ts:6 | A secret of sixteen characters above U+FFFF has a `length` of 32, so it is accepted and the application starts. |
| `SessionConfig.Session.constructor` | lib/session.ts:20-26 | A session without a cookie reads as not logged in, with no tokens and no verifier. |
| `SessionConfig.Session.Destroy` | app/api/auth/logout/route.ts:8 | `destroy()` leaves the empty session. |
| `Login.Hex` | app/api/auth/login/route.ts:7 | `toString('hex')` gives two lower-case hexadecimal digits per byte. |
| `Login.FromHex` | app/api/auth/login/route.ts:7 | Decoding hexadecimal text gives one byte per two digits. |
| `Login.HexRoundTrip` | app/api/auth/login/route.ts:6-8 | Decoding the hex text of the bytes gives the bytes back, so the verifier determines the random bytes. |
| `Login.VerifierConforms` | app/api/auth/login/route.ts:6-8 | A verifier from 32 random bytes has 64 characters, within the 43 to 128 of section 4.1 of RFC 7636, all of them unreserved characters. |
| `Login.Base64Url` | app/api/auth/login/route.ts:15-18 | The rewritten challenge contains no `+`, no `/` and no `=`. |
| `Login.Base64UrlAlphabet` | app/api/auth/login/route.ts:15-18 | Standard base64 text becomes text over the base64url alphabet of section 5 of RFC 4648. |
| `Login.Base64UrlRoundTrip` | app/api/auth/login/route.ts:11-19 | Mapping `-` back to `+` and `_` back to `/` gives the digest text without its padding. So the rewrite loses nothing but the `=` padding. |
| `Login.AuthorizeParamsConform` | app/api/auth/login/route.ts:46-55 | The authorization request carries the client id, the redirect URI, `response_type=code`, the scope `api refresh_token`, the challenge, and `code_challenge_method=S256`. |
| `Login.NormalizeLoginUrlShape` | app/api/auth/login/route.ts:24-30 | A configured `SF_LOGIN_URL` stays configured. It keeps only what follows its last `=`, has no `=`, and does not end in `/`. |
| `Login.NormalizeLoginUrlIdempotent` | app/api/auth/login/route.ts:28-30 | Normalising a normalised login URL changes nothing. |
| `Login.Get` | app/api/auth/login/route.ts:21-58 | Without a usable login URL, client id or redirect URI, it answers 500 with the configuration message and the session is unchanged. Otherwise the session's only change is a verifier made from the random bytes. The redirect goes to `<login url>/services/oauth2/authorize`, with the challenge derived from that same stored verifier. |
| `Callback.TokenParamsConform` | app/api/auth/callback/salesforce/route.ts:38-45 | The token request carries `grant_type=authorization_code`, the code, the stored verifier, the client id and the redirect URI. |
| `Callback.TrimLoginUrl` | app/api/auth/callback/salesforce/route.ts:27-29 | The callback trims only trailing slashes from a configured login URL, and never drops a configured URL. |
| `Callback.ExchangeResult` | app/api/auth/callback/salesforce/route.ts:47-72 | The tokens are granted exactly for a 2xx reply with a non-null JSON body. Every refusal is a 500. A non-2xx object reply gives `error_description`, or the default message when that is falsy. |
| `Callback.Get` | app/api/auth/callback/salesforce/route.ts:4-73 | The checks run in the source's order: the provider's `error` (400), then a missing code (400), then a missing verifier (400), then incomplete configuration (500). The token request is sent exactly when all of them pass, and carries the stored verifier. Only a granted exchange changes the session: it logs the session in with the reply's tokens, clears the verifier, and redirects to `/insights`. |
| `Logout.LogoutRedirect` | app/api/auth/logout/route.ts:14-24 | The redirect goes to `/` on the request's origin with `logout=true`. It sets `Pragma: no-cache`, `Expires: 0`, and a `Cache-Control` that includes both `no-store` and `no-cache`. |
| `Logout.Get` | app/api/auth/logout/route.ts:5-28 | When reading the session fails, it answers 500 `Logout failed` and changes nothing. Otherwise the session ends empty, the session cookie is deleted, and the answer is the no-cache redirect. |
| `Salesforce.TruthyPropOfObject` | app/api/salesforce/insights/create/route.ts:15 | A truthy field read from a non-null body means the body is an object that has the field. |
| `Salesforce.UpstreamError` | app/api/salesforce/insights/create/route.ts:29-45 | An error reply is answered 400 with the missing-object hint when it is an array whose first element has `errorCode` `INVALID_TYPE`. Otherwise it is answered with the upstream status and `Salesforce API error`. Both bodies carry the upstream data as `details`. |
| `Salesforce.CreatedReply` | app/api/salesforce/insights/create/route.ts:28-48 | A parsed 2xx reply is returned with status 201 and the upstream body. A parsed error goes through `UpstreamError`. A rejected fetch or an unparsable body throws its message. |
| `CreateInsight.Post` | app/api/salesforce/insights/create/route.ts:4-53 | The route answers 401 without a session, and 500 for an unparsable or null body. It answers 400 unless the title, impact, risk and confidence are all truthy. The POST is made exactly when they are, and it forwards the request body unchanged with the session's bearer token. After that, the response is 201 with Salesforce's record, the error mapping, or 500. |
| `CreateInsight.ZeroConfidenceRefused` | app/api/salesforce/insights/create/route.ts:15-17 | An insight with confidence 0 is refused with 400 and nothing is sent. |
| `CreateViewEvent.Post` | app/api/salesforce/view-events/create/route.ts:4-55 | It has the guards of the insight route, with the insight, viewer name and source as the required fields. The body sent is the request body with `Viewed_At__c` set to the current time, and with every other key and value as the client sent it. |
| `ListInsights.QueryOrdersAndLimits` | app/api/salesforce/insights/list/route.ts:14-19 | The query is a `SELECT` ordered by `CreatedDate DESC` that ends with `LIMIT 100`. |
| `ListInsights.Get` | app/api/salesforce/insights/list/route.ts:4-59 | The route answers 401 without a session. Otherwise it sends the query with the bearer token. It answers the error mapping for a non-2xx reply and the `records` for a 2xx reply, or `[]` when `records` is null or absent. A null body, a rejected fetch or an unparsable body gives 500. |
| `UpdateView.NewViewCount` | app/api/salesforce/insights/updateView/route.ts:33-34 | A numeric count is raised by one, and a falsy count becomes 1. |
| `UpdateView.Outcome` | app/api/salesforce/insights/updateView/route.ts:4-66 | The route answers 401 without a session and 400 without a truthy `insightId`, with nothing sent in either case. The count query is made exactly for a truthy id. When the query is refused, or when it finds no record, the route answers with the query's status. The PATCH is made exactly when a record's count is read. It targets that id and carries only the new count and the time. The route answers 204 exactly when Salesforce accepts the PATCH, and otherwise answers with the PATCH's status. |
| `UpdateView.NoRowsAnswersQueryStatus` | app/api/salesforce/insights/updateView/route.ts:28-31 | A query that succeeds with no rows is answered 200 with the not-found error, and nothing is patched. |
| `UpdateView.FreshReadIncrements` | app/api/salesforce/insights/updateView/route.ts:20-48 | A count that was read back is written back one higher, to the same record, with nothing but the two view fields. |
| `UpdateView.Record.constructor` | app/api/salesforce/insights/updateView/route.ts:41 | A record has an id and its fields. |
| `UpdateView.Record.Apply` | app/api/salesforce/insights/updateView/route.ts:41-48 | A PATCH overwrites the fields it names and keeps the others. |
| `UpdateView.Patch` | app/api/salesforce/insights/updateView/route.ts:20-60 | The record changes only when the PATCH targets it and is accepted, and then only in `Last_Viewed_At__c` and `View_Count__c`. When the query read this record, its count goes from `n` to `n + 1`, where a falsy count counts as 0. |
| `Frontdoor.SelectCredentials` | app/api/tableau/frontdoor/route.ts:19-29 | A logged-in session with a token and an instance URL supplies the credentials, without reading the body. Otherwise the body's `accessToken` and `instanceUrl` are used, and an unparsable or null body throws. |
| `Frontdoor.Classify` | app/api/tableau/frontdoor/route.ts:65-93 | An error code containing `scope` is explained first, as the missing Wave API scope. Otherwise status 401 gives the authentication message, 403 the access message, and any other status the default message with an empty hint. |
| `Frontdoor.ErrorCode` | app/api/tableau/frontdoor/route.ts:68 | The code is the first truthy value of `error` and `errorCode`, else the empty string. A null error body throws when it is read, and a code that is not a string throws at `toLowerCase`. |
| `Frontdoor.Details` | app/api/tableau/frontdoor/route.ts:98 | The details are the first truthy value of `error_description`, `error` and `message`, else `Unknown error`, so they are always truthy. |
| `Frontdoor.ErrorAnswer` | app/api/tableau/frontdoor/route.ts:54-104 | A readable error answers with the upstream status, and a body of the explanation, the details, the hint, the status and the raw error. An error body that cannot be read, or a code that is not a string, gives the generic 500. |
| `Frontdoor.ErrorDataAsWritten` | app/api/tableau/frontdoor/route.ts:56-60 | As written, a parsed error body is used as it is, and an unparsable one makes the fallback `text()` read throw `Body is unusable`. |
| `Frontdoor.ErrorData` | app/api/tableau/frontdoor/route.ts:56-60 | As intended, the error body is always available: the parsed JSON, or `{error: text}` holding the raw text. |
| `Frontdoor.AsWrittenLosesStatus` | app/api/tableau/frontdoor/route.ts:54-60 | As written, every error reply whose body is not JSON is answered 500 `Internal server error` with `Body is unusable`. So any status other than 500 is lost. |
| `Frontdoor.TextErrorKeepsStatus` | app/api/tableau/frontdoor/route.ts:54-104 | With the intended error body, a reply that is not JSON is answered with its own status and its text as the details. |
| `Frontdoor.InvalidScopeIsScope` | app/api/tableau/frontdoor/route.ts:70 | A code containing `invalid_scope`, in any letter case, is explained as the missing scope. |
| `Frontdoor.SuccessAnswer` | app/api/tableau/frontdoor/route.ts:107-127 | A 2xx reply answers the first truthy value of `frontdoorUrl` and `url`, with `expiresIn`, or 300 when that is falsy. It answers 500 `Invalid response from Salesforce` when both URLs are falsy. An unparsable or null body gives the generic 500. |
| `Frontdoor.SuccessUrlFallback` | app/api/tableau/frontdoor/route.ts:111-126 | A successful answer always carries a truthy URL, preferring the reply's `frontdoorUrl` over its `url`. |
| `Frontdoor.Post` | app/api/tableau/frontdoor/route.ts:14-140 | Without a token and an instance URL it answers 401 and sends nothing, in particular when neither the session nor an object body has a truthy `accessToken`. Otherwise it POSTs to `<instance>/services/oauth2/singleaccess` with the bearer token, and answers through `ErrorAnswer` (with the corrected error body `ErrorData`) or `SuccessAnswer`. A rejected fetch gives the generic 500. |
| `Frontdoor.NoCredentialsNoCall` | app/api/tableau/frontdoor/route.ts:32-40 | When neither the session nor the body has a token, the credentials have no token, so no request leaves the server. |
| `Health.PresenceLabel` | app/api/health/route.ts:6-9 | A variable is reported `OK` exactly when it is set and non-empty, and `MISSING` otherwise. |
| `Health.PasswordLabel` | app/api/health/route.ts:12-15 | The session password is reported `OK` exactly when it is accepted, by the same UTF-16 `length` test as the startup guard. |
| `Health.Get` | app/api/health/route.ts:4-21 | The report has exactly the `salesforce`, `session`, `status` and `message` entries, with `status: ok`. Each Salesforce variable is `OK` exactly when it is set, and every entry is one of the two labels. |
| `Health.HealthAgreesWithStartup` | app/api/health/route.ts:12-15 | The password is reported `OK` exactly when the session module starts (lib/session.ts:6-10). |
| `Health.ReportRevealsOnlyPresence` | app/api/health/route.ts:4-19 | Two environments that agree on which variables are usable get the same report, so the report reveals no value. |
| `DebugSobjects.Names` | app/api/debug/sobjects/route.ts:15 | `map(o => o.name)` succeeds exactly when no element is null or undefined, and then gives each element's `name` in order. |
| `DebugSobjects.Summary` | app/api/debug/sobjects/route.ts:17-22 | The answer has exactly the instance URL, the total, whether `Decision_Insight__c` is among the names, and the first `min(50, n)` names. |
| `DebugSobjects.Get` | app/api/debug/sobjects/route.ts:4-22 | The route answers 401 `not logged in` without a session. Otherwise it sends the sObject listing call and answers the summary. Anything that throws reaches the framework's 500. |
| `DebugSobjects.MissingSobjectsListsNothing` | app/api/debug/sobjects/route.ts:15 | A null body, or one without `sobjects`, lists no names. |
| `DebugSobjects.SmallListsAreSampledWhole` | app/api/debug/sobjects/route.ts:21 | At most fifty names are sampled whole. |
| `InsightsList.SortStrings` | app/components/InsightsList.tsx:31 | The `sort()` of the options is sorted and a permutation of its input. |
| `InsightsList.DomainLabel` | app/components/InsightsList.tsx:78 | A row shows its domain, or `Unassigned` when the domain is null or empty. |
| `InsightsList.UniqueDomains` | app/components/InsightsList.tsx:24-33 | The options are sorted and distinct. They are exactly the non-null domains, plus `Unassigned` when some insight has no domain. Every row's label is among them. |
| `InsightsList.FilterInsights` | app/components/InsightsList.tsx:35-41 | The filtered table holds exactly the insights that the chosen option keeps, each as many times as in the input. Rows it does not keep are absent. |
| `InsightsList.FilterIsSubsequence` | app/components/InsightsList.tsx:36 | The filter keeps the insights in their original order. |
| `InsightsList.FilterAllIsIdentity` | app/components/InsightsList.tsx:37 | `All` shows every insight. |
| `InsightsList.FilterSelects` | app/components/InsightsList.tsx:38-39 | `Unassigned` keeps exactly the insights without a domain, and any other option keeps exactly the insights with that domain. |
| `InsightsList.RowLabelSelectsRow` | app/components/InsightsList.tsx:38-39 | Choosing the label a row shows keeps that row, except for a row whose domain is the literal text `Unassigned`. |
| `InsightsList.EmptyTableMessage` | app/components/InsightsList.tsx:85-88 | A message is shown exactly when the filtered table is empty. It is the no-match message when there are insights, and the none-found message when there are none. |
| `InsightsList.AllNeverMismatches` | app/components/InsightsList.tsx:37 | The `All` option never shows the no-match message. |
| `InsightsList.ViewCountLabel` | app/components/InsightsList.tsx:81 | A non-zero count is shown as it is, and a zero or missing count as 0. |
| `InsightsList.LastViewedLabel` | app/components/InsightsList.tsx:82 | A set timestamp is shown formatted, and otherwise `N/A`. |
| `DecisionInsightForm.DebtScoreRange` | app/decision/DecisionInsightForm.tsx:16-18 | Over impact and risk 1 to 5 and confidence 0 to 100, the score lies in 17 to 185, and both ends are reached. |
| `DecisionInsightForm.DebtScoreMonotone` | app/decision/DecisionInsightForm.tsx:17 | More impact or risk raises the score, and more confidence lowers it. |
| `DecisionInsightForm.Form.constructor` | app/decision/DecisionInsightForm.tsx:6-14 | A new form starts with empty text, impact 1, risk 1, confidence 50 and status `New`, without an error. Its score is 67. |
| `DecisionInsightForm.Form.Submit` | app/decision/DecisionInsightForm.tsx:20-63 | It posts the current fields, with `Debt_Score__c` set to the formula applied to them. On a 2xx reply it resets every field and reports success. Otherwise it keeps the fields and shows the fetch's message, the parse error's message, or the reply's `error` (falling back to `Something went wrong`). Loading ends false. |
| `CreateInsightForm.DebtScoreIsProductOverTwenty` | app/components/CreateInsightForm.tsx:15-18 | The score is impact times risk times confidence, over twenty. |
| `CreateInsightForm.DebtScoreRange` | app/components/CreateInsightForm.tsx:17 | Over the form's ranges the score lies in 0 to 125. |
| `CreateInsightForm.ZeroScoreIffNoConfidence` | app/components/CreateInsightForm.tsx:17 | For impact and risk at least 1, the score is 0 exactly when the confidence is 0. |
| `CreateInsightForm.DebtScoreMonotone` | app/components/CreateInsightForm.tsx:17 | Raising any input never lowers the score. |
| `CreateInsightForm.ZeroConfidenceRefusedByRoute` | app/components/CreateInsightForm.tsx:89 | The form allows confidence 0, but the create route refuses such a submission with 400 (create/route.ts:15-17). |
| `CreateInsightForm.Form.constructor` | app/components/CreateInsightForm.tsx:7-13 | A new form starts with empty text, impact 3, risk 3, confidence 80 and status `New`. Its score is 36. |
| `CreateInsightForm.Form.Submit` | app/components/CreateInsightForm.tsx:20-61 | It posts the current fields, with `Debt_Score__c` set to the formula applied to them to the create route. On a 2xx reply it resets the six fields and toasts success. Otherwise it keeps them and toasts the error message. Loading ends false. |

## Left out

- Random bytes and SHA-256: `crypto.randomBytes` and `createHash('sha256')` are foreign calls. The bytes are an input of `Login.Get`, and the base64 digest is a function parameter.
- iron-session: sealing and encrypting the cookie are library behaviour, so `SessionConfig.Session` holds the decrypted contents. The `cookies()` store is reduced to the name of the deleted cookie.
- URL encoding: `URLSearchParams` and the URL API are modelled as ordered key/value lists. Their encoding is not modelled, and `encodeURIComponent` is a parameter.
- Clock: `new Date().toISOString()` is the input `now`.
- Console and network: console logging is left out, and the network is replaced by the upstream replies given as inputs.
- Numbers: JavaScript numbers are reals, so floating-point rounding, `NaN` and `Infinity` are not modelled.
- `Js.Text`: only integral numbers print as JavaScript prints them. A non-integral number is written as its floor, not in JavaScript's shortest round-trip form.
- `UpdateView.Patch`: two concurrent views can both read the same count and lose one increment. The model runs one request at a time, so that race is not represented.
- `UpdateView.CountQuery`: the id is interpolated into SOQL unescaped. The model keeps the text, but proves nothing about injection.
- `Strings.LowerAscii`: `toLowerCase` is modelled on ASCII letters only.
- `InsightsList.SortStrings`: it orders by code point, where JavaScript's `sort()` orders by UTF-16 code units. The two differ only outside the Basic Multilingual Plane.
- Error messages: the texts of engine-raised errors (the TypeErrors of property reads, destructuring and `toLowerCase`, the SyntaxError of `JSON.parse`, undici's "Body is unusable") approximate Node's wording. The model takes each message as given where it comes from a reply.
- `Callback.ExchangeResult`: a token in the reply that is not a string is stored in the session as absent.
- `Logout.Get`: of the failures the `catch` covers, only a failing `getSession()` is modelled, as the input `failure`.
- Request headers: only `Authorization` is modelled. `Content-Type` and `Accept` are not.
- Rendering in `app/components/InsightsList.tsx`: the markup, `toFixed(2)` and the two date formats are not modelled. The timestamp format is a parameter of `InsightsList.LastViewedLabel`.
- `Frontdoor.Post`: it reads a non-JSON error body with the corrected `Frontdoor.ErrorData` (see Findings). On a non-2xx reply whose body is not JSON, the handler as written answers 500 `Internal server error`, and this model answers with the reply's own status. `Frontdoor.AsWrittenLosesStatus` states the as-written answer.
- `Js.First`: on a string it takes the first character, where JavaScript takes the first UTF-16 code unit. The two differ for a character above U+FFFF. The handlers use `[0]` on arrays.
- `DecisionInsightForm.Form.Submit`: it posts to `/api/decision-insight`, a route that is not part of this model.
- JSX syntax error: DecisionInsightForm.tsx:110 closes its `<select>` as `</.select>`, which is a syntax error. The model covers the component's logic as if it compiled.
- Excluded routes: `app/api/alert/route.ts` and `app/api/debug/session/route.ts` are not part of this model.
- Excluded components: `app/components/CreateViewEventForm.tsx`, `app/components/TableauDashboard.tsx`, `app/TableauEmbed.tsx`, the pages, `app/dashboard/DashboardClient.tsx` and `eslint.config.mjs` are not part of this model.
- `ListInsights.Query`: the column list omits `Domain__c`, so every listed insight reaches the table without a domain. The model quotes the query as written, and `InsightsList` takes its records as they are given.

## Findings

| source | as written | input that shows it | evidently intended | confidence | as-written member | corrected member |
|---|---|---|---|---|---|---|
| app/api/tableau/frontdoor/route.ts:56-60 | When `response.json()` fails on an error reply, the fallback reads `response.text()`. The failed `json()` has already consumed the body, so `text()` rejects too, and the outer `catch` answers 500 `Internal server error`. | A 502 reply from the single-access endpoint whose body is not JSON (an HTML error page) | Answer with the upstream status and `{error: <body text>}` as the error data | medium, not executed | `Frontdoor.ErrorDataAsWritten`, `Frontdoor.AsWrittenLosesStatus` | `Frontdoor.ErrorData`, `Frontdoor.TextErrorKeepsStatus` |
