# Story board admission and moderation, modelled in Dafny

A model of the decision logic of a small anonymous story board: visitors
submit a reason for voting, the server decides whether the submission may be
made at all, scores it with an external content-analysis service, and stores
it either auto-approved or pending human review; an administrator later
approves, rejects or deletes stored posts, and the home page shows the newest
approved ones. Beside it runs a host monitor that sends CPU and memory alerts
to a webhook, at most once per cooldown period for each kind of alert.

Modules, one per source component:

- `Wrappers` (`wrappers.dfy`): `Option` and `Result`.
- `JsString` (`js_string.dfy`): the JavaScript string semantics the server
  relies on. These are truthiness, `trim` (ECMAScript white space and line
  terminators) and `length` (UTF-16 code units, so a character outside the
  Basic Multilingual Plane counts twice).
- `Origin` (`origin.dfy`): `checkIpLocation`, the country gate.
- `Scorer` (`scorer.dfy`): `analyzeContent`, which turns six risk attributes
  into a safety score, the auto-approval verdict and the degraded result of
  every failure.
- `Submission` (`submission.dfy`): the `/submit` gate chain as a pure
  decision, `Decide`. Its inputs are the environment, the request, the
  challenge-verification service and the content-analysis service. The two
  services are oracle parameters, so "a gate is not called" is stated as "the
  result is the same whatever that service would answer".
- `PostStore` (`post_store.dfy`): the `posts` table as class `Board`. It has
  a map from id to row and the AUTOINCREMENT counter `nextId`. `Submit`,
  `Approve`, `Reject` and `Delete` update it in place. `List`, `Counts` and
  `HomeFeed` only read it.
- `Monitor` (`monitor.dfy`): the monitor configuration, built by the pure
  function `BuildConfig`. Class `SystemMonitor` holds the
  `lastNotificationTime` map and the timer handle. Its methods take the clock
  value and the webhook's success as inputs.

What the source does, which a reader of its form and messages might not expect:

- No rate limiting is enforced. The `rate_limits` table is created but never
  read or written.
- The content-analysis service receives the reason as submitted, untrimmed.
  Only the stored copy is trimmed.
- The 150-character minimum counts UTF-16 code units of the trimmed reason.
- An empty `town` or `state` is stored as null.

## Model

| member | source | states |
|---|---|---|
| `Origin.CheckIpLocation` | src/middleware/ipCheck.js:2-25 | Eligible iff the mode is not exactly "production" or the country header is exactly "US". The two-part development test reduces to this, and in production a missing or empty header fails closed. |
| `JsString.Trim` | src/app.js:187 | The input is leading white space, then the result, then trailing white space. The result neither starts nor ends with white space. |
| `JsString.TrimIdempotent` | src/app.js:208 | Trimming the stored, already trimmed reason again changes nothing. |
| `JsString.Utf16Length` | src/app.js:187 | `length` lies between the number of characters and twice that. It equals the number of characters when every character is inside the Basic Multilingual Plane. |
| `Scorer.MaxRisk` | src/middleware/perspectiveCheck.js:55 | The maximum is at least each of the six attribute values and is one of them. |
| `Scorer.Round` | src/middleware/perspectiveCheck.js:58 | `Math.round`: the integer within one half of the argument, with halves rounded up. |
| `Scorer.ReadScores` | src/middleware/perspectiveCheck.js:45-52 | Scores exist iff all six attribute names are in the reply. The record's six fields are exactly those six values. |
| `Scorer.SafetyScore` | src/middleware/perspectiveCheck.js:55-58 | The score is the whole percentage nearest to one minus the riskiest attribute. |
| `Scorer.KeyAtImport` | src/middleware/perspectiveCheck.js:3 | The key is whatever the process environment held when the module was evaluated, never a value only `.env` supplies. |
| `Scorer.DotenvKeyIsIgnored` | src/middleware/perspectiveCheck.js:3-15 | A key given only in `.env` leaves every analysis degraded. |
| `Scorer.KeyAfterDotenv` | src/app.js:12 | The intended key: the process value when set, otherwise the `.env` value. |
| `Scorer.DotenvKeyIsUsed` | src/middleware/perspectiveCheck.js:6-63 | With the intended key, a key from `.env` and a good reply give scores rather than the degraded result. |
| `Scorer.AnalyzeContent` | src/middleware/perspectiveCheck.js:6-73 | Without a key the result is `{0, null, false}` whatever the service would answer, so no request is made. Any failure (no reply, non-OK, missing attribute) gives the same degraded result. `isAutoApproved` holds iff `safetyScore >= 90`. With scores, `safetyScore` is the rounded `(1 - max) * 100`. |
| `Scorer.SafetyScoreBounds` | src/middleware/perspectiveCheck.js:55-58 | With all six attributes in [0, 1], the safety score lies in [0, 100]. |
| `Scorer.SafetyScoreAntitone` | src/middleware/perspectiveCheck.js:55-58 | Raising any attribute never raises the safety score. |
| `Scorer.AutoApprovedIffLowRisk` | src/middleware/perspectiveCheck.js:58-63 | A score reaches the auto-approval threshold iff the riskiest attribute is at most 0.105. |
| `Submission.OrNull` | src/app.js:209-210 | An optional field is stored only when it is a non-empty string, and then unchanged. Otherwise it is null. |
| `Submission.ReasonLongEnough` | src/app.js:187 | Holds iff a reason is present and its trimmed text is at least 150 UTF-16 code units long, so the trimmed text has at least 75 characters. |
| `Submission.Decide` | src/app.js:169-215 | The gate chain. Its own contract: every refusal is a 403 or a 400, and an admitted row is never rejected and has a token and a reason. Its full contract is stated by `GateOrder` and `AdmittedRow`. |
| `Submission.GateOrder` | src/app.js:171-189 | In production, a country other than "US" gives 403 before anything else is looked at. Otherwise a missing or empty token gives 400 "Please complete the security check", whatever the verifier would say. A failed verification gives 400. Only after both token checks does a missing or short reason give 400, whatever the scorer would say. A request is admitted iff it passes all four gates. |
| `Submission.AdmittedRow` | src/app.js:186-215 | An admitted row stores the trimmed reason, of at least 150 code units. Empty town and state become null. The stored address is `x-forwarded-for` when that header is non-empty, otherwise the socket's remote address. Status is approved iff the score of the untrimmed reason is at least 90, so it is never rejected and is pending whenever the analysis degraded. Scores and safety score are the scorer's. |
| `PostStore.Board.constructor` | src/app.js:36-48 | A fresh database: an empty `posts` table whose AUTOINCREMENT counter starts at 1. |
| `PostStore.Board.Submit` | src/app.js:169-225 | A refusal answers with its code and message and changes nothing. A failed insert answers 500 and changes nothing. Otherwise exactly one row is added under a fresh id, with the status the reply reports. |
| `PostStore.WithStatus` | src/app.js:109-119 | The UPDATE changes only the status of the row with that id. All other rows and fields are unchanged, and an unknown id is a no-op. |
| `PostStore.WithStatusIdempotent` | src/app.js:109-119 | Approving or rejecting the same id twice is the same as doing it once. |
| `PostStore.Board.Approve` | src/app.js:109-113 | The table becomes `WithStatus(old, id, Approved)`. The counter is untouched. |
| `PostStore.Board.Reject` | src/app.js:115-119 | The table becomes `WithStatus(old, id, Rejected)`. The counter is untouched. |
| `PostStore.Board.Delete` | src/app.js:121-125 | Only the row with that id is removed, and every other row is unchanged. The counter is untouched, so ids are never reused. |
| `PostStore.InsertByAge` | src/app.js:85 | Adds one row to a list and keeps the list newest first. |
| `PostStore.InsertByAgeIsPermutation` | src/app.js:85 | The ordered list holds exactly one more copy of the new row, and every other row as often as before. |
| `PostStore.InsertByAgeKeepsIdsDistinct` | src/app.js:85-87 | Adding a row with a new id keeps the listed ids distinct. |
| `PostStore.StatusFilter` | src/app.js:77-83 | The status parameter selects pending, approved or rejected rows exactly when it is that word. Anything else selects every row. |
| `PostStore.Board.List` | src/app.js:73-87 | With status "pending", "approved" or "rejected", returns the rows with that status. Otherwise returns all rows. Each row appears exactly once, newest first. |
| `PostStore.CountWith` | src/app.js:89-92 | One COUNT(*) per status. It is zero exactly when no row has that status. |
| `PostStore.Tally` | src/app.js:88-93 | `all` is the number of rows and equals pending + approved + rejected. |
| `PostStore.StatusesPartitionRows` | src/app.js:88-93 | The three statuses partition the table, so the three counts add up to the row count. |
| `PostStore.Board.Counts` | src/app.js:88-93 | The admin totals of the current table, with `all = pending + approved + rejected`. |
| `PostStore.Board.HomeFeed` | src/app.js:144-149 | At most 50 approved rows, distinct and newest first. An approved row is left out only when 50 rows at least as new are shown. |
| `Monitor.StripTrailing` | src/middleware/SystemMonitor.js:6-7 | Removes one trailing occurrence of the character if there is one, and nothing else. |
| `Monitor.Merge` | src/middleware/SystemMonitor.js:13-20 | Every key the caller sets wins. Every other key keeps its default. |
| `Monitor.BuildConfig` | src/middleware/SystemMonitor.js:5-20 | Fails with the configuration-missing error iff either variable is absent or empty after stripping. Otherwise the defaults (85, 85, 300000, 900000, and base + "/api/webhook/" + id) are merged with the caller's keys. |
| `Monitor.TrailingSlashIsOptional` | src/middleware/SystemMonitor.js:6 | A base URL with one trailing slash gives the same configuration as the same URL without it. Of two trailing slashes, one is kept. |
| `Monitor.Suppressed` | src/middleware/SystemMonitor.js:79-83 | With a positive cooldown, a kind other than startup is held back iff it has an entry less than a cooldown old. Startup, a non-positive cooldown, a missing entry, or a full cooldown since the entry never hold it back. |
| `Monitor.AfterSend` | src/middleware/SystemMonitor.js:102-106 | A delivered, not-suppressed notification records `now` for its own kind. Nothing else records anything, and other kinds are unchanged. |
| `Monitor.CooldownWindow` | src/middleware/SystemMonitor.js:81-85 | After a delivery at `t`, the same kind is held back exactly while less than the cooldown has passed. |
| `Monitor.FirstAlertsAreSent` | src/middleware/SystemMonitor.js:22-25 | Startup is never held back. From the initial state, the CPU and memory alerts are not held back either, because the initial keys are "cpu" and "memory". |
| `Monitor.SystemMonitor.constructor` | src/middleware/SystemMonitor.js:13-25 | Stores the configuration. The notification times start as `{cpu: 0, memory: 0}` and there is no timer. |
| `Monitor.SystemMonitor.Create` | src/middleware/SystemMonitor.js:5-26 | Throws (Failure) exactly when `BuildConfig` fails. Otherwise returns a fresh monitor in its initial state. |
| `Monitor.SystemMonitor.SendNotification` | src/middleware/SystemMonitor.js:78-110 | The webhook is called iff the notification is not suppressed. The state becomes `AfterSend`, so a failed delivery leaves it unchanged. |
| `Monitor.SystemMonitor.Check` | src/middleware/SystemMonitor.js:112-133 | An alert kind is attempted only when its usage is strictly above its threshold and it is not suppressed. The state follows the CPU send, then the memory send. |
| `Monitor.SystemMonitor.Start` | src/middleware/SystemMonitor.js:28-46 | Sends the startup notification, which is never suppressed, then records the timer handle. |
| `Monitor.SystemMonitor.Stop` | src/middleware/SystemMonitor.js:135-140 | Returns the handle to clear, if any, and leaves none. A second stop clears nothing. |

## Left out

- Express routing, EJS rendering, static files, CORS, and server start and signal handling. They carry no decision logic.
- The HTTP calls to the bot-challenge verifier, the content-analysis service and the webhook. Each is an input:
  - `verify` is a function of the token;
  - `service` is a function of the text, and None stands for a request or body parse that threw;
  - `delivered` is a boolean.
- src/middleware/turnstileCheck.js is not part of this model. Its verdict is the arbitrary `verify`.
- Rate limiting. The `rate_limits` table exists, but no code path reads or writes it, so nothing is enforced or modelled.
- SQLite, the SQL text and src/scripts/init-db.js. The table is a map.
- A server started on an existing database. `CREATE TABLE IF NOT EXISTS` keeps the table, so the server may start from any table that satisfies `Valid()`, such as the six seeded rows with the counter at 7. The constructor models only a fresh database, but every method assumes nothing more than `Valid()`.
- JSON serialisation of `moderation_scores`. The source stores the text "null" when there are no scores, and the model stores None. The JSON parsing for display is library behaviour.
- Admin Basic authentication. It is a base64 comparison done by a library.
- Conversion of the `:id` route parameter to an integer. Ids are integers in the model.
- Form fields that are not strings. The model types every form field as an optional string. In the source, a falsy non-string `reason` (the JSON `0` or `false`) is refused with 400 as too short and never trimmed. A truthy non-string `reason` (a non-zero number, `true`, an array or an object) makes `trim` throw, which answers 500. A falsy non-string token (the JSON `0` or `false`) is refused as missing, and any other non-string token goes to the verifier. A falsy non-string `town` or `state` becomes null. A number is stored. A boolean `true` or an object makes the INSERT throw, which answers 500 after the scorer has run; the model's failed insert (`stored` false) covers that reply.
- CPU and memory sampling, and `setInterval` scheduling. Usages and timer handles are inputs. The first `check()` that `start()` runs is a separate `Check` call.
- Monitor.SystemMonitor.Check: takes one clock value for both alerts, while the source reads `Date.now()` separately for each notification.
- Monitor.Merge: does not model a caller key explicitly set to `undefined`. In the source that overrides the default with `undefined`.
- Scorer.ReadScores: an attribute is either absent (a TypeError in the source, so the degraded result) or a number. A present attribute whose `value` is not a number is not modelled. Under `Math.max` (src/middleware/perspectiveCheck.js:55), a missing `value` or an object gives NaN, a `null` counts as 0, and a numeric string counts as its number.
- Unpaired surrogates. The model's strings are sequences of Unicode scalar values, so a JSON field holding an unpaired surrogate escape such as `"\ud800"` cannot be represented. JavaScript's `length` counts such a code unit as one (src/app.js:187).
- Floating-point behaviour of `Math.round` and of the arithmetic. Scores are exact reals.
- Concurrent requests. Each request is modelled as one sequential step.
- `console` logging, and the `try`/`catch` of `checkIpLocation`. Nothing in the modelled function can throw.
- PostStore.Board.List: fixes no order among rows with equal `created_at`, since SQLite does not define one either.
- The home page's own origin check, which only decides whether the form is shown.
- Client-side form validation (src/public/js/form_validation.js) and the styling configuration.

## Findings

| source | as written | input that shows it | evidently intended | confidence | as-written member | corrected member |
|---|---|---|---|---|---|---|
| src/middleware/perspectiveCheck.js:3 | `PERSPECTIVE_API_KEY` is read when the module is evaluated. ES module imports are evaluated before src/app.js:12 calls `dotenv.config()`. | The key is set only in `.env` and not in the process environment: every analysis returns `{0, null, false}`, so no submission is ever auto-approved. | The key from `.env` is seen, as src/app.js:12 loads it for the rest of the server. | medium, not executed | `Scorer.DotenvKeyIsIgnored` | `Scorer.KeyAfterDotenv` |
