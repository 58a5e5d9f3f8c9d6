# Bot status monitor: the up/down debouncing tracker

This project models the core of a small uptime monitor for a bot. A cron job
polls the bot's status API. A module-level flag `isActive` holds the
monitor's belief that the bot is up. When that belief changes, the monitor
posts a message to a Discord webhook: a red "Down Alert!" that mentions a
configured user, or a green "All Systems Green" recovery. A `/status` page
polls the bot once more by itself and renders "Gud!"/`okay` or
"Bad!"/`error`.

Files:

- `events.dfy`: the `Option` type and the two notifications, `Down` and `Recovered`.
- `tracker.dfy`: the state machine. `Step` is one tick as a pure function.
  `State` and `Emitted` give the flag and the notifications after a whole
  stream of poll outcomes. The lemmas prove the debouncing properties. The
  class `HealthTracker` holds the mutable flag, and its `Tick` method is the
  cron handler. Ghost fields record the outcomes so far and the
  notifications sent, and `Valid` ties them to `State` and `Emitted`. So
  every lemma about the functions applies to a live tracker.
- `webhook.dfy`: the payload rules. It holds the fixed title, description,
  colour and mention flag per direction, and the `content` mention rule. It
  also holds the report-time field: the millisecond timestamp divided by
  1000, rounded down, and rendered as `<t:SECONDS:R>`. The mention
  content, the decimal number and the report-time field each have a reader
  that parses the value back, with a round-trip lemma.
- `status.dfy`: the `/status` route as a pure function of a fresh poll outcome.

A poll outcome is a `bool`: `true` when the GET request resolves, `false`
when it rejects. The detection time is a `nat` number of milliseconds since
the epoch.

The `/status` handler never reads `isActive`: it makes its own GET request
and renders that request's outcome (index.js:110-123). So `Status.Render`
takes a poll outcome, not the tracker state.

## Model

| member | source | states |
|---|---|---|
| Tracker.Step | index.js:73-98 | The new flag is always the poll outcome. A notification is sent exactly when the outcome differs from the flag: Down exactly for a failure while active, Recovered exactly for a success while inactive. |
| Tracker.State | index.js:49-98 | After no ticks the flag is its initial value. After any tick it equals the last outcome. |
| Tracker.Emitted | index.js:73-98 | A stream of outcomes sends no more notifications in total than it has ticks. The per-tick rule is stated by `Tracker.EmittedSnoc`. |
| Tracker.EmittedSnoc | index.js:73-98 | One more tick appends one notification exactly when its outcome differs from the current flag, and then sets the flag to that outcome. |
| Tracker.ChangePointsSnoc | index.js:73-98 | One more tick adds its index to the change points exactly when its outcome differs from the flag before it. |
| Tracker.EmittedCountsChanges | index.js:73-98 | The number of notifications equals the number of ticks whose outcome differs from the belief before them. The belief starts from the initial flag. |
| Tracker.EmittedParity | index.js:73-98 | An even number of notifications has been sent exactly when the flag is back at its initial value. |
| Tracker.EmittedAlternates | index.js:74-96 | Notifications alternate. From the initial active state the first is Down, then Recovered, and so on. Two down alerts or two recoveries never come back to back. |
| Tracker.RepeatIsSilent | index.js:75-87 | Repeating an outcome any number of times sends nothing beyond what its first occurrence sent, and the flag stays at that outcome. |
| Tracker.AllGreenIsSilent | index.js:49-98 | Three successes from the start send no notification and leave the bot believed active. |
| Tracker.OutageAndRecovery | index.js:49-98 | success, failure ×3, success sends exactly [Down, Recovered]. |
| Tracker.FirstFailureAlerts | index.js:49-98 | A first-ever failure sends the down alert, because the tracker starts out believing the bot is active. |
| Tracker.HealthTracker.constructor | index.js:49 | The flag starts `true`, with no outcomes and no notifications yet. |
| Tracker.HealthTracker.Tick | index.js:73-98 | The flag becomes the outcome. The returned event is present exactly when the flag changed: Recovered for a success while inactive, Down for a failure while active. A failure while already inactive returns early with no event and the flag unchanged. The event is appended to the notifications sent. |
| Webhook.MessageFor | index.js:74-96 | The mention flag is set only for Down. Down is titled "Down Alert!" and coloured 16711680 (0xFF0000, pure red). Recovered is titled "All Systems Green" and coloured 1170739 (0x11DD33, green). Both colours fit in 24 bits. Down's description is "A problem has been detected with \*\*BOT\*\*." and Recovered's is "BOT operation is back to normal.", where BOT is the bot name; both contain it. |
| Webhook.DirectionsDistinct | index.js:76-96 | The two directions always differ in title and in colour. |
| Webhook.Content | index.js:57 | The content is empty exactly when the mention flag is unset or the configured id is empty; otherwise it is `<@` + id + `>`. |
| Webhook.ContentMentions | index.js:57 | The `content` mentions an id exactly when the mention flag is set and the configured id is non-empty, and the id it mentions is the configured one. Otherwise `content` is empty. |
| Webhook.Seconds | index.js:64 | The report time `s` is the largest whole number of seconds not after the timestamp: `s*1000 <= ms < s*1000 + 1000`. |
| Webhook.Decimal | index.js:64 | The seconds render as a non-empty string of decimal digits with no leading zero. |
| Webhook.DecimalRoundTrip | index.js:64 | Parsing the decimal rendering gives back the number. |
| Webhook.ReportTime | index.js:64 | The field is `<t:` + the decimal rendering of the seconds + `:R>`. |
| Webhook.ReportTimeRoundTrip | index.js:64 | The report-time field `<t:SECONDS:R>` parses back to the timestamp divided by 1000, rounded down. |
| Webhook.Post | index.js:51-67 | The posted body has as username the configured bot name followed by " Status", and its content is the mention rule applied to the message's flag and the configured id. It has one embed. The embed carries the message's title, description and colour, and a single "Report Time" field. |
| Webhook.Notification | index.js:51-96 | The body for an event has one embed with that direction's title and colour. Its content is non-empty exactly for a down alert with a configured mention id. |
| Webhook.NotificationMentions | index.js:51-96 | A notification mentions the configured id exactly when it is a down alert and an id is configured. A recovery's content is always empty. |
| Webhook.NotificationReportTime | index.js:52-64 | A notification's report-time field gives back the detection time in whole seconds. |
| Status.CodeText | index.js:105-108 | The `StatusCode` table: Okay renders as "okay" and Error as "error". |
| Status.CodeTextRoundTrip | index.js:105-108 | A rendered status code reads back as the same code. |
| Status.Render | index.js:110-123 | The page names the bot. It shows "Gud!" and "okay" exactly when the fresh poll succeeded, and "Bad!" and "error" exactly when it failed. |
| Status.RenderReportsOutcome | index.js:105-123 | Every rendered page carries one of the two status codes, and that code gives back the poll outcome. |

## Left out

- Environment and `.env` loading (index.js:9-23), including the defaults for the cron interval, the mention id, the bot name and the port. The two fatal errors for a missing status-API or webhook URL are left out too: they run at startup, before any tick. `Webhook.Config` takes the bot name and mention id as given values.
- The Express router, the request-logging middleware, the `hbs` view engine and its `equals` helper, and `listen` (index.js:39-47, 100-103, 127-131): these are HTTP and UI plumbing. `Status.Render` produces the view model the template receives.
- The axios GET and POST requests (index.js:54, 74, 111) are network calls. Each poll becomes a `bool` outcome. Webhook delivery becomes the event `Tick` returns and the payload `Webhook.Notification` builds. A failed POST is caught and only logged (index.js:68-70), so it never changes `isActive`.
- `avatar_url` in the payload (index.js:55) is read straight from the environment and passed through unchanged.
- The `node-cron` scheduler and its cron expression (index.js:13, 73): the timer is external. The model calls `Tick` once per poll outcome.
- Overlapping ticks: promise callbacks from ticks that overlap could interleave. The model applies each tick's outcome atomically and in tick order.
- Console monkey-patching (index.js:25-37): it only affects logging.
- `new Date()` (index.js:52) reads the clock. The timestamp is a `nat` parameter. Dates before 1970 would give a negative timestamp, and Math.floor rounds those toward minus infinity; a `nat` cannot express them, and the clock never gives them.
- Webhook.Decimal: renders every natural number in plain digits. A JavaScript number of 10^21 or more would render in exponent form, but a timestamp in seconds stays far below that.
