# docker-discord-alerts: a Dafny model of the event-to-notification pipeline

docker-discord-alerts watches the Docker event stream and posts selected
container lifecycle events (start, die, pause, unpause, health_status) to a
Discord webhook as embeds. This project models the pipeline's decision logic
in `main.py` and proves properties of it:

- **Filter** (`filter.dfy`): the event record, the monitor's configuration,
  and `ShouldNotify`. An event must be of type `container`. Its container
  name must pass the container list: `*`, or exact membership in the
  comma-separated list. Its action must pass the notification level: `all`,
  or exact membership in the lower-cased comma-separated list.
- **Text** (`text.dfy`): `str.split(',')`, ASCII `str.lower()`, `s[:n]`
  and single-character `str.replace`. Split membership is characterised
  independently as "occurs between commas", and split and join are proved
  inverse to each other.
- **Templates** (`templates.dfy`): the closed `event_configs` table. A
  `{name}` pattern is held as the text before and after the placeholder.
  Formatting is proved invertible, so the container name can always be read
  back from the title.
- **Enricher** (`enricher.dfy`): `get_container_status` over a lookup result
  `Found(attrs) | NotFound | OtherError`. It has two distinct sentinel
  records, all-`unknown` and all-`error`.
- **Formatter** (`formatter.dfy`): the fixed, ordered embed field list (built
  and then extended for `die`, as the source does) and the notification for
  an event.
- **Delivery** (`delivery.dfy`): the retry loop of `send_discord_embed` as a
  method over a given sequence of per-attempt replies
  (`Status(code) | TransportError`). It returns whether delivery succeeded,
  the attempts made and the sleeps taken. It is proved equal to the
  specification function `Deliver`, and the properties are proved about
  `Deliver`.
- **EventLoop** (`event_loop.dfy`): the per-event step of `monitor_events`,
  and the loop over a finite stretch of the event stream. The loop body is
  a method in which each of the source's `continue`s is an early return. It
  is proved equal to `Handle`, and the loop is proved equal to the fold
  `Run`.

The Docker daemon, the clock and the webhook are parameters. An
`Observation` carries, for one event, the result of `containers.get`, the
current Unix time as decimal text, and the webhook's reply to each attempt.

Delivery follows the code's own retry rule. Only a transport error leads
to a sleep (`main.py:101-104`), and a non-`204` status goes straight to the
next attempt (`main.py:100`). So `Delivery.ServerErrorsThenSuccess` proves
that two `500` replies and then a `204` give zero sleeps. In general, the
sleeps are the transport errors before the last attempt index
(`Delivery.SleepsAreTransportErrors`). `Delivery.FailedDeliverySleeps`
proves that a failed delivery whose every attempt was a transport error
takes exactly `max_retries - 1` sleeps.

## Model

| member | source | states |
|---|---|---|
| Text.CommaIndex | main.py:140 | the index returned is the first comma, or the end of the text when there is none |
| Text.Split | main.py:140 | `split(',')` yields at least one piece and no piece contains a comma |
| Text.JoinSplit | main.py:140 | joining the pieces of a split with commas gives back the original text |
| Text.SplitJoin | main.py:140 | splitting the comma-join of comma-free pieces gives back exactly those pieces |
| Text.PieceIsDelimited | main.py:140 | every piece occurs in the text bounded by commas or the ends of the text |
| Text.DelimitedIsPiece | main.py:140 | a comma-free text occurring between commas (or the ends) is one of the pieces |
| Text.InSplitIff | main.py:140 | membership in the split is exact and untrimmed: no comma in the name, and it occurs between commas or the ends |
| Text.LowerChar | main.py:31 | `A`-`Z` map to `a`-`z` (code point plus 32), every other character is unchanged, and the result is never an upper-case ASCII letter |
| Text.Lower | main.py:31 | `lower()` keeps the length and lower-cases each character in place |
| Text.Take | main.py:116 | `s[:n]` is the first `min(n, len(s))` characters of `s` |
| Text.Replace | main.py:116 | `replace` keeps the length and swaps exactly the occurrences of one character |
| Filter.MakeConfig | main.py:30-38 | the container list is kept verbatim; the notification level keeps its length, each upper-case letter becomes its lower-case letter and every other character, commas included, is kept; the retry settings are kept |
| Filter.ContainerName | main.py:136 | the container name is the `name` attribute, or `unknown` when it is absent |
| Filter.ContainerAllowed | main.py:140-141 | `*` admits every container; a name an explicit list admits holds no comma |
| Filter.ActionAllowed | main.py:144-145 | `all` admits every action; an action an explicit level list admits holds no comma |
| Filter.ShouldNotifyIff | main.py:133-145 | an event passes iff it is a container event, the container list is `*` or holds the comma-free name exactly (untrimmed) between commas or its ends, and the level is `all` or holds the comma-free action exactly between commas or its ends |
| Filter.NonContainerRejected | main.py:133-134 | an event whose type is not `container` is rejected, whatever its other fields |
| Filter.ContainerAllowedIff | main.py:140-141 | an explicit container list admits a name iff the name has no comma and occurs in the list between commas or the ends |
| Filter.WildcardsAdmitAll | main.py:140-145 | with `*` and `all`, an event passes iff it is a container event |
| Filter.WebDbExample | main.py:140-141 | the list `web,db` admits `web` and `db` and rejects `cache`, ` db` and `web,db` |
| Filter.UpperCaseActionRejected | main.py:144-145 | the configuration lower-cases the level (line 31) but the action is never lowered, so an event whose action has an upper-case letter is rejected unless the level reads `all` |
| Filter.AllInAnyCase | main.py:31 | with a configured level of `ALL` in any casing, an event passes iff it is a container event whose name the container list admits |
| Templates.Pattern.Format | main.py:170-171 | the formatted text is the name with the pattern's text before and after it |
| Templates.UnformatFormat | main.py:170-171 | the name can be read back from a formatted title or description |
| Templates.FormatUnformat | main.py:170-171 | any text the pattern recognises is the pattern filled with the recovered name |
| Templates.FormatInjective | main.py:170-171 | different container names always give different titles and descriptions |
| Templates.TemplateFor | main.py:49-75 | exactly the five actions start, die, pause, unpause and health_status have a template, and every colour is a 24-bit RGB value |
| Templates.StartExample | main.py:50-54 | the table's `start` entry titles a container called `web` "🟢 Container Started: web", with colour 0x00FF00 |
| Templates.TitleIdentifiesAction | main.py:49-75 | two known actions whose titles coincide, for any names, are the same action |
| Enricher.Sentinel | main.py:121-124 | a sentinel record holds the same text in all five fields |
| Enricher.CreatedText | main.py:116 | the creation time is the input's first `min(19, len)` characters with each `T` turned into a space, so it holds no `T` |
| Enricher.Enrich | main.py:108-124 | not found gives the all-`unknown` record; any other failure, including a missing `Created`, gives the all-`error` record |
| Enricher.SentinelsDiffer | main.py:120-124 | the not-found and the error sentinels are different records |
| Enricher.EnrichFound | main.py:112-118 | a found container gives its first tag or `untagged`, its status, its health and platform or `N/A`, and its creation time as `CreatedText` of `Created` |
| Enricher.CreatedExample | main.py:116 | `2024-01-01T12:00:00.000Z` becomes `2024-01-01 12:00:00` |
| Formatter.ExitCode | main.py:161 | the exit code is the `exitCode` attribute, or `Unknown` when it is absent |
| Formatter.TimestampMarkup | main.py:156 | the timestamp markup is the clock text, verbatim, between `<t:` and `:F>` |
| Formatter.Fields | main.py:150-166 | 7 fields for `die` and 6 otherwise, named in the order Event, Image, Status, Health, Platform, Timestamp, Exit Code; exactly the first five are inline; no two fields share a name |
| Formatter.BuildFields | main.py:150-166 | the list built and then appended to in place is the specified field list |
| Formatter.FieldsByName | main.py:150-166 | read by name, the fields give the action, image, status, health, platform and timestamp; they give an exit code iff the action is `die` |
| Formatter.Compose | main.py:147-173 | a notification is composed exactly when the action has a template |
| Formatter.BuildNotification | main.py:147-173 | the notification built for an action with a template is exactly the one `Compose` specifies |
| Formatter.ComposeNamesContainer | main.py:168-172 | the container's name can be read back from the title and the description, and the colour fits in 24 bits |
| Formatter.StartScenario | main.py:147-173 | the `start` event for `web` (image `web:latest`, no health check, platform `linux`) gives the green "Container Started: web" notification with six fields carrying those values |
| Formatter.DieScenario | main.py:160-166 | a `die` notification has 7 fields, the last a full-width "Exit Code" carrying `exitCode` or `Unknown` |
| Delivery.Budget | main.py:90 | `range(max_retries)` allows `max_retries` attempts, none when `max_retries <= 0` |
| Delivery.SleepsBefore | main.py:101-104 | the first `k` attempts sleep at most `k` times |
| Delivery.FirstAck | main.py:98-99 | the index found is the first `204` among the allowed replies, or the budget when there is none |
| Delivery.Deliver | main.py:90-106 | at most `max_retries` attempts; a success ends on a `204`; a failure spends the whole budget; never more sleeps than attempts |
| Delivery.SendWithRetries | main.py:90-106 | the retry loop's result, attempt count and sleep count are those of `Deliver` |
| Delivery.DeliveredIff | main.py:90-106 | delivery succeeds iff one of the first `max_retries` replies is `204` |
| Delivery.AttemptsBounded | main.py:90-106 | at most `max_retries` attempts; a success is the first `204` and ends the attempts; a failure uses the whole budget |
| Delivery.NoBudgetNoAttempt | main.py:90-106 | with `max_retries <= 0` nothing is posted and the result is failure |
| Delivery.SleepsAreTransportErrors | main.py:101-105 | the sleeps are the attempts that met a transport error, other than the last attempt index |
| Delivery.SleepsBounded | main.py:103-104 | the sleeps never exceed the attempts made, nor `max_retries - 1` |
| Delivery.NoTransportErrorNoSleep | main.py:98-100 | a non-`204` status never causes a sleep |
| Delivery.AllTransportErrors | main.py:101-105 | when every attempt so far met a transport error, each one slept except the one at the last index |
| Delivery.FailedDeliverySleeps | main.py:98-106 | a failed delivery sleeps at most `max_retries - 1` times; if every attempt was a transport error, exactly that many; if every attempt was an HTTP status, none |
| Delivery.ServerErrorsThenSuccess | main.py:98-100 | replies 500, 500, 204 with three retries: delivered on the third attempt with no sleep |
| Delivery.TransportErrorsThenSuccess | main.py:101-105 | two transport errors and then 204: delivered on the third attempt after two sleeps |
| EventLoop.Step | main.py:133-173 | an event is sent exactly when it passes the filter and its action has a template |
| EventLoop.SkipIgnoresLookup | main.py:133-148 | for any event that is not sent, the step does not depend on the container lookup |
| EventLoop.SendIsComposed | main.py:147-173 | a sent event is a container event, and its notification is composed from the enriched lookup result |
| EventLoop.Handle | main.py:147-175 | handling one event reports at most one delivery, and exactly one iff the event passes the filter and has a template |
| EventLoop.Run | main.py:132-175 | a run over a stretch of events reports at most once per event |
| EventLoop.HandleEvent | main.py:133-175 | one pass of the loop body, each `continue` an early return, reports exactly what `Handle` specifies |
| EventLoop.MonitorEvents | main.py:132-175 | the loop over the events reports exactly the fold `Run` over them |
| EventLoop.RunAppend | main.py:132-175 | runs compose: notifications keep the order of their events, and a failed delivery never stops later ones |
| EventLoop.RunSound | main.py:132-175 | every report comes from an event that passed the filter and has a template |
| EventLoop.NothingAcceptedNothingSent | main.py:132-145 | a stretch of events that the filter rejects sends nothing |
| EventLoop.NonContainerStreamSendsNothing | main.py:133-134 | a stream with no container events sends nothing |
| EventLoop.CacheEventDropped | main.py:140-141 | with the list `web,db`, a `cache` event sends nothing and the webhook is never called |

## Left out

- Docker client construction, `ping()`, the `events()` stream and `containers.get` (main.py:40-46, 111, 132) are foreign I/O. The lookup's result and the events are inputs, and the infinite stream is modelled by its finite prefixes.
- A `NotFound` raised by `container.image` (Docker's `ImageNotFound`) lands in the `unknown` branch in the source. The model's `Lookup` does not say which call raised; a lookup that ends that way is `NotFound`.
- `requests.post`, `json.dumps`, the headers and the 10-second timeout (main.py:87-97) are network and library calls. Each attempt's outcome is an input.
- The embed's own `timestamp` (main.py:84) is taken from the clock inside the delivery client and is not modelled. The Timestamp field's value is modelled from the clock text each observation carries.
- `time.sleep` (main.py:104) is modelled as a counter. Each sleep lasts `retry_delay` seconds; the total time slept is not tracked.
- Delivery.SendWithRetries, EventLoop.MonitorEvents: assume `retry_delay >= 0`. `int()` at main.py:38 accepts a negative `RETRY_DELAY`; `time.sleep` at main.py:104 then raises `ValueError` on the first sleep, the error escapes the delivery function, and main.py:179-181 logs and re-raises it, ending the monitor. The model ignores the delay's sign and carries on with later events.
- Reading and `int()`-parsing environment variables, and the required `DISCORD_WEBHOOK_URL` check (main.py:25-38), are configuration plumbing. `MakeConfig` takes already-parsed values. `health_check_interval` (main.py:34) is never used and is not modelled.
- Text.Lower, Text.LowerChar, Filter.MakeConfig: lower-case ASCII letters only and keep every other character and the length, because Python's `str.lower()` applies full Unicode case mapping (`Ä` becomes `ä`, and `İ` becomes two characters), which the model does not capture.
- Templates.Pattern.Format: the `{name}` placeholder is held as the text before and after it. This matches `str.format` for these patterns, which have one placeholder and no other braces.
- A missing `Type`, `Action`, `id` or `Actor.Attributes` key in an event raises `KeyError` in the loop, which becomes a fatal stream fault. The model's events always carry these fields.
- Logging throughout, the `KeyboardInterrupt` and re-raise handling (main.py:177-181), and `main`/`exit(1)` (main.py:183-192) are process control and are not modelled.
