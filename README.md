# BnBWebhookAPI delivery engine, modelled in Dafny

This project models the core of BnBWebhookAPI, a server plugin that delivers
embed messages to named webhooks. It covers five parts:

- **Registry (`WebhookConfig`).** Webhook names map to URLs. Register and
  unregister refuse duplicate or absent names. Rate-limit lookups fall back
  to defaults read from the main configuration, which are 5 requests per 2
  seconds when that configuration has no value.
- **Per-name sliding-window limiter (`WebhookService.RateLimiter`).** It keeps
  a queue of admission times. Each call first evicts from the front every
  time strictly older than `now - period`. It then admits only when fewer
  than `maxRequests` times remain.
- **JSON payload encoder (`createJsonPayload`).** It produces a JSON tree.
  Optional keys are left out when the value is absent.
- **Send pipeline (`send`).** It runs resolve, rate-limit, encode, PRE_SEND,
  HTTP and then publishes the terminal event. It stops at the first step that
  fails.
- **Value types.** These are the embed builder and the success/failure
  outcomes.

## Modules

- `Wrappers`: an `Option` type. A Java `null` becomes `None`.
- `Responses`: `WebhookResponse` and its two factories.
- `Embeds`: `WebhookField`, `WebhookFooter`, `WebhookEmbed`, the colour
  arithmetic and the `Builder` class.
- `Json`: a JSON tree whose objects keep their keys in insertion order.
  Lookup returns the first match.
- `Payload`: the encoder, plus a decoder. The decoder is used to prove that
  encoding loses nothing.
- `RateLimit`:
  - the limiter as a pure function `Acquire` on the window;
  - the `RateLimiter` class, whose `TryAcquire` loop is proved against
    `Acquire`;
  - the guarantee over a whole run of calls.
- `Config`: the `WebhookConfig` class. The webhook file appears as a map of
  top-level entries.
- `Events`: the event type and its data.
- `Service`:
  - `Dispatch`, the decision sequence of `send` as a function;
  - the `WebhookService` class, with its limiter table and event trace.

## Inputs and outputs

Everything that comes from outside is a parameter. Each one below is a
parameter of `Service.WebhookService.Send`:

- `now`: the clock reading (`System.nanoTime`).
- `serializeError`: whether Jackson failed to serialise the tree.
- `http`: the HTTP result, either a status line or an I/O error.
- `iso`: the ISO-8601 formatter for timestamps.

Scheduled events are appended to the `events` field in the order they are
scheduled. The request that would be posted is returned as `HttpPost`.

## Behaviour worth noting

- **Encoding happens before PRE_SEND.**
  - `send` builds the payload (WebhookService.java:93-101) before it
    publishes PRE_SEND (WebhookService.java:111-115).
  - So an encoding failure returns 400 and publishes no event.
- **A denied call is not free of side effects.**
  - `tryAcquire` evicts expired times before it tests the limit.
  - So a denied call still drops expired times from the window
    (`RateLimit.DenialRecordsNothing`).
- **The window is closed at its old end.**
  - A time exactly `period` old is still counted
    (`RateLimit.RecentEntrySurvives`).
  - So a full window admits again only once the clock has moved strictly more
    than one period past its oldest time (`RateLimit.EntryAtCutoffStays`).
  - It does not admit when the clock has moved exactly one period.
- **Null values in the payload.**
  - Jackson's `put(key, null)` writes a JSON `null`.
  - So a field with a null name or value keeps the key with `null`.
  - The same holds for a footer with null text.

## Model

| member | source | states |
|---|---|---|
| Responses.Success | src/main/java/com/boatsnbunnies/service/WebhookResponse.java:33-35 | `success(c, m)` is a successful outcome carrying exactly c and m |
| Responses.Failure | src/main/java/com/boatsnbunnies/service/WebhookResponse.java:44-46 | `failure(c, m)` is an unsuccessful outcome carrying exactly c and m |
| Responses.FactoriesPartition | src/main/java/com/boatsnbunnies/service/WebhookResponse.java:9-73 | every outcome is the result of exactly one factory on its own code and message; the two factories never agree |
| Responses.FactoriesIgnoreStatusRange | src/main/java/com/boatsnbunnies/service/WebhookResponse.java:33-46 | the factories do not relate the flag to the code: `success(0, …)` is successful, and any code can be either |
| Embeds.FooterWithText | src/main/java/com/boatsnbunnies/model/WebhookFooter.java:28-30 | the one-argument footer has no icon URL |
| Embeds.ToInt32 | src/main/java/com/boatsnbunnies/model/WebhookEmbed.java:137 | reading 32 bits as a signed `int` gives a value in the int range that is congruent to the input modulo 2^32 |
| Embeds.GetRgb | src/main/java/com/boatsnbunnies/model/WebhookEmbed.java:137 | `Color.getRGB()` is a signed 32-bit value, negative exactly when alpha is at least 128, from whose four bytes blue, green, red and alpha read back |
| Embeds.MaskedRgb | src/main/java/com/boatsnbunnies/model/WebhookEmbed.java:136-139 | `getRGB() & 0xFFFFFF` lies in [0, 0xFFFFFF] and equals r·65536 + g·256 + b, whatever the alpha |
| Embeds.Builder.constructor | src/main/java/com/boatsnbunnies/model/WebhookEmbed.java:89-95 | a fresh builder has no title, description, colour, footer or timestamp, and no fields |
| Embeds.Builder.Title | src/main/java/com/boatsnbunnies/model/WebhookEmbed.java:103-106 | `title` sets only the title |
| Embeds.Builder.Description | src/main/java/com/boatsnbunnies/model/WebhookEmbed.java:114-117 | `description` sets only the description |
| Embeds.Builder.ColorValue | src/main/java/com/boatsnbunnies/model/WebhookEmbed.java:125-128 | `color(int)` stores its argument unchanged |
| Embeds.Builder.ColorRgb | src/main/java/com/boatsnbunnies/model/WebhookEmbed.java:136-139 | `color(Color)` stores the 24-bit RGB value: in range, and r·65536 + g·256 + b |
| Embeds.Builder.AddField | src/main/java/com/boatsnbunnies/model/WebhookEmbed.java:147-150 | `addField` appends at the end; earlier fields keep their order |
| Embeds.Builder.AddNewField | src/main/java/com/boatsnbunnies/model/WebhookEmbed.java:160-163 | `addField(name, value, inline)` appends that new field at the end; earlier fields are unchanged |
| Embeds.Builder.Footer | src/main/java/com/boatsnbunnies/model/WebhookEmbed.java:171-174 | `footer(WebhookFooter)` sets only the footer |
| Embeds.Builder.FooterOf | src/main/java/com/boatsnbunnies/model/WebhookEmbed.java:183-186 | `footer(text, iconUrl)` sets the footer to a new one with those two values |
| Embeds.Builder.Timestamp | src/main/java/com/boatsnbunnies/model/WebhookEmbed.java:194-197 | `timestamp(Instant)` sets only the timestamp |
| Embeds.Builder.TimestampNow | src/main/java/com/boatsnbunnies/model/WebhookEmbed.java:204-207 | `timestamp()` stores the clock reading it is given |
| Embeds.Builder.Build | src/main/java/com/boatsnbunnies/model/WebhookEmbed.java:23-30 | `build` yields an embed whose six attributes equal the builder's |
| Embeds.BuildThenAddField | src/main/java/com/boatsnbunnies/model/WebhookEmbed.java:27 | a built embed is a snapshot: a field added afterwards reaches the builder but not the embed |
| Embeds.LastTitleWins | src/main/java/com/boatsnbunnies/model/WebhookEmbed.java:103-128 | setters are independent and the last call wins; other attributes are unchanged |
| Json.Keys | src/main/java/com/boatsnbunnies/service/WebhookService.java:165-211 | the key list of an object, one key per member, in order |
| Json.Lookup | src/main/java/com/boatsnbunnies/service/WebhookService.java:165-211 | looking up a key finds a value exactly when the key is among the object's keys |
| Json.LookupAppend | src/main/java/com/boatsnbunnies/service/WebhookService.java:165-211 | looking up in a concatenation searches the first part, then the second |
| Payload.LookupPresent | src/main/java/com/boatsnbunnies/service/WebhookService.java:173-208 | with distinct keys, a key whose value is written is found with that value, and a key that is left out is not found |
| Payload.EncodeField | src/main/java/com/boatsnbunnies/service/WebhookService.java:188-191 | a field object has exactly the keys `name`, `value`, `inline`, in that order |
| Payload.EncodeFooter | src/main/java/com/boatsnbunnies/service/WebhookService.java:196-203 | a footer object has the key `text`, then `icon_url` exactly when there is an icon URL, and no other key |
| Payload.EmbedSlots | src/main/java/com/boatsnbunnies/service/WebhookService.java:172-208 | an embed has exactly six candidate members, one per key the encoder may add |
| Payload.EmbedSlotKeys | src/main/java/com/boatsnbunnies/service/WebhookService.java:172-208 | the candidate members carry the keys title, description, color, fields, footer, timestamp, each once, in the order the encoder adds them |
| Payload.EncodeEmbed | src/main/java/com/boatsnbunnies/service/WebhookService.java:170-208 | an embed object is an object of at most six members |
| Payload.EncodeFields | src/main/java/com/boatsnbunnies/service/WebhookService.java:186-194 | one field object per field, in order |
| Payload.EncodeEmbeds | src/main/java/com/boatsnbunnies/service/WebhookService.java:169-209 | one embed object per embed, in input order |
| Payload.CreateJsonPayload | src/main/java/com/boatsnbunnies/service/WebhookService.java:165-167 | the payload is an object whose only key is `embeds`, holding the array of encoded embeds |
| Payload.EmbedKeys | src/main/java/com/boatsnbunnies/service/WebhookService.java:172-208 | an embed object has a title, description, colour, footer or timestamp key exactly when that attribute is present, a `fields` key exactly when the list is non-empty, and no other key |
| Payload.FooterKeys | src/main/java/com/boatsnbunnies/service/WebhookService.java:196-203 | a footer object always has `text` with the footer's text, has `icon_url` exactly when the icon URL is non-null, and has no other key |
| Payload.FieldRoundTrip | src/main/java/com/boatsnbunnies/service/WebhookService.java:189-192 | a field object keeps name, value and inline |
| Payload.FieldsRoundTrip | src/main/java/com/boatsnbunnies/service/WebhookService.java:186-194 | the field array decodes to the same fields in the same order |
| Payload.FooterRoundTrip | src/main/java/com/boatsnbunnies/service/WebhookService.java:196-203 | a footer object decodes to the same footer |
| Payload.LookupEmbed | src/main/java/com/boatsnbunnies/service/WebhookService.java:172-208 | each of the six keys of an embed object holds the encoding of its attribute, or is absent |
| Payload.EmbedRoundTrip | src/main/java/com/boatsnbunnies/service/WebhookService.java:169-209 | if the timestamp format can be parsed back, an embed object decodes to the same embed |
| Payload.EmbedsRoundTrip | src/main/java/com/boatsnbunnies/service/WebhookService.java:169-209 | the embed array decodes to the same embeds in the same order |
| Payload.PayloadRoundTrip | src/main/java/com/boatsnbunnies/service/WebhookService.java:165-211 | the whole payload decodes to the submitted embeds; nothing is lost, reordered or invented |
| RateLimit.Evict | src/main/java/com/boatsnbunnies/service/WebhookService.java:313-316 | eviction never lengthens the queue, and what it keeps starts at or after the cutoff |
| RateLimit.RecentEntrySurvives | src/main/java/com/boatsnbunnies/service/WebhookService.java:313-316 | every time at or after the cutoff survives eviction, at the same place relative to the end of the queue |
| RateLimit.Acquire | src/main/java/com/boatsnbunnies/service/WebhookService.java:309-325 | a call is denied only when the evicted window already holds maxRequests times; an admission leaves at most maxRequests times, the last of them `now` |
| RateLimit.EvictKeepsSuffix | src/main/java/com/boatsnbunnies/service/WebhookService.java:313-316 | eviction drops only a prefix of times strictly below the cutoff; what is kept is a suffix whose first time is at or after the cutoff |
| RateLimit.AcquireBounded | src/main/java/com/boatsnbunnies/service/WebhookService.java:319-322 | the window never grows beyond max(0, maxRequests) |
| RateLimit.NonPositiveLimitDenies | src/main/java/com/boatsnbunnies/service/WebhookService.java:319 | with maxRequests ≤ 0 every call is denied |
| RateLimit.DenialRecordsNothing | src/main/java/com/boatsnbunnies/service/WebhookService.java:313-324 | a denial leaves only a suffix of the old window and adds nothing; an admission adds exactly `now`, at the back |
| RateLimit.AcquireKeepsSorted | src/main/java/com/boatsnbunnies/service/WebhookService.java:309-325 | with a clock that does not run backwards, a sorted window stays sorted |
| RateLimit.EntryAtCutoffStays | src/main/java/com/boatsnbunnies/service/WebhookService.java:311-314 | an example with a limit of one: a time exactly one period old is kept, so the full window still denies at that instant |
| RateLimit.AdmitsAfterQuietPeriod | src/main/java/com/boatsnbunnies/service/WebhookService.java:311-322 | once every time is older than the cutoff, the window empties and a positive limit admits again |
| RateLimit.CountWithinAppend | src/main/java/com/boatsnbunnies/service/WebhookService.java:309-325 | counting times in an interval adds up over concatenation |
| RateLimit.CountWithinBounds | src/main/java/com/boatsnbunnies/service/WebhookService.java:309-325 | the count is at most the number of times, and zero when every time is before the interval |
| RateLimit.CountWithinTail | src/main/java/com/boatsnbunnies/service/WebhookService.java:309-325 | if the first n times fall before the interval, at most the rest are counted |
| RateLimit.EvictSplitsHistory | src/main/java/com/boatsnbunnies/service/WebhookService.java:313-316 | eviction splits the admitted times into those older than the cutoff and the surviving window |
| RateLimit.CountAfterAdmit | src/main/java/com/boatsnbunnies/service/WebhookService.java:319-322 | admitting `now` cannot push any interval of one period past the limit |
| RateLimit.RecordKeepsInvariant | src/main/java/com/boatsnbunnies/service/WebhookService.java:309-325 | one more call with a clock that does not run backwards keeps the run invariant |
| RateLimit.ReplayInvariant | src/main/java/com/boatsnbunnies/service/WebhookService.java:309-325 | a run from an empty limiter keeps the run invariant |
| RateLimit.AtMostMaxPerWindow | src/main/java/com/boatsnbunnies/service/WebhookService.java:309-325 | over any run with a non-decreasing clock, no closed interval of one period holds more than max(0, maxRequests) admissions |
| RateLimit.ReplayWindow | src/main/java/com/boatsnbunnies/service/WebhookService.java:309-325 | over any run with a non-decreasing clock, the window stays sorted, bounded by max(0, maxRequests), and never holds a time after the latest call |
| RateLimit.BurstAdmitsExactlyMax | src/main/java/com/boatsnbunnies/service/WebhookService.java:309-325 | n calls at the same instant admit exactly min(n, max(0, maxRequests)) of them |
| RateLimit.RateLimiter.constructor | src/main/java/com/boatsnbunnies/service/WebhookService.java:299-302 | a new limiter has an empty queue and a period converted from seconds to nanoseconds |
| RateLimit.RateLimiter.TryAcquire | src/main/java/com/boatsnbunnies/service/WebhookService.java:309-325 | the eviction loop and the test leave the decision and the queue that `Acquire` gives on the old queue: true exactly when fewer than maxRequests times survive eviction; the queue stays bounded, and sorted when the clock does not run backwards |
| Config.LoadedWebhooks | src/main/java/com/boatsnbunnies/config/WebhookConfig.java:79-89 | the registry holds exactly the sections whose url is present and non-empty, each mapped to its url |
| Config.SetUrl | src/main/java/com/boatsnbunnies/config/WebhookConfig.java:122 | setting `name.url` adds or overwrites the name's url, keeps its rate-limit subsection and leaves other entries alone |
| Config.WebhookConfig.constructor | src/main/java/com/boatsnbunnies/config/WebhookConfig.java:35-53 | the defaults are the main configuration's values, or 5 and 2 when they are missing; the registry is loaded from the file |
| Config.WebhookConfig.LoadConfig | src/main/java/com/boatsnbunnies/config/WebhookConfig.java:43-74 | reloading replaces the defaults and rebuilds the registry from the file |
| Config.WebhookConfig.LoadWebhooks | src/main/java/com/boatsnbunnies/config/WebhookConfig.java:79-89 | the loop clears the registry and rebuilds it as `LoadedWebhooks` of the file; every webhook keeps its section |
| Config.WebhookConfig.RegisterWebhook | src/main/java/com/boatsnbunnies/config/WebhookConfig.java:116-125 | returns false and changes nothing for a registered name; otherwise maps name to url, leaves every other entry unchanged and records the url in the file |
| Config.WebhookConfig.UnregisterWebhook | src/main/java/com/boatsnbunnies/config/WebhookConfig.java:133-142 | returns false and changes nothing for an absent name; otherwise removes the name and its whole section, leaving every other entry unchanged |
| Config.WebhookConfig.GetWebhookUrl | src/main/java/com/boatsnbunnies/config/WebhookConfig.java:150-152 | gives the stored URL, or none exactly when the name is not registered |
| Config.WebhookConfig.GetWebhooks | src/main/java/com/boatsnbunnies/config/WebhookConfig.java:159-161 | gives a copy with the same names and URLs |
| Config.WebhookConfig.GetRateLimit | src/main/java/com/boatsnbunnies/config/WebhookConfig.java:169-177 | gives the section's `requests` only under a `rate-limit` subsection; otherwise, or when it is missing, the default |
| Config.WebhookConfig.GetRateLimitPeriod | src/main/java/com/boatsnbunnies/config/WebhookConfig.java:185-193 | the same for `period` |
| Config.RegisterThenUnregister | src/main/java/com/boatsnbunnies/config/WebhookConfig.java:116-142 | registering a new name and then unregistering it restores the registry and removes the name's section |
| Config.UnregisterRestoresDefaults | src/main/java/com/boatsnbunnies/config/WebhookConfig.java:133-142 | after an unregister the name has no URL and the default limits |
| Service.Dispatch | src/main/java/com/boatsnbunnies/service/WebhookService.java:67-156 | `send` publishes at most two events, and an outcome is successful only when a request was posted and answered with a 2xx status, whose code it carries |
| Service.DispatchEvents | src/main/java/com/boatsnbunnies/service/WebhookService.java:67-156 | every event names this webhook and carries its embeds; only the last may be terminal, and it carries the returned outcome |
| Service.DispatchPosts | src/main/java/com/boatsnbunnies/service/WebhookService.java:93-115 | the request is issued exactly when the name resolved, the limiter admitted and encoding succeeded; it goes to the webhook's URL with the encoded payload; PRE_SEND, carrying success(0, "Preparing to send webhook"), is published exactly then |
| Service.DispatchClassifies | src/main/java/com/boatsnbunnies/service/WebhookService.java:118-140 | once sent, the outcome is successful exactly for a 2xx status and carries that status and message; the terminal event is SENT or FAILED to match |
| Service.UnknownNameOutcome | src/main/java/com/boatsnbunnies/service/WebhookService.java:71-76 | an unknown name gives failure(404, "Webhook not found: " + name), no event and no request |
| Service.NotFoundMessageSaysNotFound | src/test/java/com/boatsnbunnies/WebhookServiceTest.java:59-65 | the 404 message contains "not found" |
| Service.RateLimitedOutcome | src/main/java/com/boatsnbunnies/service/WebhookService.java:79-91 | a denial gives failure(429, "Rate limited") and exactly one RATE_LIMITED event, with no PRE_SEND and no request |
| Service.EncodingFailureOutcome | src/main/java/com/boatsnbunnies/service/WebhookService.java:93-101 | an encoding failure gives a 400 failure and no event at all |
| Service.TransportFailureOutcome | src/main/java/com/boatsnbunnies/service/WebhookService.java:141-150 | an I/O error gives failure(500, "Failed to send webhook: " + message), and the trace is PRE_SEND then FAILED |
| Service.WebhookService.constructor | src/main/java/com/boatsnbunnies/service/WebhookService.java:31-47 | a new service has no limiters and no events |
| Service.WebhookService.GetRateLimiter | src/main/java/com/boatsnbunnies/service/WebhookService.java:220-225 | the name's limiter is reused if present; otherwise a new one is built from the registry's limit and period, with an empty window, and added to the table |
| Service.WebhookService.Send | src/main/java/com/boatsnbunnies/service/WebhookService.java:67-156 | an unknown name creates no limiter and leaves every existing window, its own included, as it was; a known name's limiter moves its window as `Acquire` says; the outcome, the request and the appended events are exactly `Dispatch` with that decision; no other limiter changes |
| Service.WebhookService.CheckRateLimit | src/main/java/com/boatsnbunnies/service/WebhookService.java:79-80 | the name's limiter, reused or created, decides as `Acquire` on its window; other limiters are untouched |
| Service.WebhookService.Deliver | src/main/java/com/boatsnbunnies/service/WebhookService.java:80-153 | after the limiter's decision, the outcome, request and events are `Dispatch`'s |
| Service.WebhookService.SendEmbed | src/main/java/com/boatsnbunnies/service/WebhookService.java:56-58 | sending one embed is `send` of the one-element list: an unknown name touches no window, a known name gets the same limiter update as `Acquire` gives, the outcome, request and events of `Dispatch` on `[embed]`, no other limiter changed, and every event it publishes carries exactly that embed |
| Service.WebhookService.WebhookExists | src/main/java/com/boatsnbunnies/service/WebhookService.java:249-251 | true exactly when the name is registered |
| Service.WebhookService.RegisterWebhook | src/main/java/com/boatsnbunnies/service/WebhookService.java:260-262 | delegates to the registry: true exactly for a new name, which is then mapped to the url and its url recorded in the file section; otherwise the registry and the file are unchanged; the limiters are untouched |
| Service.WebhookService.UnregisterWebhook | src/main/java/com/boatsnbunnies/service/WebhookService.java:270-273 | drops the name's limiter whether or not the name was registered; true exactly when it was registered, and then the name and its file section are gone; otherwise the registry and the file are unchanged |
| Service.WebhookService.GetWebhooks | src/main/java/com/boatsnbunnies/service/WebhookService.java:280-282 | the registry's names and URLs |
| Service.ReregisterThenSend | src/main/java/com/boatsnbunnies/service/WebhookService.java:220-225 | unregistering and registering a name again, then sending to it, builds a new limiter with the registry's limit (the default when the name had been registered) and an empty window: the request goes to the new url exactly when that limit is positive, and the window then holds only `now` |

## Left out

- HTTP transport (OkHttp):
  - The HTTP call, its timeouts, and request building are not modelled. The result of the call is the input `http`.
  - OkHttp throws when a URL cannot be parsed. That exception is not modelled.
- The server scheduler and event bus: publishing an event becomes appending it to `events`. Events run later on the main thread; that delay is not modelled.
- `events` records what `send` schedules, not what listeners receive. `WebhookEvent` is declared asynchronous (WebhookEvent.java:33) but is fired from tasks on the main thread (WebhookService.java:84-87, 112-115, 135-138, 145-148); whether the event bus accepts it there is server behaviour outside the source and is not modelled.
- The warning logged on a transport failure (WebhookService.java:150) is not modelled.
- Concurrency:
  - The executor, asynchronous completion of the future, and `shutdown` are not modelled, because they are concurrency.
  - Every step is sequential. Thread interleavings of the concurrent queue and maps are not modelled.
- Clocks:
  - `System.nanoTime` is the parameter `now`.
  - `Instant.now()` in `timestamp()` is a parameter.
  - Times are unbounded integers, so `long` overflow is not modelled.
- Integer widths:
  - The saturation of `TimeUnit.toNanos` is not modelled.
  - Java `int` overflow of status codes and limits is not modelled.
- Jackson and JSON text:
  - Serialising the tree to text, with its escaping, is not modelled; the model stops at the JSON tree.
  - `JsonProcessingException` is the input `serializeError`.
- Timestamp format: `ISO_INSTANT` is the opaque function `iso`. The round trip assumes a parser that inverts it.
- Files:
  - Reading and writing YAML files in `loadConfig` and `saveConfig` is not modelled; the file is a map of top-level entries.
  - Creating a missing file with an example webhook is not modelled.
  - Dotted names, which YAML paths would split into nested sections, are not modelled.
  - The "Loaded N webhooks" log line is not modelled.
- `getDefaultRateLimit` and `getDefaultRateLimitPeriod` are read directly as the fields `defaultRateLimit` and `defaultRateLimitPeriod`.
- Null elements in the payload are not modelled. A null field added with `addField(null)` (WebhookEmbed.java:147-150), a null embed or a null list makes `createJsonPayload` throw `NullPointerException` (WebhookService.java:169, 188-190). The handler at WebhookService.java:97 catches only `JsonProcessingException`, so the exception escapes `send` after `tryAcquire` has already recorded the admission (WebhookService.java:320). The model's lists hold only present values.
- Java `null` arguments to register, unregister and lookup are not modelled; names and URLs are always present strings. Nullable strings inside embeds, fields and footers are `Option`.
- The plugin lifecycle, the example consumer and the Bukkit `Event` plumbing of `WebhookEvent` are not modelled; only the event's data and type are kept.
