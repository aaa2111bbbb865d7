# jalindi event handler, modelled in Dafny

jalindi is a gRPC service that receives analytics events and forwards them to
fluentd. This project models the service's handler (`handler.go`). The
handler has three parts:

- **Record normalisation.** `post` turns an event, its client metadata and four
  correlation strings (browser UUID, request UUID, user agent, referer) into a
  nested record with fixed key names. That record is what fluentd receives.
- **Timestamp resolution.** The instant sent with the record is the event's
  own wire timestamp when there is one. If that timestamp does not convert,
  `post` fails before fluentd is called. With no timestamp, the current time
  is used. In both cases the instant is presented in UTC.
- **Delivery.** Each entry goes to the sink under the handler's fixed tag.
  `PostEvent` posts one event. `PostEventList` posts a batch in order, each
  event with the request's shared client and correlation fields. It stops at
  the first failure and returns that error. Earlier deliveries stay delivered.

Modules, leaves first:

- `Wrappers` (wrappers.dfy): `Option` and `Result`.
- `Errors` (errors.dfy): the two error origins, a timestamp that does not
  convert and a sink that refuses a record. Each carries its collaborator's
  message unchanged.
- `Timestamps` (timestamps.dfy): wire timestamps, time values as an instant
  plus a zone (as Go's `time.Time`), the abstract conversion, and
  `DeliveryTime`.
- `Events` (events.dfy): events, clients, the record value type, `Normalize`,
  the expected record shape `WellShaped`, and its inverse `Denormalize`.
- `Fluent` (sink.dfy): the sink. `Sink` is a class whose `Post` either appends
  the entry to `posted` or refuses it. Each call is also logged in
  `attempted`, so the model can say which calls were made at all. The sink's
  answers come from an oracle: a function from the call number and the entry
  to "accept" or "refuse with a message". `Deliver` is the same step on values.
- `Service` (handler.dfy): the requests and responses, and the pure
  specification of one `post` (`EntryFor`, `PostSpec`) and of a batch
  (`ListFrom`, `ListSpec`). It also holds the `Handler` class, whose methods
  `Post`, `PostEvent` and `PostEventList` are proved to change the sink
  exactly as these specifications say. `PostEventList` keeps the source's
  loop, with its early return.

The batch lemmas describe a batch in terms of `AcceptedAt(env, base, req,
nows, i)`: event `i` "goes through" when its timestamp resolves and the sink
accepts its entry as call number `base + i`. Together they pin down the whole
outcome. If every event goes through, the batch succeeds and has appended
exactly one entry per event, in order. If event `k` is the first that does not
go through, the batch returns event `k`'s own error. In that case events
`0 .. k-1` have been appended in order, and event `k` is the only call tried
after them. Event `k` reaches the sink only when its timestamp resolved.

Two consequences of following `handler.go` closely:

- `EventReply` and `PostEventList` return `post`'s error unchanged, as
  handler.go:51 and handler.go:81 do.
- The clock reading is an input, and the time sent is that reading, in UTC.

## Model

| member | source | states |
|---|---|---|
| `Timestamps.InUTC` | handler.go:124 | presenting a time in UTC keeps its instant and sets the zone to UTC |
| `Timestamps.DeliveryTime` | handler.go:111-124 | the result is an error exactly when a timestamp is present and fails to convert, and the error is the conversion's; otherwise the time is in UTC and is the converted timestamp's instant when one is present, or the clock reading's instant when none is |
| `Timestamps.ClientTimestampIgnoresClock` | handler.go:111-119 | when a timestamp is present, the clock reading plays no part in the result |
| `Events.Normalize` | handler.go:90-109 | builds the record from the event, client and correlation strings; its contract is stated by `NormalizeShape`, `NormalizeRoundTrip`, `DenormalizeRoundTrip` and `NormalizeInjective` |
| `Events.NormalizeShape` | handler.go:90-109 | the record has exactly the keys `event`, `client`, `browser_uuid`, `request_uuid`, `user_agent` and `referer`; `event` has exactly `type`/`group`/`action` (strings) and `amount` (a number); `client` has exactly `name`/`version`/`platform`/`platform_version`/`device_name`/`experiment` (strings); no `timestamp` key at either level |
| `Events.NormalizeRoundTrip` | handler.go:90-109 | reading back the built record gives every input field unchanged: the event's type, group, action and amount, the client, and the four correlation strings |
| `Events.DenormalizeRoundTrip` | handler.go:90-109 | every record of the expected shape is the record built from the fields read back from it |
| `Events.NormalizeInjective` | handler.go:90-109 | two inputs give the same record exactly when they agree on everything except the event's timestamp |
| `Fluent.Deliver` | handler.go:121-129 | one sink call: the entry is recorded as attempted; it is appended to `posted` exactly when the sink accepts it; otherwise `posted` is unchanged and the sink's message comes back as a delivery error |
| `Fluent.Sink.constructor` | main.go:127-131 | a new sink has seen no calls and holds no entries |
| `Fluent.Sink.Post` | handler.go:121-126 | the sink's new state and answer are those `Deliver` gives for the entry (tag, record, time) |
| `Service.EntryFor` | handler.go:90-124 | the entry `post` hands to the sink, or the timestamp error; its contract is stated by `EntryForSpec` |
| `Service.PostSpec` | handler.go:88-132 | one `post` on the sink's logs; its contract is stated by `PostSpecOutcome` |
| `Service.EntryForSpec` | handler.go:90-124 | the entry for an event exists exactly when its timestamp resolves, and otherwise the error is the conversion's; the entry carries the handler's tag, a record that reads back to the event's fields, client and correlation strings, and a UTC time with the converted instant when a timestamp is present or the clock's otherwise |
| `Service.PostSpecOutcome` | handler.go:88-132 | a timestamp error leaves the sink untouched and is returned; otherwise the sink is called exactly once with the entry; `post` succeeds exactly when the sink accepts, and the entry is appended only then |
| `Service.EventReply` | handler.go:40-54 | PostEvent answers with an empty response exactly when `post` returned no error, and otherwise returns `post`'s error unchanged |
| `Service.ListFrom` | handler.go:60-85 | the batch from event `i` on; its contract is stated by the `ListFrom*` and `Batch*` lemmas |
| `Service.ListSpec` | handler.go:60-85 | the whole batch; its contract is stated by `BatchAllAccepted`, `BatchFirstFailure`, `BatchSucceedsIff` and `BatchKeepsTag` |
| `Service.BatchAllAccepted` | handler.go:60-85 | when every event goes through, the batch succeeds, and both `posted` and `attempted` have grown by exactly the events' entries, in list order |
| `Service.BatchFirstFailure` | handler.go:60-82 | when event k is the first that does not go through, the batch returns event k's error; `posted` has grown by exactly the entries of events 0..k-1 in order; `attempted` has grown by those entries, plus event k's entry when its timestamp resolved, and by nothing else |
| `Service.BatchSucceedsIff` | handler.go:60-85 | a batch succeeds exactly when every one of its events goes through; an empty batch always succeeds |
| `Service.BatchKeepsTag` | handler.go:121-122 | a batch only appends to the sink's logs, and every entry it hands to the sink carries the handler's tag |
| `Service.SingletonBatchIsPostEvent` | handler.go:28-85 | a batch of one event changes the sink and fails or succeeds exactly as posting that event alone |
| `Service.Handler.constructor` | handler.go:20-26 | the handler keeps the given sink and tag |
| `Service.Handler.Post` | handler.go:88-132 | the sink's new state and the returned error are those `PostSpec` gives for the event |
| `Service.Handler.PostEvent` | handler.go:28-55 | the sink changes as `PostSpec` says, and the answer is `EventReply` of `post`'s error |
| `Service.Handler.PostEventList` | handler.go:57-86 | the sink changes as `ListSpec` says, and the call fails exactly when `ListSpec` reports an error, with that error; an empty batch succeeds and leaves the sink unchanged |

## Left out

- Process start-up in main.go: flag parsing, TLS credential loading, gRPC
  server construction and the `/site/sha` health endpoint. This is plumbing
  with no logic beyond simple configuration checks.
- Signal handling and the shutdown with 5 s and 10 s deadlines in main.go.
  These are about concurrency and timing.
- The fluentd client's internals: buffering, the 10 KiB write threshold,
  network flushes and connect-on-start. The sink is modelled only as "append
  or refuse". The synchronous-append option is modelled by `Post` returning
  the sink's answer before the handler goes on.
- Concurrent requests that share the sink. The model runs one request at a
  time against the sink.
- `ptypes.Timestamp` is library code whose validation rules are not part of
  this model. It is the abstract `Converter`, which the `Handler` holds as a
  constructor argument. `time.Now` is an input: `now` for one event, and
  `nows[i]` for event `i` of a batch. The source reads the clock at most once
  per event, and only for an event without a timestamp; `now` and `nows[i]`
  are unused otherwise.
- Logging (`handler.go:29`, `41-49`, `58`, `71-79`) and the handler's logger.
  Logging has no effect on results.
- The request context `ctx`, which the handler never reads.
- Nil `event` and `client` pointers. The handler dereferences them unchecked.
  In the model the request types always hold an event and a client.
- The protocol definitions (the `pb` package) are not part of this model. The
  event's `amount` is modelled as an unbounded integer, and the wire
  timestamp as seconds plus nanoseconds.
- Go error values are opaque. The model records which collaborator produced
  an error and carries its message unchanged.
- The REST gateway in json_gateway/main.go, including its header-prefix
  matcher. It is HTTP plumbing around `strings.ToLower` and `HasPrefix`.
